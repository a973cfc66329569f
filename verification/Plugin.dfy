/** The command-list backend: alias resolution, the plugin's commands, and the loop that sends them. */
module Plugin {
  import opened Wrappers
  import opened Values
  import opened Operations
  import opened Mapping
  import opened Host
  import opened Script

  // ---------------------------------------------------------------- alias resolution

  function Lookup(aliases: Aliases, name: string): seq<string> {
    if name in aliases then aliases[name] else []
  }

  /** A `$name` in a scalar position must stand for exactly one id. */
  function ResolveText(text: string, aliases: Aliases): Result<string> {
    if !IsReference(text) then Ok(text)
    else if |Lookup(aliases, text[1..])| == 1 then Ok(Lookup(aliases, text[1..])[0])
    else Err(AliasFault)
  }

  /** A `$name` inside a list expands to all of its ids. */
  function ResolveValue(v: Value, aliases: Aliases): Result<Value>
    decreases v, 1
  {
    match v
    case Str(text) =>
      var resolved :- ResolveText(text, aliases);
      Ok(Str(resolved))
    case List(items) =>
      var resolved :- ResolveItems(items, aliases);
      Ok(List(resolved))
    case Dict(entries) =>
      if forall key :: key in entries ==> ResolveValue(entries[key], aliases).Ok?
      then Ok(Dict(map key | key in entries :: ResolveValue(entries[key], aliases).value))
      else Err(AliasFault)
    case _ => Ok(v)
  }

  function ResolveItems(items: seq<Value>, aliases: Aliases): Result<seq<Value>>
    decreases items, 0
  {
    if items == [] then Ok([]) else
    var first :-
      if items[0].Str? && IsReference(items[0].s) then
        if Lookup(aliases, items[0].s[1..]) == [] then Err(AliasFault)
        else Ok(StrValues(Lookup(aliases, items[0].s[1..])).items)
      else
        (var resolved :- ResolveValue(items[0], aliases); Ok([resolved]));
    var rest :- ResolveItems(items[1..], aliases);
    Ok(first + rest)
  }

  function ResolveParams(params: map<Key, Value>, aliases: Aliases): Result<map<Key, Value>> {
    var resolved :- ResolveValue(Dict(params), aliases);
    if resolved.Dict? then Ok(resolved.entries) else Err(AliasFault)
  }

  // ---------------------------------------------------------------- the plugin

  function ShapeNamed(v: Value): Option<Shape> {
    if v == Str(ShapeName(PointShape)) then Some(PointShape)
    else if v == Str(ShapeName(LineShape)) then Some(LineShape)
    else if v == Str(ShapeName(PolylineShape)) then Some(PolylineShape)
    else if v == Str(ShapeName(BoxShape)) then Some(BoxShape)
    else if v == Str(ShapeName(SphereShape)) then Some(SphereShape)
    else None
  }

  function VectorOr(params: map<Key, Value>, key: Key, default: Vec3): Vec3 {
    if key in params && Vector(params[key]).Ok? then Vector(params[key]).value else default
  }

  function NumberOr(params: map<Key, Value>, key: Key, default: real): real {
    if key in params && Number(params[key]).Ok? then Number(params[key]).value else default
  }

  /** A primitive as the plugin builds it: boxes and spheres are centred on the origin. */
  function Primitive(shape: Shape, inner: map<Key, Value>): Option<Geometry> {
    match shape
    case PointShape => Some(PointGeometry(Vec3(NumberOr(inner, KeyX, 0.0), NumberOr(inner, KeyY, 0.0), NumberOr(inner, KeyZ, 0.0))))
    case LineShape => Some(LineGeometry(VectorOr(inner, KeyStart, ORIGIN), VectorOr(inner, KeyEnd, ORIGIN)))
    case PolylineShape =>
      var points := Field(inner, KeyPoints);
      if points.List? && Vectors(points.items).Ok? then Some(PolylineGeometry(Vectors(points.items).value)) else None
    case BoxShape =>
      var w, l, h := NumberOr(inner, KeyWidth, 1.0), NumberOr(inner, KeyLength, 1.0), NumberOr(inner, KeyHeight, 1.0);
      Some(BoxGeometry(Vec3(-w / 2.0, -l / 2.0, -h / 2.0), Vec3(w / 2.0, l / 2.0, h / 2.0)))
    case SphereShape => Some(SphereGeometry(ORIGIN, NumberOr(inner, KeyRadius, 1.0)))
  }

  function Translated(g: Geometry, offset: Vec3): Geometry {
    match g
    case PointGeometry(p) => PointGeometry(Add(p, offset))
    case LineGeometry(a, b) => LineGeometry(Add(a, offset), Add(b, offset))
    case PolylineGeometry(points) => PolylineGeometry(MapSeq(p => Add(p, offset), points))
    case BoxGeometry(low, high) => BoxGeometry(Add(low, offset), Add(high, offset))
    case SphereGeometry(center, radius) => SphereGeometry(Add(center, offset), radius)
    case Computed(_) => g
  }

  type Reply = (Document, map<Key, Value>)

  function PluginCreate(k: Kernel, doc: Document, params: map<Key, Value>): Result<Reply> {
    var shape := ShapeNamed(Field(params, KeyType));
    var inner := Field(params, KeyParams);
    if shape.None? || !inner.Dict? then Err(HostRefused) else
    var primitive := Primitive(shape.value, inner.entries);
    if primitive.None? then Err(HostRefused) else
    var geometry := if KeyTranslation in params then Translated(primitive.value, VectorOr(params, KeyTranslation, ORIGIN))
                    else primitive.value;
    var (added, id) := AddObject(k, doc, geometry, k.defaults);
    Ok((added, map[KeyId := Str(id)]))
  }

  /** The object a scalar id parameter names. */
  function Named(k: Kernel, doc: Document, params: map<Key, Value>, key: Key): Result<string> {
    if key in params && params[key].Str? && k.canon(params[key].s) in doc.objects
    then Ok(k.canon(params[key].s)) else Err(HostRefused)
  }

  function MotionOf(params: map<Key, Value>): Motion {
    if KeyTranslation in params then Translation(VectorOr(params, KeyTranslation, ORIGIN))
    else if KeyRotationAxis in params then
      Rotation(VectorOr(params, KeyRotationAxis, ORIGIN), NumberOr(params, KeyRotationDegrees, 0.0))
    else Scale(NumberOr(params, KeyScaleFactor, 1.0))
  }

  function PluginTransform(k: Kernel, doc: Document, params: map<Key, Value>): Result<Reply> {
    var id :- Named(k, doc, params, KeyId);
    var geometry := k.transform(doc.objects[id].geometry, MotionOf(params), VectorOr(params, KeyCenter, ORIGIN));
    if geometry.None? then Err(HostRefused) else
    Ok((doc.(objects := doc.objects[id := doc.objects[id].(geometry := geometry.value)]), map[KeyId := Str(id)]))
  }

  function PluginDuplicate(k: Kernel, doc: Document, params: map<Key, Value>): Result<Reply> {
    var id :- Named(k, doc, params, KeyId);
    var source := doc.objects[id];
    var moved := k.moved(source.geometry, VectorOr(params, KeyTranslation, ORIGIN));
    var (added, copy) := AddObject(k, doc, moved, source.attributes);
    Ok((added, map[KeyId := Str(copy)]))
  }

  function PluginDelete(k: Kernel, doc: Document, params: map<Key, Value>): Result<Reply> {
    var id :- Named(k, doc, params, KeyId);
    Ok((RemoveObject(doc, id), map[KeyId := Str(id)]))
  }

  function UpdatedAttributes(params: map<Key, Value>, a: Attributes): Attributes {
    Attributes(
      if KeyNewName in params && params[KeyNewName].Str? then params[KeyNewName].s else a.name,
      if KeyLayer in params && params[KeyLayer].Str? then params[KeyLayer].s else a.layer,
      if KeyColor in params && Color(params[KeyColor]).Ok? then Some(Color(params[KeyColor]).value) else a.color,
      if KeyMaterialIndex in params && params[KeyMaterialIndex].Int? then Some(params[KeyMaterialIndex].i) else a.material)
  }

  function PluginUpdate(k: Kernel, doc: Document, params: map<Key, Value>): Result<Reply> {
    var id :- Named(k, doc, params, KeyId);
    var changed := doc.objects[id].(attributes := UpdatedAttributes(params, doc.objects[id].attributes));
    var layers := if KeyLayer in params && params[KeyLayer].Str? then doc.layers + {params[KeyLayer].s} else doc.layers;
    Ok((doc.(objects := doc.objects[id := changed], layers := layers), map[KeyId := Str(id)]))
  }

  function PluginExtrude(k: Kernel, doc: Document, params: map<Key, Value>): Result<Reply> {
    var id :- Named(k, doc, params, KeyCurveId);
    var cap := KeyCap in params && params[KeyCap] == Bool(true);
    var solid := k.extrude(doc.objects[id].geometry, VectorOr(params, KeyDirection, ORIGIN), cap);
    if solid.None? then Err(HostRefused) else
    var (added, created) := AddObject(k, doc, solid.value, k.defaults);
    Ok((added, map[KeyResultId := Str(created)]))
  }

  function PluginOffset(k: Kernel, doc: Document, params: map<Key, Value>): Result<Reply> {
    var id :- Named(k, doc, params, KeyCurveId);
    var pieces := k.offset(doc.objects[id].geometry, NumberOr(params, KeyDistance, 0.0), VectorOr(params, KeyPlane, ORIGIN));
    if pieces == [] then Err(HostRefused) else
    var (added, created) := AddObjects(k, doc, pieces);
    Ok((added, map[KeyResultIds := StrValues(created)]))
  }

  /** The ids a list parameter names, in order. */
  function NamedAll(k: Kernel, doc: Document, items: seq<Value>): Result<seq<string>> {
    if forall i :: 0 <= i < |items| ==> items[i].Str? && k.canon(items[i].s) in doc.objects
    then Ok(seq(|items|, i requires 0 <= i < |items| => if items[i].Str? then k.canon(items[i].s) else ""))
    else Err(HostRefused)
  }

  function PluginCombine(k: Kernel, doc: Document, how: Combination, left: seq<string>, right: seq<string>, deleteSources: bool)
    : Result<Reply>
    requires AllPresent(doc, left) && AllPresent(doc, right)
  {
    if how == Intersection && |left| != 2 then Err(HostRefused) else
    var pieces := k.combine(how, Geometries(doc, left), Geometries(doc, right));
    if pieces == [] then Err(HostRefused) else
    var (added, created) := AddObjects(k, doc, pieces);
    var (after, _) := DeleteEach(added, if deleteSources then left + right else []);
    Ok((after, map[KeyResultIds := StrValues(created)]))
  }

  function PluginBoolean(k: Kernel, doc: Document, name: CommandName, params: map<Key, Value>): Result<Reply> {
    var deleteSources := KeyDeleteSources in params && params[KeyDeleteSources] == Bool(true);
    if name == DifferenceCommand then
      var left :- Named(k, doc, params, KeyBaseId);
      var cutters := Field(params, KeySubtractIds);
      if !cutters.List? then Err(HostRefused) else
      var right :- NamedAll(k, doc, cutters.items);
      PluginCombine(k, doc, Difference, [left], right, deleteSources)
    else
      var objects := Field(params, KeyObjectIds);
      if !objects.List? then Err(HostRefused) else
      var left :- NamedAll(k, doc, objects.items);
      PluginCombine(k, doc, if name == UnionCommand then Union else Intersection, left, [], deleteSources)
  }

  function PluginCall(k: Kernel, doc: Document, name: CommandName, params: map<Key, Value>): Result<Reply> {
    match name
    case CreateObject => PluginCreate(k, doc, params)
    case DeleteObject => PluginDelete(k, doc, params)
    case UpdateObjectAttributes => PluginUpdate(k, doc, params)
    case ExtrudeCurveCommand => PluginExtrude(k, doc, params)
    case OffsetCurveCommand => PluginOffset(k, doc, params)
    case TransformObjectInPlace => PluginTransform(k, doc, params)
    case DuplicateObject => PluginDuplicate(k, doc, params)
    case UnionCommand => PluginBoolean(k, doc, name, params)
    case IntersectionCommand => PluginBoolean(k, doc, name, params)
    case DifferenceCommand => PluginBoolean(k, doc, name, params)
  }

  // ---------------------------------------------------------------- the sending loop

  /** The ids in one field of a reply: a list of texts or a single text; empty texts are skipped. */
  function ExtractIds(reply: map<Key, Value>, field: Option<Key>): seq<string> {
    if field.None? then [] else
    var v := Field(reply, field.value);
    if v.List? then NonEmptyTexts(v.items) else NonEmptyTexts([v])
  }

  function NonEmptyTexts(items: seq<Value>): seq<string> {
    if items == [] then [] else
    (if items[0].Str? && items[0].s != "" then [items[0].s] else []) + NonEmptyTexts(items[1..])
  }

  datatype Sent = Sent(name: CommandName, params: map<Key, Value>)

  datatype RunState = RunState(doc: Document, aliases: Aliases, sent: seq<Sent>)

  function Bound(aliases: Aliases, bind: Option<string>, ids: seq<string>): Aliases {
    if bind.None? then aliases else aliases[bind.value := Lookup(aliases, bind.value) + ids]
  }

  function RunCommand(k: Kernel, s: RunState, c: Command): Result<RunState> {
    var params :- ResolveParams(c.params, s.aliases);
    var reply :- PluginCall(k, s.doc, c.name, params);
    var ids := ExtractIds(reply.1, c.field);
    if c.bind.Some? && ids == [] then Err(NoIdsReturned) else
    Ok(RunState(reply.0, Bound(s.aliases, c.bind, ids), s.sent + [Sent(c.name, params)]))
  }

  function Run(k: Kernel, commands: seq<Command>, s: RunState): Result<RunState> {
    if commands == [] then Ok(s) else
    var next :- RunCommand(k, s, commands[0]);
    Run(k, commands[1..], next)
  }

  function Begin(doc: Document): RunState {
    RunState(doc, map[], [])
  }

  lemma {:induction false} RunConcat(k: Kernel, first: seq<Command>, second: seq<Command>, s: RunState)
    ensures Run(k, first + second, s) == var r := Run(k, first, s); if r.Err? then r else Run(k, second, r.value)
    decreases |first|
  {
    hide RunCommand;
    if first == [] {
      assert first + second == second;
    } else {
      assert (first + second)[0] == first[0] && (first + second)[1..] == first[1..] + second;
      if RunCommand(k, s, first[0]).Ok? {
        RunConcat(k, first[1..], second, RunCommand(k, s, first[0]).value);
      }
    }
  }
}
