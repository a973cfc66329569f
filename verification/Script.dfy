/** The reference semantics of a batch: the interpreter embedded in the generated Rhino script. */
module Script {
  import opened Wrappers
  import opened Values
  import opened Operations
  import opened Mapping
  import opened Host

  type Aliases = map<string, seq<string>>

  /** What one step did: the document after it, its output ids, and the ids it reports. */
  datatype Effect = Effect(doc: Document, output: seq<string>, created: seq<string>, modified: seq<string>, deleted: seq<string>)

  datatype State = State(doc: Document, aliases: Aliases, created: seq<string>, modified: seq<string>, deleted: seq<string>)

  function Unchanged(doc: Document): Effect {
    Effect(doc, [], [], [], [])
  }

  /** All targets are resolved and all literal targets looked up before the operation touches the document. */
  function Ids(k: Kernel, doc: Document, aliases: Aliases, targets: seq<string>): Result<seq<string>> {
    if targets == [] then Ok([]) else
    var first :-
      if IsReference(targets[0]) then
        if targets[0][1..] in aliases then Ok(aliases[targets[0][1..]]) else Err(AliasFault)
      else if k.canon(targets[0]) in doc.objects then Ok([k.canon(targets[0])])
      else Err(HostRefused);
    var rest :- Ids(k, doc, aliases, targets[1..]);
    Ok(first + rest)
  }

  function CreatedGeometry(op: Op): Geometry
    requires IsCreate(op) && Compilable(op)
  {
    match op
    case CreatePoint(_, p) => PointGeometry(p)
    case CreateLine(_, start, end) => LineGeometry(start, end)
    case CreatePolyline(_, points, closed) =>
      PolylineGeometry(if closed && points[0] != points[|points| - 1] then points + [points[0]] else points)
    case CreateBox(_, min, max) => BoxGeometry(min, max)
    case CreateSphere(_, center, radius) => SphereGeometry(center, radius)
  }

  function WithAttributes(op: Op, a: Attributes): Attributes
    requires op.SetAttributes?
  {
    var named := if op.name.Some? then a.(name := op.name.value) else a;
    var layered := if op.layer.Some? then named.(layer := op.layer.value) else named;
    var colored := if op.color.Some? then layered.(color := op.color) else layered;
    if op.material.Some? then colored.(material := op.material) else colored
  }

  /** The body of a per-target loop for one object id. */
  function TargetStep(k: Kernel, op: Op, doc: Document, id: string): Result<Effect>
    requires PerTarget(op)
  {
    if id !in doc.objects then Err(HostRefused) else
    var source := doc.objects[id];
    match op
    case TransformInPlace(_, _, motion, pivot) =>
      var center := if pivot.Some? then pivot.value else ORIGIN;
      var geometry := k.transform(source.geometry, motion, if motion.Translation? then ORIGIN else center);
      if geometry.None? then Err(HostRefused) else
      Ok(Effect(doc.(objects := doc.objects[id := source.(geometry := geometry.value)]), [id], [], [id], []))
    case Duplicate(_, _, translation) =>
      var offset := if translation.Some? then translation.value else ORIGIN;
      var (added, copy) := AddObject(k, doc, k.moved(source.geometry, offset), source.attributes);
      Ok(Effect(added, [copy], [copy], [], []))
    case Delete(_, _) => Ok(Effect(RemoveObject(doc, id), [id], [], [], [id]))
    case SetAttributes(_, _, _, layer, _, _) =>
      var layers := if layer.Some? then doc.layers + {layer.value} else doc.layers;
      var changed := source.(attributes := WithAttributes(op, source.attributes));
      Ok(Effect(doc.(objects := doc.objects[id := changed], layers := layers), [id], [], [id], []))
    case ExtrudeCurve(_, _, vector, cap) =>
      var solid := k.extrude(source.geometry, vector, cap);
      if solid.None? then Err(HostRefused) else
      var (added, created) := AddObject(k, doc, solid.value, k.defaults);
      Ok(Effect(added, [created], [created], [], []))
    case OffsetCurve(_, _, distance, normal) =>
      var pieces := k.offset(source.geometry, distance, normal);
      if pieces == [] then Err(HostRefused) else
      var (added, created) := AddObjects(k, doc, pieces);
      Ok(Effect(added, created, created, [], []))
  }

  function TargetSteps(k: Kernel, op: Op, doc: Document, ids: seq<string>): Result<Effect>
    requires PerTarget(op)
    decreases |ids|
  {
    if ids == [] then Ok(Unchanged(doc)) else
    var first :- TargetStep(k, op, doc, ids[0]);
    var rest :- TargetSteps(k, op, first.doc, ids[1..]);
    Ok(Effect(rest.doc, first.output + rest.output, first.created + rest.created,
              first.modified + rest.modified, first.deleted + rest.deleted))
  }

  predicate AllPresent(doc: Document, ids: seq<string>) {
    forall i :: 0 <= i < |ids| ==> ids[i] in doc.objects
  }

  function CombineStep(k: Kernel, op: Op, doc: Document, left: seq<string>, right: seq<string>): Result<Effect>
    requires op.BooleanUnion? || op.BooleanIntersection? || op.BooleanDifference?
  {
    if !AllPresent(doc, left) || !AllPresent(doc, right) then Err(HostRefused) else
    if op.BooleanIntersection? && |left| != 2 then Err(HostRefused) else
    var how := if op.BooleanUnion? then Union else if op.BooleanIntersection? then Intersection else Difference;
    var pieces := k.combine(how, Geometries(doc, left), Geometries(doc, right));
    if pieces == [] then Err(HostRefused) else
    var (added, output) := AddObjects(k, doc, pieces);
    var (after, deleted) := DeleteEach(added, if op.deleteInput then left + right else []);
    Ok(Effect(after, output, output, [], deleted))
  }

  function OpStep(k: Kernel, op: Op, doc: Document, aliases: Aliases): Result<Effect>
    requires Compilable(op)
  {
    if IsCreate(op) then
      var (added, id) := AddObject(k, doc, CreatedGeometry(op), k.defaults);
      Ok(Effect(added, [id], [id], [], []))
    else
      var ids :- Ids(k, doc, aliases, op.targets);
      if PerTarget(op) then TargetSteps(k, op, doc, ids) else
      var right :- Ids(k, doc, aliases, Cutters(op));
      CombineStep(k, op, doc, ids, right)
  }

  function Advance(s: State, op: Op, e: Effect): State {
    State(e.doc, s.aliases[op.id := e.output], s.created + e.created, s.modified + e.modified, s.deleted + e.deleted)
  }

  function Interpret(k: Kernel, ops: seq<Op>, s: State): Result<State>
    requires forall i :: 0 <= i < |ops| ==> Compilable(ops[i])
  {
    if ops == [] then Ok(s) else
    var e :- OpStep(k, ops[0], s.doc, s.aliases);
    Interpret(k, ops[1..], Advance(s, ops[0], e))
  }

  function Start(doc: Document): State {
    State(doc, map[], [], [], [])
  }
}
