/** The two backends agree: the command list and the reference script have the same effect on a batch. */
module Agreement {
  import opened Wrappers
  import opened Values
  import opened Operations
  import opened Normalization
  import opened Mapping
  import opened Host
  import opened Script
  import opened Plugin

  // ---------------------------------------------------------------- values without references

  predicate Plain(v: Value) {
    match v
    case Str(text) => !IsReference(text)
    case List(items) => forall i :: 0 <= i < |items| ==> Plain(items[i])
    case Dict(entries) => forall key :: key in entries ==> Plain(entries[key])
    case _ => true
  }

  lemma {:induction false} ResolvePlain(v: Value, aliases: Aliases)
    requires Plain(v)
    ensures ResolveValue(v, aliases) == Ok(v)
    decreases v, 1
  {
    match v
    case List(items) => ResolvePlainItems(items, aliases);
    case Dict(entries) =>
      forall key | key in entries ensures ResolveValue(entries[key], aliases) == Ok(entries[key]) {
        ResolvePlain(entries[key], aliases);
      }
      var r := ResolveValue(v, aliases);
      assert r.Ok? && r.value.Dict?;
      assert r.value.entries == entries;
    case _ =>
  }

  lemma {:induction false} ResolvePlainItems(items: seq<Value>, aliases: Aliases)
    requires forall i :: 0 <= i < |items| ==> Plain(items[i])
    ensures ResolveItems(items, aliases) == Ok(items)
    decreases items, 0
  {
    if items != [] {
      ResolvePlain(items[0], aliases);
      ResolvePlainItems(items[1..], aliases);
      assert [items[0]] + items[1..] == items;
    }
  }

  lemma ResolveDict(entries: map<Key, Value>, resolved: map<Key, Value>, aliases: Aliases)
    requires entries.Keys == resolved.Keys
    requires forall key :: key in entries ==> ResolveValue(entries[key], aliases) == Ok(resolved[key])
    ensures ResolveValue(Dict(entries), aliases) == Ok(Dict(resolved))
  {
    hide ResolveText, ResolveItems;
    var r := ResolveValue(Dict(entries), aliases);
    assert r.Ok? && r.value.Dict?;
    assert r.value.entries == resolved;
  }

  /** One scalar target among plain parameters: only the target is replaced. */
  lemma ResolveTarget(rest: map<Key, Value>, key: Key, target: string, aliases: Aliases)
    requires forall other :: other in rest && other != key ==> Plain(rest[other])
    ensures var text := ResolveText(target, aliases);
            ResolveParams(rest[key := Str(target)], aliases) == if text.Ok? then Ok(rest[key := Str(text.value)]) else Err(AliasFault)
  {
    hide ResolveText, Plain;
    var params := rest[key := Str(target)];
    var text := ResolveText(target, aliases);
    assert ResolveValue(Str(target), aliases) == if text.Ok? then Ok(Str(text.value)) else Err(text.error);
    if text.Ok? {
      var resolved := rest[key := Str(text.value)];
      forall other | other in params ensures ResolveValue(params[other], aliases) == Ok(resolved[other]) {
        if other != key { ResolvePlain(rest[other], aliases); }
      }
      ResolveDict(params, resolved, aliases);
    } else {
      assert key in params && !ResolveValue(params[key], aliases).Ok?;
      assert ResolveValue(Dict(params), aliases) == Err(AliasFault);
    }
  }

  // ---------------------------------------------------------------- one create command

  lemma VectorsPlain(points: seq<Vec3>)
    ensures Plain(VecValues(points))
  {}

  lemma ShapePlain(shape: Shape, inner: map<Key, Value>, at: Option<Vec3>)
    requires Plain(Dict(inner))
    ensures Plain(Dict(CreateParams(shape, inner, at)))
  {
    assert Plain(Str(ShapeName(shape)));
    var params := CreateParams(shape, inner, at);
    forall key | key in params ensures Plain(params[key]) {}
  }

  lemma CreateParamsPlain(op: Op)
    requires IsCreate(op) && Compilable(op)
    ensures Plain(Dict(CreateCommand(op).params))
  {
    hide VecValues, CreateParams;
    match op
    case CreatePoint(_, p) => ShapePlain(PointShape, map[KeyX := Num(p.x), KeyY := Num(p.y), KeyZ := Num(p.z)], None);
    case CreateLine(_, start, end) =>
      ShapePlain(LineShape, map[KeyStart := VecValue(start), KeyEnd := VecValue(end)], None);
    case CreatePolyline(_, points, closed) =>
      VectorsPlain(Closing(points, closed));
      ShapePlain(PolylineShape, map[KeyPoints := VecValues(Closing(points, closed))], None);
    case CreateBox(_, min, max) =>
      var size := BoxSize(min, max);
      ShapePlain(BoxShape, map[KeyWidth := Num(size.x), KeyLength := Num(size.y), KeyHeight := Num(size.z)], Some(BoxCenter(min, max)));
    case CreateSphere(_, center, radius) => ShapePlain(SphereShape, map[KeyRadius := Num(radius)], Some(center));
  }

  lemma ShapeRoundTrip(shape: Shape)
    ensures ShapeNamed(Str(ShapeName(shape))) == Some(shape)
  {}

  /** What the plugin decodes from create parameters, before it builds the geometry. */
  lemma DecodeCreate(k: Kernel, doc: Document, shape: Shape, inner: map<Key, Value>, at: Option<Vec3>, g: Geometry)
    requires Primitive(shape, inner).Some?
    requires g == if at.Some? then Translated(Primitive(shape, inner).value, at.value) else Primitive(shape, inner).value
    ensures var (added, id) := AddObject(k, doc, g, k.defaults);
            PluginCreate(k, doc, CreateParams(shape, inner, at)) == Ok((added, map[KeyId := Str(id)]))
  {
    hide ShapeName, ShapeNamed, Primitive, Translated;
    ShapeRoundTrip(shape);
    var params := CreateParams(shape, inner, at);
    assert Field(params, KeyType) == Str(ShapeName(shape)) && Field(params, KeyParams) == Dict(inner);
    if at.Some? {
      assert params[KeyTranslation] == VecValue(at.value);
      VectorRoundTrip(at.value);
    }
  }

  lemma BoxRebuilt(op: Op, inner: map<Key, Value>)
    requires op.CreateBox?
    requires var size := BoxSize(op.min, op.max);
             inner == map[KeyWidth := Num(size.x), KeyLength := Num(size.y), KeyHeight := Num(size.z)]
    ensures Primitive(BoxShape, inner).Some?
    ensures Translated(Primitive(BoxShape, inner).value, BoxCenter(op.min, op.max)) == BoxGeometry(op.min, op.max)
  {}

  /** Size and centre rebuild the box that min and max describe; the other shapes are already in place. */
  lemma CreateGeometryAgrees(k: Kernel, op: Op, doc: Document)
    requires IsCreate(op) && Compilable(op)
    ensures var (added, id) := AddObject(k, doc, CreatedGeometry(op), k.defaults);
            PluginCreate(k, doc, CreateCommand(op).params) == Ok((added, map[KeyId := Str(id)]))
  {
    hide ShapeName, ShapeNamed, Vectors, PluginCreate, CreateParams, AddObject;
    var g := CreatedGeometry(op);
    match op
    case CreatePoint(_, p) =>
      DecodeCreate(k, doc, PointShape, map[KeyX := Num(p.x), KeyY := Num(p.y), KeyZ := Num(p.z)], None, g);
    case CreateLine(_, start, end) =>
      DecodeCreate(k, doc, LineShape, map[KeyStart := VecValue(start), KeyEnd := VecValue(end)], None, g);
    case CreatePolyline(_, points, closed) =>
      VectorsRoundTrip(Closing(points, closed));
      DecodeCreate(k, doc, PolylineShape, map[KeyPoints := VecValues(Closing(points, closed))], None, g);
    case CreateBox(_, min, max) =>
      var size := BoxSize(min, max);
      var inner := map[KeyWidth := Num(size.x), KeyLength := Num(size.y), KeyHeight := Num(size.z)];
      BoxRebuilt(op, inner);
      DecodeCreate(k, doc, BoxShape, inner, Some(BoxCenter(min, max)), g);
    case CreateSphere(_, center, radius) =>
      assert Add(ORIGIN, center) == center;
      DecodeCreate(k, doc, SphereShape, map[KeyRadius := Num(radius)], Some(center), g);
  }

  lemma CreateAgrees(k: Kernel, op: Op, s: RunState)
    requires ValidKernel(k) && IsCreate(op) && Compilable(op)
    ensures var (added, id) := AddObject(k, s.doc, CreatedGeometry(op), k.defaults);
            var run := RunCommand(k, s, CreateCommand(op));
            run.Ok? && run.value.doc == added && run.value.aliases == Bound(s.aliases, Some(op.id), [id])
  {
    hide PluginCreate, CreatedGeometry;
    CreateParamsPlain(op);
    ResolvePlain(Dict(CreateCommand(op).params), s.aliases);
    CreateGeometryAgrees(k, op, s.doc);
    SupplyNotEmpty(k, s.doc.next);
    var id := k.supply(s.doc.next);
    assert NonEmptyTexts([Str(id)]) == [id];
  }

  lemma SupplyNotEmpty(k: Kernel, n: nat)
    requires ValidKernel(k)
    ensures k.supply(n) != ""
  {
    assert k.canon(k.supply(n)) == k.supply(n);
  }

  // ---------------------------------------------------------------- one command per target

  /** No name or layer text is itself a `$name` reference. */
  predicate PlainText(op: Op) {
    op.SetAttributes? ==> (op.name.Some? ==> !IsReference(op.name.value)) && (op.layer.Some? ==> !IsReference(op.layer.value))
  }

  predicate Binds(op: Op) {
    !op.Delete? && !op.SetAttributes?
  }

  /** What a per-target command does once its target resolved to `text`. */
  function TargetOutcome(k: Kernel, op: Op, doc: Document, text: string): Result<Effect>
    requires PerTarget(op)
  {
    TargetStep(k, op, doc, k.canon(text))
  }

  function BindOutput(aliases: Aliases, op: Op, output: seq<string>): Aliases {
    if Binds(op) then aliases[op.id := Lookup(aliases, op.id) + output] else aliases
  }

  ghost predicate Matches(k: Kernel, op: Op, s: RunState, text: string, run: Result<RunState>)
    requires PerTarget(op)
  {
    var step := TargetOutcome(k, op, s.doc, text);
    if step.Err? then run.Err?
    else run.Ok? && run.value.doc == step.value.doc && run.value.aliases == BindOutput(s.aliases, op, step.value.output)
  }

  lemma TextsOfStrings(ids: seq<string>)
    requires forall i :: 0 <= i < |ids| ==> ids[i] != ""
    ensures NonEmptyTexts(StrValues(ids).items) == ids
  {
    if ids != [] {
      assert StrValues(ids).items[1..] == StrValues(ids[1..]).items;
      TextsOfStrings(ids[1..]);
    }
  }

  /** The reply a plugin command must give for its loop iteration to match the script. */
  ghost predicate Replies(k: Kernel, op: Op, doc: Document, params: map<Key, Value>, text: string)
    requires PerTarget(op)
  {
    var step := TargetOutcome(k, op, doc, text);
    var command := TargetCommand(op, text);
    var reply := PluginCall(k, doc, command.name, params);
    if step.Err? then reply.Err?
    else reply.Ok? && reply.value.0 == step.value.doc && (Binds(op) ==> ExtractIds(reply.value.1, command.field) == step.value.output)
  }

  lemma SingleText(id: string)
    requires id != ""
    ensures NonEmptyTexts([Str(id)]) == [id]
  {
    assert [Str(id)][1..] == [];
  }

  lemma MotionSurvives(op: Op, text: string)
    requires op.TransformInPlace?
    ensures var params := MotionParams(op)[KeyId := Str(text)];
            && MotionOf(params) == op.motion && KeyId in params && params[KeyId] == Str(text)
            && VectorOr(params, KeyCenter, ORIGIN) == if op.motion.Translation? || op.pivot.None? then ORIGIN else op.pivot.value
  {}

  lemma TransformReplies(k: Kernel, op: Op, doc: Document, text: string)
    requires ValidKernel(k) && op.TransformInPlace?
    ensures Replies(k, op, doc, MotionParams(op)[KeyId := Str(text)], text)
  {
    hide MotionParams, MotionOf, VectorOr;
    MotionSurvives(op, text);
    SingleText(k.canon(text));
  }

  lemma DuplicateReplies(k: Kernel, op: Op, doc: Document, text: string)
    requires ValidKernel(k) && op.Duplicate?
    ensures Replies(k, op, doc, TargetCommand(op, text).params, text)
  {
    SupplyNotEmpty(k, doc.next);
    SingleText(k.supply(doc.next));
  }

  lemma UpdatesSurvive(op: Op, text: string, a: Attributes)
    requires op.SetAttributes? && (op.color.Some? ==> Color(IntValues(op.color.value)) == Ok(op.color.value))
    ensures var params := UpdateParams(op)[KeyId := Str(text)];
            && UpdatedAttributes(params, a) == WithAttributes(op, a)
            && (KeyLayer in params <==> op.layer.Some?) && (op.layer.Some? ==> params[KeyLayer] == Str(op.layer.value))
  {
    hide Color, IntValues;
    var params := UpdateParams(op)[KeyId := Str(text)];
    assert KeyNewName in params <==> op.name.Some?;
    assert KeyLayer in params <==> op.layer.Some?;
    assert KeyColor in params <==> op.color.Some?;
    assert KeyMaterialIndex in params <==> op.material.Some?;
  }

  lemma UpdateReplies(k: Kernel, op: Op, doc: Document, text: string)
    requires ValidKernel(k) && op.SetAttributes? && (op.color.Some? ==> Color(IntValues(op.color.value)) == Ok(op.color.value))
    ensures Replies(k, op, doc, UpdateParams(op)[KeyId := Str(text)], text)
  {
    hide Color, IntValues, UpdateParams, UpdatedAttributes, WithAttributes;
    if k.canon(text) in doc.objects { UpdatesSurvive(op, text, doc.objects[k.canon(text)].attributes); }
  }

  lemma ExtrudeReplies(k: Kernel, op: Op, doc: Document, text: string)
    requires ValidKernel(k) && op.ExtrudeCurve?
    ensures Replies(k, op, doc, TargetCommand(op, text).params, text)
  {
    SupplyNotEmpty(k, doc.next);
    SingleText(k.supply(doc.next));
  }

  lemma CreatedTexts(k: Kernel, doc: Document, pieces: seq<Geometry>)
    requires ValidKernel(k) && ValidDocument(k, doc)
    ensures var ids := AddObjects(k, doc, pieces).1; NonEmptyTexts(StrValues(ids).items) == ids
  {
    AddObjectsValid(k, doc, pieces);
    var ids := AddObjects(k, doc, pieces).1;
    forall i | 0 <= i < |ids| ensures ids[i] != "" { SupplyNotEmpty(k, doc.next + i); }
    TextsOfStrings(ids);
  }

  lemma OffsetReplies(k: Kernel, op: Op, doc: Document, text: string)
    requires ValidKernel(k) && ValidDocument(k, doc) && op.OffsetCurve?
    ensures Replies(k, op, doc, TargetCommand(op, text).params, text)
  {
    hide AddObjects, NonEmptyTexts;
    if k.canon(text) in doc.objects {
      var params := TargetCommand(op, text).params;
      assert VectorOr(params, KeyPlane, ORIGIN) == op.normal;
      CreatedTexts(k, doc, k.offset(doc.objects[k.canon(text)].geometry, op.distance, op.normal));
    }
  }

  lemma DeleteReplies(k: Kernel, op: Op, doc: Document, text: string)
    requires op.Delete?
    ensures Replies(k, op, doc, TargetCommand(op, text).params, text)
  {}

  lemma CommandReplies(k: Kernel, rules: TextRules, op: Op, doc: Document, text: string)
    requires ValidKernel(k) && ValidDocument(k, doc) && PerTarget(op) && FieldsOk(rules, op)
    ensures Replies(k, op, doc, TargetCommand(op, text).params, text)
  {
    hide Replies;
    match op
    case TransformInPlace(_, _, _, _) => TransformReplies(k, op, doc, text);
    case Duplicate(_, _, _) => DuplicateReplies(k, op, doc, text);
    case Delete(_, _) => DeleteReplies(k, op, doc, text);
    case SetAttributes(_, _, _, _, color, _) =>
      if color.Some? { ColorRoundTrip(color.value); }
      UpdateReplies(k, op, doc, text);
    case ExtrudeCurve(_, _, _, _) => ExtrudeReplies(k, op, doc, text);
    case OffsetCurve(_, _, _, _) => OffsetReplies(k, op, doc, text);
  }

  /** The parameters of a per-target command beside its target hold no reference. */
  function TargetKey(op: Op): Key {
    if op.ExtrudeCurve? || op.OffsetCurve? then KeyCurveId else KeyId
  }

  lemma VectorPlain(v: Vec3)
    ensures Plain(VecValue(v))
  {}

  lemma IntsPlain(numbers: seq<int>)
    ensures Plain(IntValues(numbers))
  {}

  lemma MotionParamsPlain(op: Op)
    requires op.TransformInPlace?
    ensures forall key :: key in MotionParams(op) ==> Plain(MotionParams(op)[key])
  {
    hide VecValue;
    if op.pivot.Some? { VectorPlain(op.pivot.value); }
    match op.motion
    case Translation(offset) => VectorPlain(offset);
    case Rotation(axis, _) => VectorPlain(axis);
    case Scale(_) =>
  }

  lemma UpdateParamsPlain(op: Op)
    requires op.SetAttributes? && PlainText(op)
    ensures forall key :: key in UpdateParams(op) ==> Plain(UpdateParams(op)[key])
  {
    hide IntValues;
    if op.color.Some? { IntsPlain(op.color.value); }
  }

  lemma PlainScalar(v: Value)
    requires !v.Str? && !v.List? && !v.Dict?
    ensures Plain(v)
  {}

  lemma OtherParamsPlain(op: Op, target: string)
    requires PerTarget(op) && PlainText(op)
    ensures var params := TargetCommand(op, target).params;
            TargetKey(op) in params && forall key :: key in params && key != TargetKey(op) ==> Plain(params[key])
  {
    hide VecValue, MotionParams, UpdateParams, Plain;
    match op
    case TransformInPlace(_, _, _, _) => MotionParamsPlain(op);
    case Duplicate(_, _, translation) => if translation.Some? { VectorPlain(translation.value); }
    case Delete(_, _) =>
    case SetAttributes(_, _, _, _, _, _) => UpdateParamsPlain(op);
    case ExtrudeCurve(_, _, vector, cap) =>
      VectorPlain(vector);
      PlainScalar(Bool(cap));
    case OffsetCurve(_, _, distance, normal) =>
      VectorPlain(normal);
      PlainScalar(Num(distance));
      PlainScalar(Int(1));
  }

  lemma SameRest(op: Op, target: string, text: string)
    requires PerTarget(op)
    ensures TargetCommand(op, target).params[TargetKey(op) := Str(text)] == TargetCommand(op, text).params
    ensures TargetCommand(op, target).params[TargetKey(op) := Str(target)] == TargetCommand(op, target).params
  {}

  lemma ResolveTargetCommand(op: Op, target: string, aliases: Aliases)
    requires PerTarget(op) && PlainText(op)
    ensures var text := ResolveText(target, aliases);
            ResolveParams(TargetCommand(op, target).params, aliases)
            == if text.Ok? then Ok(TargetCommand(op, text.value).params) else Err(AliasFault)
  {
    hide TargetCommand, Plain, ResolveParams, ResolveText;
    OtherParamsPlain(op, target);
    ResolveTarget(TargetCommand(op, target).params, TargetKey(op), target, aliases);
    SameRest(op, target, target);
    if ResolveText(target, aliases).Ok? {
      SameRest(op, target, ResolveText(target, aliases).value);
    }
  }

  /** Sending one per-target command is one iteration of the script's loop over that target. */
  lemma TargetAgrees(k: Kernel, rules: TextRules, op: Op, s: RunState, target: string)
    requires ValidKernel(k) && ValidDocument(k, s.doc) && PerTarget(op) && FieldsOk(rules, op) && PlainText(op)
    ensures var text := ResolveText(target, s.aliases);
            var run := RunCommand(k, s, TargetCommand(op, target));
            if text.Err? then run.Err? else Matches(k, op, s, text.value, run)
  {
    hide ResolveText, ResolveParams, PluginCall, TargetStep, ExtractIds;
    ResolveTargetCommand(op, target, s.aliases);
    if ResolveText(target, s.aliases).Ok? {
      CommandReplies(k, rules, op, s.doc, ResolveText(target, s.aliases).value);
      OutputNotEmpty(k, op, s.doc, k.canon(ResolveText(target, s.aliases).value));
    }
  }

  lemma OutputNotEmpty(k: Kernel, op: Op, doc: Document, id: string)
    requires PerTarget(op)
    ensures var step := TargetStep(k, op, doc, id); step.Ok? ==> step.value.output != []
  {}

  // ---------------------------------------------------------------- all targets of one operation

  ghost predicate Unsupplied(k: Kernel, id: string, from: nat) {
    forall n :: n >= from ==> k.supply(n) != id
  }

  /** `after` holds no object that `before` lacked, other than under an id supplied in between. */
  ghost predicate OnlyFresh(k: Kernel, before: Document, after: Document) {
    && before.next <= after.next
    && forall id :: id !in before.objects && Unsupplied(k, id, before.next) ==> id !in after.objects
  }

  lemma OnlyFreshTransitive(k: Kernel, a: Document, b: Document, c: Document)
    requires OnlyFresh(k, a, b) && OnlyFresh(k, b, c)
    ensures OnlyFresh(k, a, c)
  {
    forall id | id !in a.objects && Unsupplied(k, id, a.next) ensures id !in c.objects {
      assert Unsupplied(k, id, b.next);
    }
  }

  lemma AddKeeps(k: Kernel, doc: Document, pieces: seq<Geometry>)
    requires ValidKernel(k) && ValidDocument(k, doc)
    ensures var after := AddObjects(k, doc, pieces).0; ValidDocument(k, after) && OnlyFresh(k, doc, after)
  {
    hide AddObjects;
    AddObjectsValid(k, doc, pieces);
    var (after, ids) := AddObjects(k, doc, pieces);
    forall id | id !in doc.objects && Unsupplied(k, id, doc.next) ensures id !in after.objects {
      assert forall i :: 0 <= i < |ids| ==> ids[i] != id;
    }
  }

  lemma StepKeeps(k: Kernel, op: Op, doc: Document, id: string)
    requires ValidKernel(k) && ValidDocument(k, doc) && PerTarget(op)
    ensures var step := TargetStep(k, op, doc, id);
            step.Ok? ==> ValidDocument(k, step.value.doc) && OnlyFresh(k, doc, step.value.doc)
  {
    if op.OffsetCurve? && id in doc.objects {
      AddKeeps(k, doc, k.offset(doc.objects[id].geometry, op.distance, op.normal));
    }
  }

  /** The canonical id each scalar target stands for. */
  function Texts(k: Kernel, targets: seq<string>, aliases: Aliases): (r: seq<string>)
    ensures |r| == |targets|
  {
    seq(|targets|, i requires 0 <= i < |targets| =>
      var text := ResolveText(targets[i], aliases); if text.Ok? then k.canon(text.value) else "")
  }

  predicate ScalarsResolve(targets: seq<string>, aliases: Aliases) {
    forall i :: 0 <= i < |targets| ==> ResolveText(targets[i], aliases).Ok?
  }

  predicate NoSelfReference(op: Op, targets: seq<string>) {
    forall i :: 0 <= i < |targets| && IsReference(targets[i]) ==> targets[i][1..] != op.id
  }

  function BindAll(aliases: Aliases, op: Op, targets: seq<string>, output: seq<string>): Aliases {
    if targets == [] then aliases else BindOutput(aliases, op, output)
  }

  lemma BindKeepsTexts(k: Kernel, op: Op, targets: seq<string>, aliases: Aliases, output: seq<string>)
    requires NoSelfReference(op, targets)
    ensures ScalarsResolve(targets, BindOutput(aliases, op, output)) == ScalarsResolve(targets, aliases)
    ensures Texts(k, targets, BindOutput(aliases, op, output)) == Texts(k, targets, aliases)
  {
    forall i | 0 <= i < |targets|
      ensures ResolveText(targets[i], BindOutput(aliases, op, output)) == ResolveText(targets[i], aliases) {}
  }

  lemma TextsCons(k: Kernel, targets: seq<string>, aliases: Aliases)
    requires targets != []
    ensures Texts(k, targets, aliases)[1..] == Texts(k, targets[1..], aliases)
    ensures var text := ResolveText(targets[0], aliases); text.Ok? ==> Texts(k, targets, aliases)[0] == k.canon(text.value)
    ensures ScalarsResolve(targets, aliases)
            <==> ResolveText(targets[0], aliases).Ok? && ScalarsResolve(targets[1..], aliases)
  {
    if ResolveText(targets[0], aliases).Ok? && ScalarsResolve(targets[1..], aliases) {
      forall i | 0 <= i < |targets| ensures ResolveText(targets[i], aliases).Ok? {
        if i > 0 { assert targets[i] == targets[1..][i - 1]; }
      }
    }
  }

  /** The commands of one operation succeed exactly when its scalar references resolve and the script's loop succeeds. */
  lemma {:induction false} TargetsAgree(k: Kernel, rules: TextRules, op: Op, targets: seq<string>, s: RunState)
    requires ValidKernel(k) && ValidDocument(k, s.doc) && PerTarget(op) && FieldsOk(rules, op) && PlainText(op)
    requires NoSelfReference(op, targets)
    ensures var run := Run(k, TargetCommands(op, targets), s);
            var steps := TargetSteps(k, op, s.doc, Texts(k, targets, s.aliases));
            && (run.Ok? <==> ScalarsResolve(targets, s.aliases) && steps.Ok?)
            && (run.Ok? ==> run.value.doc == steps.value.doc
                            && run.value.aliases == BindAll(s.aliases, op, targets, steps.value.output))
    decreases |targets|
  {
    hide RunCommand, TargetCommand, ResolveText, TargetStep, Texts, FieldsOk, PlainText, ScalarsResolve, TargetCommands, TargetSteps;
    TargetCommandsUnfold(op, targets);
    TargetStepsUnfold(k, op, s.doc, Texts(k, targets, s.aliases));
    if targets == [] {
      NoScalars(s.aliases);
    } else {
      var command, rest := TargetCommand(op, targets[0]), TargetCommands(op, targets[1..]);
      assert ([command] + rest)[1..] == rest;
      TargetAgrees(k, rules, op, s, targets[0]);
      TextsCons(k, targets, s.aliases);
      if ResolveText(targets[0], s.aliases).Ok? && RunCommand(k, s, command).Ok? {
        var next := RunCommand(k, s, command).value;
        var step := TargetStep(k, op, s.doc, Texts(k, targets, s.aliases)[0]).value;
        StepKeeps(k, op, s.doc, Texts(k, targets, s.aliases)[0]);
        BindKeepsTexts(k, op, targets[1..], s.aliases, step.output);
        TargetsAgree(k, rules, op, targets[1..], next);
        var others := TargetSteps(k, op, next.doc, Texts(k, targets[1..], s.aliases));
        if others.Ok? {
          BindTwice(s.aliases, op, targets[1..], step.output, others.value.output);
          if targets[1..] == [] {
            TargetStepsUnfold(k, op, next.doc, Texts(k, targets[1..], s.aliases));
            assert others.value.output == [] && step.output + [] == step.output;
          }
        }
      }
    }
  }

  lemma NoScalars(aliases: Aliases)
    ensures ScalarsResolve([], aliases)
  {}

  lemma TargetCommandsUnfold(op: Op, targets: seq<string>)
    requires PerTarget(op)
    ensures TargetCommands(op, targets) ==
            if targets == [] then [] else [TargetCommand(op, targets[0])] + TargetCommands(op, targets[1..])
  {}

  lemma TargetStepsUnfold(k: Kernel, op: Op, doc: Document, ids: seq<string>)
    requires PerTarget(op)
    ensures ids == [] ==> TargetSteps(k, op, doc, ids) == Ok(Unchanged(doc))
    ensures ids != [] ==>
      var first := TargetStep(k, op, doc, ids[0]);
      if first.Err? then TargetSteps(k, op, doc, ids).Err?
      else
        var rest := TargetSteps(k, op, first.value.doc, ids[1..]);
        if rest.Err? then TargetSteps(k, op, doc, ids).Err?
        else TargetSteps(k, op, doc, ids).Ok? && TargetSteps(k, op, doc, ids).value.doc == rest.value.doc
             && TargetSteps(k, op, doc, ids).value.output == first.value.output + rest.value.output
  {
    hide TargetStep;
  }

  lemma BindTwice(aliases: Aliases, op: Op, targets: seq<string>, first: seq<string>, second: seq<string>)
    ensures BindAll(BindOutput(aliases, op, first), op, targets, second)
            == BindOutput(aliases, op, if targets == [] then first else first + second)
  {
    assert Lookup(aliases, op.id) + first + second == Lookup(aliases, op.id) + (first + second);
  }
}
