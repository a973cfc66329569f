/** Compilation of a normalised batch to the plugin's command list. */
module Mapping {
  import opened Wrappers
  import opened Values
  import opened Operations

  datatype CommandName =
    | CreateObject | DeleteObject | UpdateObjectAttributes | ExtrudeCurveCommand | OffsetCurveCommand
    | UnionCommand | IntersectionCommand | DifferenceCommand | TransformObjectInPlace | DuplicateObject

  /** One plugin command. `bind` names the alias its returned ids extend; `field` is where the ids are. */
  datatype Command = Command(name: CommandName, params: map<Key, Value>, bind: Option<string>, field: Option<Key>)

  datatype Shape = PointShape | LineShape | PolylineShape | BoxShape | SphereShape

  function ShapeName(shape: Shape): string {
    match shape
    case PointShape => "POINT"
    case LineShape => "LINE"
    case PolylineShape => "POLYLINE"
    case BoxShape => "BOX"
    case SphereShape => "SPHERE"
  }

  function CreateParams(shape: Shape, inner: map<Key, Value>, translation: Option<Vec3>): map<Key, Value> {
    map[KeyType := Str(ShapeName(shape)), KeyParams := Dict(inner)]
    + if translation.Some? then map[KeyTranslation := VecValue(translation.value)] else map[]
  }

  function Closing(points: seq<Vec3>, closed: bool): seq<Vec3>
    requires |points| > 0
  {
    if closed && points[0] != points[|points| - 1] then points + [points[0]] else points
  }

  function BoxSize(min: Vec3, max: Vec3): Vec3 {
    Vec3(max.x - min.x, max.y - min.y, max.z - min.z)
  }

  function BoxCenter(min: Vec3, max: Vec3): Vec3 {
    Vec3((max.x + min.x) / 2.0, (max.y + min.y) / 2.0, (max.z + min.z) / 2.0)
  }

  function CreateCommand(op: Op): Command
    requires IsCreate(op) && (op.CreatePolyline? ==> |op.points| > 0)
  {
    var params :=
      match op
      case CreatePoint(_, p) =>
        CreateParams(PointShape, map[KeyX := Num(p.x), KeyY := Num(p.y), KeyZ := Num(p.z)], None)
      case CreateLine(_, start, end) =>
        CreateParams(LineShape, map[KeyStart := VecValue(start), KeyEnd := VecValue(end)], None)
      case CreatePolyline(_, points, closed) =>
        CreateParams(PolylineShape, map[KeyPoints := VecValues(Closing(points, closed))], None)
      case CreateBox(_, min, max) =>
        var size := BoxSize(min, max);
        CreateParams(BoxShape, map[KeyWidth := Num(size.x), KeyLength := Num(size.y), KeyHeight := Num(size.z)],
                     Some(BoxCenter(min, max)))
      case CreateSphere(_, center, radius) =>
        CreateParams(SphereShape, map[KeyRadius := Num(radius)], Some(center));
    Command(CreateObject, params, Some(op.id), Some(KeyId))
  }

  /** The operations that become one command per target. */
  predicate PerTarget(op: Op) {
    op.TransformInPlace? || op.Duplicate? || op.Delete? || op.SetAttributes? || op.ExtrudeCurve? || op.OffsetCurve?
  }

  function CenterParam(pivot: Option<Vec3>): map<Key, Value> {
    if pivot.Some? then map[KeyCenter := VecValue(pivot.value)] else map[]
  }

  /** The parameters of one per-target command, beside the target itself. A translation carries no centre. */
  function MotionParams(op: Op): map<Key, Value>
    requires op.TransformInPlace?
  {
    match op.motion
    case Translation(offset) => map[KeyTranslation := VecValue(offset)]
    case Rotation(axis, degrees) =>
      map[KeyRotationAxis := VecValue(axis), KeyRotationDegrees := Num(degrees)] + CenterParam(op.pivot)
    case Scale(factor) => map[KeyScaleFactor := Num(factor)] + CenterParam(op.pivot)
  }

  const UPDATE_KEYS: set<Key> := {KeyNewName, KeyLayer, KeyColor, KeyMaterialIndex}

  function UpdateValue(op: Op, key: Key): Option<Value>
    requires op.SetAttributes?
  {
    if key == KeyNewName && op.name.Some? then Some(Str(op.name.value))
    else if key == KeyLayer && op.layer.Some? then Some(Str(op.layer.value))
    else if key == KeyColor && op.color.Some? then Some(IntValues(op.color.value))
    else if key == KeyMaterialIndex && op.material.Some? then Some(Int(op.material.value))
    else None
  }

  function UpdateParams(op: Op): map<Key, Value>
    requires op.SetAttributes?
  {
    map k | k in UPDATE_KEYS && UpdateValue(op, k).Some? :: UpdateValue(op, k).value
  }

  function TargetCommand(op: Op, target: string): Command
    requires PerTarget(op)
  {
    match op
    case TransformInPlace(id, _, _, _) =>
      Command(TransformObjectInPlace, MotionParams(op)[KeyId := Str(target)], Some(id), Some(KeyId))
    case Duplicate(id, _, translation) =>
      var move := if translation.Some? then map[KeyTranslation := VecValue(translation.value)] else map[];
      Command(DuplicateObject, move[KeyId := Str(target)], Some(id), Some(KeyId))
    case Delete(_, _) => Command(DeleteObject, map[KeyId := Str(target)], None, None)
    case SetAttributes(_, _, _, _, _, _) =>
      Command(UpdateObjectAttributes, UpdateParams(op)[KeyId := Str(target)], None, None)
    case ExtrudeCurve(id, _, vector, cap) =>
      Command(ExtrudeCurveCommand, map[KeyCurveId := Str(target), KeyDirection := VecValue(vector), KeyCap := Bool(cap)],
              Some(id), Some(KeyResultId))
    case OffsetCurve(id, _, distance, normal) =>
      Command(OffsetCurveCommand,
              map[KeyCurveId := Str(target), KeyDistance := Num(distance), KeyPlane := VecValue(normal), KeyCornerStyle := Int(1)],
              Some(id), Some(KeyResultIds))
  }

  function TargetCommands(op: Op, targets: seq<string>): seq<Command>
    requires PerTarget(op)
  {
    if targets == [] then [] else [TargetCommand(op, targets[0])] + TargetCommands(op, targets[1..])
  }

  function CombineCommand(op: Op): Result<Command>
    requires op.BooleanUnion? || op.BooleanIntersection? || op.BooleanDifference?
  {
    match op
    case BooleanUnion(id, targets, deleteInput) =>
      Ok(Command(UnionCommand, map[KeyObjectIds := StrValues(targets), KeyDeleteSources := Bool(deleteInput)],
                 Some(id), Some(KeyResultIds)))
    case BooleanIntersection(id, targets, deleteInput) =>
      Ok(Command(IntersectionCommand, map[KeyObjectIds := StrValues(targets), KeyDeleteSources := Bool(deleteInput)],
                 Some(id), Some(KeyResultIds)))
    case BooleanDifference(id, targets, cutters, deleteInput) =>
      if |targets| != 1 then Err(UnsupportedMapping) else
      Ok(Command(DifferenceCommand,
                 map[KeyBaseId := Str(targets[0]), KeySubtractIds := StrValues(cutters), KeyDeleteSources := Bool(deleteInput)],
                 Some(id), Some(KeyResultIds)))
  }

  /** The shape a polyline must have for its first point to exist; normalisation establishes it. */
  predicate Compilable(op: Op) {
    op.CreatePolyline? ==> |op.points| > 0
  }

  function CompileOp(op: Op): Result<seq<Command>>
    requires Compilable(op)
  {
    if IsCreate(op) then Ok([CreateCommand(op)])
    else if PerTarget(op) then Ok(TargetCommands(op, op.targets))
    else
      var command :- CombineCommand(op);
      Ok([command])
  }

  function Compile(ops: seq<Op>): Result<seq<Command>>
    requires forall i :: 0 <= i < |ops| ==> Compilable(ops[i])
  {
    if ops == [] then Ok([]) else
    var first :- CompileOp(ops[0]);
    var rest :- Compile(ops[1..]);
    Ok(first + rest)
  }

  /** A batch fails to compile exactly when some boolean difference has several base targets. */
  lemma {:induction false} CompileFailsOnlyOnDifference(ops: seq<Op>)
    requires forall i :: 0 <= i < |ops| ==> Compilable(ops[i])
    ensures Compile(ops).Ok? <==> forall i :: 0 <= i < |ops| && ops[i].BooleanDifference? ==> |ops[i].targets| == 1
  {
    hide CreateCommand, TargetCommands;
    if ops != [] {
      CompileFailsOnlyOnDifference(ops[1..]);
      assert forall i :: 0 <= i < |ops[1..]| ==> ops[1..][i] == ops[i + 1];
      assert forall i :: 0 < i < |ops| ==> ops[i] == ops[1..][i - 1];
    }
  }

  /** The legacy executor is consulted only for batches of transforms and duplicates that do not compile: there are none. */
  lemma LegacyExecutorUnreachable(ops: seq<Op>)
    requires forall i :: 0 <= i < |ops| ==> Compilable(ops[i])
    requires forall i :: 0 <= i < |ops| ==> ops[i].TransformInPlace? || ops[i].Duplicate?
    ensures Compile(ops).Ok?
  {
    CompileFailsOnlyOnDifference(ops);
  }

  /** What a run that already emitted `done` returns, given the outcome for the operations still to come. */
  function Joined(done: seq<Command>, rest: Result<seq<Command>>): Result<seq<Command>> {
    if rest.Err? then rest else Ok(done + rest.value)
  }

  lemma JoinStep(done: seq<Command>, ops: seq<Op>)
    requires ops != [] && forall i :: 0 <= i < |ops| ==> Compilable(ops[i])
    ensures CompileOp(ops[0]).Err? ==> Joined(done, Compile(ops)) == Err(CompileOp(ops[0]).error)
    ensures CompileOp(ops[0]).Ok? ==> Joined(done, Compile(ops)) == Joined(done + CompileOp(ops[0]).value, Compile(ops[1..]))
  {
    hide CompileOp;
    if CompileOp(ops[0]).Ok? && Compile(ops[1..]).Ok? {
      var first, rest := CompileOp(ops[0]).value, Compile(ops[1..]).value;
      assert (done + first) + rest == done + (first + rest);
    }
  }

  /** The inner loop: one command per target, appended in order. */
  method AppendTargets(commands: seq<Command>, op: Op) returns (r: seq<Command>)
    requires PerTarget(op)
    ensures r == commands + TargetCommands(op, op.targets)
  {
    hide TargetCommand;
    r := commands;
    assert op.targets[0..] == op.targets;
    for t := 0 to |op.targets|
      invariant commands + TargetCommands(op, op.targets) == r + TargetCommands(op, op.targets[t..])
    {
      assert op.targets[t..][1..] == op.targets[t + 1..];
      var command := TargetCommand(op, op.targets[t]);
      assert (r + [command]) + TargetCommands(op, op.targets[t + 1..]) == r + TargetCommands(op, op.targets[t..]);
      r := r + [command];
    }
    assert TargetCommands(op, op.targets[|op.targets|..]) == [];
  }

  /** The compilation loop: it walks the operations and, for most kinds, their targets. */
  method CompileRhinoMcpCommands(ops: seq<Op>) returns (r: Result<seq<Command>>)
    requires forall i :: 0 <= i < |ops| ==> Compilable(ops[i])
    ensures r == Compile(ops)
    ensures r.Ok? <==> forall i :: 0 <= i < |ops| && ops[i].BooleanDifference? ==> |ops[i].targets| == 1
  {
    hide CreateCommand, TargetCommands, CombineCommand, Compile;
    CompileFailsOnlyOnDifference(ops);
    var commands: seq<Command> := [];
    assert ops[0..] == ops;
    assert Joined([], Compile(ops)) == Compile(ops) by {
      if Compile(ops).Ok? { assert [] + Compile(ops).value == Compile(ops).value; }
    }
    for n := 0 to |ops|
      invariant Compile(ops) == Joined(commands, Compile(ops[n..]))
    {
      var op := ops[n];
      assert ops[n..][0] == op && ops[n..][1..] == ops[n + 1..];
      JoinStep(commands, ops[n..]);
      if IsCreate(op) {
        commands := commands + [CreateCommand(op)];
      } else if PerTarget(op) {
        commands := AppendTargets(commands, op);
      } else {
        var command := CombineCommand(op);
        if command.Err? { return Err(command.error); }
        commands := commands + [command.value];
      }
    }
    CompileEmpty(ops[|ops|..]);
    assert commands + [] == commands;
    r := Ok(commands);
  }

  lemma CompileEmpty(ops: seq<Op>)
    requires ops == []
    ensures Compile(ops) == Ok([])
  {}
}
