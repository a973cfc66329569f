/** Validation of a typed operation batch into its canonical form. */
module Operations {
  import opened Wrappers
  import opened Values

  const MAX_OPERATIONS := 256
  const MAX_POINTS := 10_000
  const MAX_TEXT := 4_096
  const MAX_ALIAS := 128

  /** The text predicates Python supplies: UUID parsing, `str.isalnum` and whitespace. */
  datatype TextRules = TextRules(isGuid: string -> bool, isAlnum: char -> bool, isSpace: char -> bool)

  datatype Motion = Translation(offset: Vec3) | Rotation(axis: Vec3, degrees: real) | Scale(factor: real)

  /** A normalised operation. */
  datatype Op =
    | CreatePoint(id: string, point: Vec3)
    | CreateLine(id: string, start: Vec3, end: Vec3)
    | CreatePolyline(id: string, points: seq<Vec3>, closed: bool)
    | CreateBox(id: string, min: Vec3, max: Vec3)
    | CreateSphere(id: string, center: Vec3, radius: real)
    | TransformInPlace(id: string, targets: seq<string>, motion: Motion, pivot: Option<Vec3>)
    | Duplicate(id: string, targets: seq<string>, translation: Option<Vec3>)
    | Delete(id: string, targets: seq<string>)
    | SetAttributes(id: string, targets: seq<string>, name: Option<string>, layer: Option<string>,
                    color: Option<seq<int>>, material: Option<int>)
    | ExtrudeCurve(id: string, targets: seq<string>, vector: Vec3, cap: bool)
    | OffsetCurve(id: string, targets: seq<string>, distance: real, normal: Vec3)
    | BooleanUnion(id: string, targets: seq<string>, deleteInput: bool)
    | BooleanDifference(id: string, targets: seq<string>, cutters: seq<string>, deleteInput: bool)
    | BooleanIntersection(id: string, targets: seq<string>, deleteInput: bool)

  datatype Kind =
    | CreatePointKind
    | CreateLineKind
    | CreatePolylineKind
    | CreateBoxKind
    | CreateSphereKind
    | TransformInPlaceKind
    | DuplicateKind
    | DeleteKind
    | SetAttributesKind
    | ExtrudeCurveKind
    | OffsetCurveKind
    | BooleanUnionKind
    | BooleanDifferenceKind
    | BooleanIntersectionKind

  function KindOf(op: Op): Kind {
    match op
    case CreatePoint(_, _) => CreatePointKind
    case CreateLine(_, _, _) => CreateLineKind
    case CreatePolyline(_, _, _) => CreatePolylineKind
    case CreateBox(_, _, _) => CreateBoxKind
    case CreateSphere(_, _, _) => CreateSphereKind
    case TransformInPlace(_, _, _, _) => TransformInPlaceKind
    case Duplicate(_, _, _) => DuplicateKind
    case Delete(_, _) => DeleteKind
    case SetAttributes(_, _, _, _, _, _) => SetAttributesKind
    case ExtrudeCurve(_, _, _, _) => ExtrudeCurveKind
    case OffsetCurve(_, _, _, _) => OffsetCurveKind
    case BooleanUnion(_, _, _) => BooleanUnionKind
    case BooleanDifference(_, _, _, _) => BooleanDifferenceKind
    case BooleanIntersection(_, _, _) => BooleanIntersectionKind
  }

  function KindName(kind: Kind): string {
    match kind
    case CreatePointKind => "create_point"
    case CreateLineKind => "create_line"
    case CreatePolylineKind => "create_polyline"
    case CreateBoxKind => "create_box"
    case CreateSphereKind => "create_sphere"
    case TransformInPlaceKind => "transform_in_place"
    case DuplicateKind => "duplicate"
    case DeleteKind => "delete"
    case SetAttributesKind => "set_attributes"
    case ExtrudeCurveKind => "extrude_curve"
    case OffsetCurveKind => "offset_curve"
    case BooleanUnionKind => "boolean_union"
    case BooleanDifferenceKind => "boolean_difference"
    case BooleanIntersectionKind => "boolean_intersection"
  }

  function KindNamed(v: Value): Option<Kind> {
    if !v.Str? then None
    else if v.s == KindName(CreatePointKind) then Some(CreatePointKind)
    else if v.s == KindName(CreateLineKind) then Some(CreateLineKind)
    else if v.s == KindName(CreatePolylineKind) then Some(CreatePolylineKind)
    else if v.s == KindName(CreateBoxKind) then Some(CreateBoxKind)
    else if v.s == KindName(CreateSphereKind) then Some(CreateSphereKind)
    else if v.s == KindName(TransformInPlaceKind) then Some(TransformInPlaceKind)
    else if v.s == KindName(DuplicateKind) then Some(DuplicateKind)
    else if v.s == KindName(DeleteKind) then Some(DeleteKind)
    else if v.s == KindName(SetAttributesKind) then Some(SetAttributesKind)
    else if v.s == KindName(ExtrudeCurveKind) then Some(ExtrudeCurveKind)
    else if v.s == KindName(OffsetCurveKind) then Some(OffsetCurveKind)
    else if v.s == KindName(BooleanUnionKind) then Some(BooleanUnionKind)
    else if v.s == KindName(BooleanDifferenceKind) then Some(BooleanDifferenceKind)
    else if v.s == KindName(BooleanIntersectionKind) then Some(BooleanIntersectionKind)
    else None
  }

  function Targets(op: Op): seq<string> {
    if op.CreatePoint? || op.CreateLine? || op.CreatePolyline? || op.CreateBox? || op.CreateSphere?
    then [] else op.targets
  }

  function Cutters(op: Op): seq<string> {
    if op.BooleanDifference? then op.cutters else []
  }

  predicate IsReference(target: string) {
    |target| > 0 && target[0] == '$'
  }

  // ---------------------------------------------------------------- field validators

  function Number(v: Value): Result<real> {
    match v
    case Int(i) => Ok(i as real)
    case Num(r) => Ok(r)
    case _ => Err(InvalidNumber)
  }

  function Positive(v: Value): Result<real> {
    var r :- Number(v);
    if r <= 0.0 then Err(InvalidNumber) else Ok(r)
  }

  function Vector(v: Value): Result<Vec3> {
    if !v.List? || |v.items| != 3 then Err(InvalidNumber) else
    var x :- Number(v.items[0]);
    var y :- Number(v.items[1]);
    var z :- Number(v.items[2]);
    Ok(Vec3(x, y, z))
  }

  function Vectors(items: seq<Value>): (r: Result<seq<Vec3>>)
    ensures r.Ok? ==> |r.value| == |items|
  {
    if items == [] then Ok([]) else
    var first :- Vector(items[0]);
    var rest :- Vectors(items[1..]);
    Ok([first] + rest)
  }

  function Flag(entries: map<Key, Value>, key: Key, default: bool): Result<bool> {
    if key !in entries then Ok(default)
    else if entries[key].Bool? then Ok(entries[key].b)
    else Err(InvalidField)
  }

  predicate Blank(rules: TextRules, text: string) {
    forall i :: 0 <= i < |text| ==> rules.isSpace(text[i])
  }

  predicate BoundedText(rules: TextRules, text: string) {
    !Blank(rules, text) && |text| <= MAX_TEXT
  }

  predicate TargetOk(rules: TextRules, target: string, aliases: set<string>) {
    BoundedText(rules, target) && if IsReference(target) then target[1..] in aliases else rules.isGuid(target)
  }

  function TargetItems(rules: TextRules, items: seq<Value>, aliases: set<string>): (r: Result<seq<string>>)
    ensures r.Ok? ==> |r.value| == |items|
  {
    if items == [] then Ok([]) else
    if !items[0].Str? || !BoundedText(rules, items[0].s) then Err(InvalidTarget) else
    if IsReference(items[0].s) && items[0].s[1..] !in aliases then Err(UnknownReference) else
    if !IsReference(items[0].s) && !rules.isGuid(items[0].s) then Err(InvalidTarget) else
    var rest :- TargetItems(rules, items[1..], aliases);
    Ok([items[0].s] + rest)
  }

  function TargetList(rules: TextRules, v: Value, aliases: set<string>): Result<seq<string>> {
    if !v.List? || v.items == [] || |v.items| > MAX_OPERATIONS then Err(NotAnArray)
    else TargetItems(rules, v.items, aliases)
  }

  predicate ColorByte(v: Value) {
    v.Int? && 0 <= v.i <= 255
  }

  function Color(v: Value): Result<seq<int>> {
    if v.List? && |v.items| in {3, 4} && forall i :: 0 <= i < |v.items| ==> ColorByte(v.items[i])
    then Ok(seq(|v.items|, i requires 0 <= i < |v.items| => if v.items[i].Int? then v.items[i].i else 0))
    else Err(InvalidField)
  }

  function OptionalText(rules: TextRules, entries: map<Key, Value>, key: Key): Result<Option<string>> {
    if key !in entries then Ok(None)
    else if entries[key].Str? && BoundedText(rules, entries[key].s) then Ok(Some(entries[key].s))
    else Err(InvalidField)
  }

  function OptionalVector(entries: map<Key, Value>, key: Key): Result<Option<Vec3>> {
    if key !in entries then Ok(None) else
    var v :- Vector(entries[key]);
    Ok(Some(v))
  }

  predicate OnlyKeys(entries: map<Key, Value>, allowed: set<Key>) {
    entries.Keys <= allowed + {KeyOp, KeyId}
  }

  // ---------------------------------------------------------------- one operation

  function ParsePoint(e: map<Key, Value>, id: string): Result<Op> {
    if !OnlyKeys(e, {KeyPoint}) then Err(UnknownField) else
    var point :- Vector(Field(e, KeyPoint));
    Ok(CreatePoint(id, point))
  }

  function ParseLine(e: map<Key, Value>, id: string): Result<Op> {
    if !OnlyKeys(e, {KeyStart, KeyEnd}) then Err(UnknownField) else
    var start :- Vector(Field(e, KeyStart));
    var end :- Vector(Field(e, KeyEnd));
    if start == end then Err(InvalidShape) else Ok(CreateLine(id, start, end))
  }

  function ParsePolyline(e: map<Key, Value>, id: string): Result<Op> {
    if !OnlyKeys(e, {KeyPoints, KeyClosed}) then Err(UnknownField) else
    var raw := Field(e, KeyPoints);
    if !raw.List? || !(2 <= |raw.items| <= MAX_POINTS) then Err(InvalidField) else
    var points :- Vectors(raw.items);
    var closed :- Flag(e, KeyClosed, false);
    if closed && |points| < 3 then Err(InvalidShape)
    else Ok(CreatePolyline(id, points, closed))
  }

  function ParseBox(e: map<Key, Value>, id: string): Result<Op> {
    if !OnlyKeys(e, {KeyMin, KeyMax}) then Err(UnknownField) else
    var min :- Vector(Field(e, KeyMin));
    var max :- Vector(Field(e, KeyMax));
    if min.x >= max.x || min.y >= max.y || min.z >= max.z then Err(InvalidShape)
    else Ok(CreateBox(id, min, max))
  }

  function ParseSphere(e: map<Key, Value>, id: string): Result<Op> {
    if !OnlyKeys(e, {KeyCenter, KeyRadius}) then Err(UnknownField) else
    var center :- Vector(Field(e, KeyCenter));
    var radius :- Positive(Field(e, KeyRadius));
    Ok(CreateSphere(id, center, radius))
  }

  function ParseRotation(rotation: Value): Result<Motion> {
    if !rotation.Dict? then Err(NotAnObject) else
    if rotation.entries.Keys != {KeyAxis, KeyDegrees} then Err(InvalidField) else
    var axis :- Vector(rotation.entries[KeyAxis]);
    var degrees :- Number(rotation.entries[KeyDegrees]);
    if axis == ORIGIN then Err(InvalidNumber) else Ok(Rotation(axis, degrees))
  }

  function ParseMotion(e: map<Key, Value>): Result<Motion> {
    var hasT, hasR, hasS := KeyTranslation in e, KeyRotation in e, KeyScale in e;
    if hasT && !hasR && !hasS then
      var offset :- Vector(e[KeyTranslation]);
      Ok(Translation(offset))
    else if hasR && !hasT && !hasS then ParseRotation(e[KeyRotation])
    else if hasS && !hasT && !hasR then
      var factor :- Positive(e[KeyScale]);
      Ok(Scale(factor))
    else Err(InvalidField)
  }

  function ParseTransform(rules: TextRules, e: map<Key, Value>, id: string, aliases: set<string>): Result<Op> {
    if !OnlyKeys(e, {KeyTargets, KeyTranslation, KeyRotation, KeyScale, KeyCenter}) then Err(UnknownField) else
    var targets :- TargetList(rules, Field(e, KeyTargets), aliases);
    var motion :- ParseMotion(e);
    var pivot :- OptionalVector(e, KeyCenter);
    Ok(TransformInPlace(id, targets, motion, pivot))
  }

  function ParseDelete(rules: TextRules, e: map<Key, Value>, id: string, aliases: set<string>): Result<Op> {
    if !OnlyKeys(e, {KeyTargets, KeyTranslation}) then Err(UnknownField) else
    var targets :- TargetList(rules, Field(e, KeyTargets), aliases);
    if KeyTranslation in e then Err(UnknownField) else Ok(Delete(id, targets))
  }

  function ParseDuplicate(rules: TextRules, e: map<Key, Value>, id: string, aliases: set<string>): Result<Op> {
    if !OnlyKeys(e, {KeyTargets, KeyTranslation}) then Err(UnknownField) else
    var targets :- TargetList(rules, Field(e, KeyTargets), aliases);
    var translation :- OptionalVector(e, KeyTranslation);
    Ok(Duplicate(id, targets, translation))
  }

  function OptionalColor(e: map<Key, Value>): Result<Option<seq<int>>> {
    if KeyColor !in e then Ok(None) else
    var color :- Color(e[KeyColor]);
    Ok(Some(color))
  }

  function OptionalMaterial(e: map<Key, Value>): Result<Option<int>> {
    if KeyMaterialIndex !in e then Ok(None)
    else if e[KeyMaterialIndex].Int? && e[KeyMaterialIndex].i >= -1 then Ok(Some(e[KeyMaterialIndex].i))
    else Err(InvalidField)
  }

  function ParseAttributes(rules: TextRules, e: map<Key, Value>, id: string, aliases: set<string>): Result<Op> {
    if !OnlyKeys(e, {KeyTargets, KeyName, KeyLayer, KeyColor, KeyMaterialIndex}) then Err(UnknownField) else
    var targets :- TargetList(rules, Field(e, KeyTargets), aliases);
    var name :- OptionalText(rules, e, KeyName);
    var layer :- OptionalText(rules, e, KeyLayer);
    var color :- OptionalColor(e);
    var material :- OptionalMaterial(e);
    if name.None? && layer.None? && color.None? && material.None? then Err(InvalidField)
    else Ok(SetAttributes(id, targets, name, layer, color, material))
  }

  function ParseExtrude(rules: TextRules, e: map<Key, Value>, id: string, aliases: set<string>): Result<Op> {
    if !OnlyKeys(e, {KeyTargets, KeyVector, KeyCap}) then Err(UnknownField) else
    var targets :- TargetList(rules, Field(e, KeyTargets), aliases);
    var cap :- Flag(e, KeyCap, true);
    var vector :- Vector(Field(e, KeyVector));
    if vector == ORIGIN then Err(InvalidNumber) else Ok(ExtrudeCurve(id, targets, vector, cap))
  }

  function ParseOffset(rules: TextRules, e: map<Key, Value>, id: string, aliases: set<string>): Result<Op> {
    if !OnlyKeys(e, {KeyTargets, KeyDistance, KeyNormal}) then Err(UnknownField) else
    var targets :- TargetList(rules, Field(e, KeyTargets), aliases);
    var distance :- Number(Field(e, KeyDistance));
    if distance == 0.0 then Err(InvalidNumber) else
    var normal :- if KeyNormal in e then Vector(e[KeyNormal]) else Ok(Vec3(0.0, 0.0, 1.0));
    Ok(OffsetCurve(id, targets, distance, normal))
  }

  function ParseDifference(rules: TextRules, e: map<Key, Value>, id: string, aliases: set<string>): Result<Op> {
    if !OnlyKeys(e, {KeyTargets, KeyCutters, KeyDeleteInput}) then Err(UnknownField) else
    var targets :- TargetList(rules, Field(e, KeyTargets), aliases);
    var cutters :- TargetList(rules, Field(e, KeyCutters), aliases);
    var deleteInput :- Flag(e, KeyDeleteInput, true);
    Ok(BooleanDifference(id, targets, cutters, deleteInput))
  }

  function ParseCombine(rules: TextRules, union: bool, e: map<Key, Value>, id: string, aliases: set<string>): Result<Op> {
    if !OnlyKeys(e, {KeyTargets, KeyCutters, KeyDeleteInput}) then Err(UnknownField) else
    var targets :- TargetList(rules, Field(e, KeyTargets), aliases);
    if KeyCutters in e then Err(UnknownField) else
    var deleteInput :- Flag(e, KeyDeleteInput, true);
    Ok(if union then BooleanUnion(id, targets, deleteInput) else BooleanIntersection(id, targets, deleteInput))
  }

  function ParseBody(rules: TextRules, kind: Kind, e: map<Key, Value>, id: string, aliases: set<string>): Result<Op> {
    match kind
    case CreatePointKind => ParsePoint(e, id)
    case CreateLineKind => ParseLine(e, id)
    case CreatePolylineKind => ParsePolyline(e, id)
    case CreateBoxKind => ParseBox(e, id)
    case CreateSphereKind => ParseSphere(e, id)
    case TransformInPlaceKind => ParseTransform(rules, e, id, aliases)
    case DuplicateKind => ParseDuplicate(rules, e, id, aliases)
    case DeleteKind => ParseDelete(rules, e, id, aliases)
    case SetAttributesKind => ParseAttributes(rules, e, id, aliases)
    case ExtrudeCurveKind => ParseExtrude(rules, e, id, aliases)
    case OffsetCurveKind => ParseOffset(rules, e, id, aliases)
    case BooleanUnionKind => ParseCombine(rules, true, e, id, aliases)
    case BooleanDifferenceKind => ParseDifference(rules, e, id, aliases)
    case BooleanIntersectionKind => ParseCombine(rules, false, e, id, aliases)
  }

  predicate AliasOk(rules: TextRules, alias: string) {
    0 < |alias| <= MAX_ALIAS
    && forall i :: 0 <= i < |alias| ==> alias[i] in {'_', '-'} || rules.isAlnum(alias[i])
  }

  function Decimal(n: nat): string {
    if n < 10 then [('0' as int + n) as char] else Decimal(n / 10) + [('0' as int + n % 10) as char]
  }

  function ParseOp(rules: TextRules, raw: Value, index: nat, aliases: set<string>): Result<Op> {
    if !raw.Dict? then Err(NotAnObject) else
    var kind := KindNamed(Field(raw.entries, KeyOp));
    if kind.None? then Err(UnknownOp) else
    var alias := if KeyId in raw.entries then raw.entries[KeyId] else Str("op_" + Decimal(index + 1));
    if !alias.Str? || !AliasOk(rules, alias.s) then Err(InvalidId) else
    if alias.s in aliases then Err(DuplicateId) else
    ParseBody(rules, kind.value, raw.entries, alias.s, aliases)
  }

  function ParseFrom(rules: TextRules, raws: seq<Value>, index: nat, aliases: set<string>): Result<seq<Op>> {
    if raws == [] then Ok([]) else
    var op :- ParseOp(rules, raws[0], index, aliases);
    var rest :- ParseFrom(rules, raws[1..], index + 1, aliases + {op.id});
    Ok([op] + rest)
  }

  function Normalize(rules: TextRules, batch: Value): Result<seq<Op>> {
    if !batch.List? || batch.items == [] || |batch.items| > MAX_OPERATIONS then Err(NotAnArray)
    else ParseFrom(rules, batch.items, 0, {})
  }

  // ---------------------------------------------------------------- the canonical dictionary

  function TargetEntries(targets: seq<string>): map<Key, Value> {
    map[KeyTargets := StrValues(targets)]
  }

  function Optional(key: Key, v: Option<Value>): map<Key, Value> {
    if v.Some? then map[key := v.value] else map[]
  }

  function MapOption<T, U>(f: T -> U, o: Option<T>): Option<U> {
    if o.Some? then Some(f(o.value)) else None
  }

  function MotionEntries(m: Motion): map<Key, Value> {
    match m
    case Translation(offset) => map[KeyTranslation := VecValue(offset)]
    case Rotation(axis, degrees) => map[KeyRotation := Dict(map[KeyAxis := VecValue(axis), KeyDegrees := Num(degrees)])]
    case Scale(factor) => map[KeyScale := Num(factor)]
  }

  const ATTRIBUTE_KEYS: set<Key> := {KeyTargets, KeyName, KeyLayer, KeyColor, KeyMaterialIndex}

  function AttributeValue(op: Op, key: Key): Option<Value>
    requires op.SetAttributes?
  {
    if key == KeyTargets then Some(StrValues(op.targets))
    else if key == KeyName && op.name.Some? then Some(Str(op.name.value))
    else if key == KeyLayer && op.layer.Some? then Some(Str(op.layer.value))
    else if key == KeyColor && op.color.Some? then Some(IntValues(op.color.value))
    else if key == KeyMaterialIndex && op.material.Some? then Some(Int(op.material.value))
    else None
  }

  function BodyEntries(op: Op): map<Key, Value> {
    match op
    case CreatePoint(_, point) => map[KeyPoint := VecValue(point)]
    case CreateLine(_, start, end) => map[KeyStart := VecValue(start), KeyEnd := VecValue(end)]
    case CreatePolyline(_, points, closed) => map[KeyPoints := VecValues(points), KeyClosed := Bool(closed)]
    case CreateBox(_, min, max) => map[KeyMin := VecValue(min), KeyMax := VecValue(max)]
    case CreateSphere(_, center, radius) => map[KeyCenter := VecValue(center), KeyRadius := Num(radius)]
    case TransformInPlace(_, targets, motion, pivot) =>
      TargetEntries(targets) + MotionEntries(motion) + Optional(KeyCenter, MapOption(VecValue, pivot))
    case Duplicate(_, targets, translation) =>
      TargetEntries(targets) + Optional(KeyTranslation, MapOption(VecValue, translation))
    case Delete(_, targets) => TargetEntries(targets)
    case SetAttributes(_, targets, name, layer, color, material) =>
      map k | k in ATTRIBUTE_KEYS && AttributeValue(op, k).Some? :: AttributeValue(op, k).value
    case ExtrudeCurve(_, targets, vector, cap) =>
      TargetEntries(targets) + map[KeyVector := VecValue(vector), KeyCap := Bool(cap)]
    case OffsetCurve(_, targets, distance, normal) =>
      TargetEntries(targets) + map[KeyDistance := Num(distance), KeyNormal := VecValue(normal)]
    case BooleanUnion(_, targets, deleteInput) => TargetEntries(targets) + map[KeyDeleteInput := Bool(deleteInput)]
    case BooleanDifference(_, targets, cutters, deleteInput) =>
      TargetEntries(targets) + map[KeyCutters := StrValues(cutters), KeyDeleteInput := Bool(deleteInput)]
    case BooleanIntersection(_, targets, deleteInput) => TargetEntries(targets) + map[KeyDeleteInput := Bool(deleteInput)]
  }

  function Render(op: Op): Value {
    Dict(map[KeyOp := Str(KindName(KindOf(op))), KeyId := Str(op.id)] + BodyEntries(op))
  }

  function RenderBatch(ops: seq<Op>): Value {
    List(MapSeq(Render, ops))
  }

  // ---------------------------------------------------------------- what a normalised batch satisfies

  predicate TargetsOk(rules: TextRules, targets: seq<string>, aliases: set<string>) {
    0 < |targets| <= MAX_OPERATIONS && forall i :: 0 <= i < |targets| ==> TargetOk(rules, targets[i], aliases)
  }

  predicate FieldsOk(rules: TextRules, op: Op) {
    match op
    case CreatePoint(_, _) => true
    case CreateLine(_, start, end) => start != end
    case CreatePolyline(_, points, closed) => 2 <= |points| <= MAX_POINTS && (closed ==> |points| >= 3)
    case CreateBox(_, min, max) => min.x < max.x && min.y < max.y && min.z < max.z
    case CreateSphere(_, _, radius) => radius > 0.0
    case TransformInPlace(_, _, motion, _) =>
      (motion.Rotation? ==> motion.axis != ORIGIN) && (motion.Scale? ==> motion.factor > 0.0)
    case Duplicate(_, _, _) => true
    case Delete(_, _) => true
    case SetAttributes(_, _, name, layer, color, material) =>
      && (name.Some? || layer.Some? || color.Some? || material.Some?)
      && (name.Some? ==> BoundedText(rules, name.value))
      && (layer.Some? ==> BoundedText(rules, layer.value))
      && (color.Some? ==> |color.value| in {3, 4} && forall i :: 0 <= i < |color.value| ==> 0 <= color.value[i] <= 255)
      && (material.Some? ==> material.value >= -1)
    case ExtrudeCurve(_, _, vector, _) => vector != ORIGIN
    case OffsetCurve(_, _, distance, _) => distance != 0.0
    case BooleanUnion(_, _, _) => true
    case BooleanDifference(_, _, _, _) => true
    case BooleanIntersection(_, _, _) => true
  }

  predicate IsCreate(op: Op) {
    op.CreatePoint? || op.CreateLine? || op.CreatePolyline? || op.CreateBox? || op.CreateSphere?
  }

  predicate OpOk(rules: TextRules, op: Op, aliases: set<string>) {
    && AliasOk(rules, op.id) && op.id !in aliases && FieldsOk(rules, op)
    && (!IsCreate(op) ==> TargetsOk(rules, op.targets, aliases))
    && (op.BooleanDifference? ==> TargetsOk(rules, op.cutters, aliases))
  }

  function IdsOf(ops: seq<Op>): set<string> {
    set i | 0 <= i < |ops| :: ops[i].id
  }

  predicate BatchOk(rules: TextRules, ops: seq<Op>) {
    0 < |ops| <= MAX_OPERATIONS && forall i :: 0 <= i < |ops| ==> OpOk(rules, ops[i], IdsOf(ops[..i]))
  }
}
