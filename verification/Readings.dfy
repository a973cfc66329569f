/** What a raw batch says, field by field, and that normalisation returns exactly the permitted batch it says. */
module Readings {
  import opened Wrappers
  import opened Values
  import opened Operations
  import opened Normalization

  type Fields = map<Key, Value>

  // ---------------------------------------------------------------- single fields

  predicate IsNumber(v: Value, r: real) {
    (v.Int? && v.i as real == r) || (v.Num? && v.r == r)
  }

  predicate IsVector(v: Value, p: Vec3) {
    v.List? && |v.items| == 3 && IsNumber(v.items[0], p.x) && IsNumber(v.items[1], p.y) && IsNumber(v.items[2], p.z)
  }

  predicate HasVector(e: Fields, key: Key, p: Vec3) {
    key in e && IsVector(e[key], p)
  }

  predicate HasNumber(e: Fields, key: Key, r: real) {
    key in e && IsNumber(e[key], r)
  }

  predicate AreTexts(items: seq<Value>, texts: seq<string>) {
    |items| == |texts| && forall i :: 0 <= i < |items| ==> items[i] == Str(texts[i])
  }

  predicate HasTexts(e: Fields, key: Key, texts: seq<string>) {
    key in e && e[key].List? && AreTexts(e[key].items, texts)
  }

  predicate AreVectors(items: seq<Value>, points: seq<Vec3>) {
    |items| == |points| && forall i :: 0 <= i < |items| ==> IsVector(items[i], points[i])
  }

  /** A flag is as given, and `default` when omitted. */
  predicate IsFlag(e: Fields, key: Key, default: bool, flag: bool) {
    if key in e then e[key] == Bool(flag) else flag == default
  }

  /** Optional fields are present exactly if given. */
  predicate IsOptionalText(e: Fields, key: Key, text: Option<string>) {
    if key in e then text.Some? && e[key] == Str(text.value) else text.None?
  }

  predicate IsOptionalVector(e: Fields, key: Key, p: Option<Vec3>) {
    if key in e then p.Some? && IsVector(e[key], p.value) else p.None?
  }

  predicate IsOptionalColor(e: Fields, color: Option<seq<int>>) {
    if KeyColor in e then
      color.Some? && e[KeyColor].List? && |e[KeyColor].items| == |color.value|
      && forall i :: 0 <= i < |color.value| ==> e[KeyColor].items[i] == Int(color.value[i])
    else color.None?
  }

  predicate IsOptionalInt(e: Fields, key: Key, n: Option<int>) {
    if key in e then n.Some? && e[key] == Int(n.value) else n.None?
  }

  /** Exactly one of the three motions is given, and it is this one. */
  predicate IsMotion(e: Fields, motion: Motion) {
    match motion
    case Translation(offset) => KeyRotation !in e && KeyScale !in e && HasVector(e, KeyTranslation, offset)
    case Rotation(axis, degrees) =>
      && KeyTranslation !in e && KeyScale !in e && KeyRotation in e && e[KeyRotation].Dict?
      && var r := e[KeyRotation].entries;
         r.Keys == {KeyAxis, KeyDegrees} && HasVector(r, KeyAxis, axis) && HasNumber(r, KeyDegrees, degrees)
    case Scale(factor) => KeyTranslation !in e && KeyRotation !in e && HasNumber(e, KeyScale, factor)
  }

  // ---------------------------------------------------------------- one operation

  /** The object says that it is an operation of this name and has no fields but these beside `op` and `id`. */
  predicate Says(e: Fields, name: string, fields: set<Key>) {
    KeyOp in e && e[KeyOp] == Str(name) && forall key :: key in e ==> key in fields || key == KeyOp || key == KeyId
  }

  predicate ReadsBody(e: Fields, op: Op) {
    match op
    case CreatePoint(_, point) => Says(e, "create_point", {KeyPoint}) && HasVector(e, KeyPoint, point)
    case CreateLine(_, start, end) =>
      Says(e, "create_line", {KeyStart, KeyEnd}) && HasVector(e, KeyStart, start) && HasVector(e, KeyEnd, end)
    case CreatePolyline(_, points, closed) =>
      && Says(e, "create_polyline", {KeyPoints, KeyClosed}) && IsFlag(e, KeyClosed, false, closed)
      && KeyPoints in e && e[KeyPoints].List? && AreVectors(e[KeyPoints].items, points)
    case CreateBox(_, min, max) =>
      Says(e, "create_box", {KeyMin, KeyMax}) && HasVector(e, KeyMin, min) && HasVector(e, KeyMax, max)
    case CreateSphere(_, center, radius) =>
      Says(e, "create_sphere", {KeyCenter, KeyRadius}) && HasVector(e, KeyCenter, center) && HasNumber(e, KeyRadius, radius)
    case TransformInPlace(_, targets, motion, pivot) =>
      && Says(e, "transform_in_place", {KeyTargets, KeyTranslation, KeyRotation, KeyScale, KeyCenter})
      && HasTexts(e, KeyTargets, targets) && IsMotion(e, motion) && IsOptionalVector(e, KeyCenter, pivot)
    case Duplicate(_, targets, translation) =>
      && Says(e, "duplicate", {KeyTargets, KeyTranslation})
      && HasTexts(e, KeyTargets, targets) && IsOptionalVector(e, KeyTranslation, translation)
    case Delete(_, targets) => Says(e, "delete", {KeyTargets}) && HasTexts(e, KeyTargets, targets)
    case SetAttributes(_, targets, name, layer, color, material) =>
      && Says(e, "set_attributes", {KeyTargets, KeyName, KeyLayer, KeyColor, KeyMaterialIndex})
      && HasTexts(e, KeyTargets, targets) && IsOptionalText(e, KeyName, name) && IsOptionalText(e, KeyLayer, layer)
      && IsOptionalColor(e, color) && IsOptionalInt(e, KeyMaterialIndex, material)
    case ExtrudeCurve(_, targets, vector, cap) =>
      && Says(e, "extrude_curve", {KeyTargets, KeyVector, KeyCap})
      && HasTexts(e, KeyTargets, targets) && HasVector(e, KeyVector, vector) && IsFlag(e, KeyCap, true, cap)
    case OffsetCurve(_, targets, distance, normal) =>
      && Says(e, "offset_curve", {KeyTargets, KeyDistance, KeyNormal})
      && HasTexts(e, KeyTargets, targets) && HasNumber(e, KeyDistance, distance)
      && if KeyNormal in e then IsVector(e[KeyNormal], normal) else normal == Vec3(0.0, 0.0, 1.0)
    case BooleanUnion(_, targets, deleteInput) =>
      && Says(e, "boolean_union", {KeyTargets, KeyDeleteInput})
      && HasTexts(e, KeyTargets, targets) && IsFlag(e, KeyDeleteInput, true, deleteInput)
    case BooleanDifference(_, targets, cutters, deleteInput) =>
      && Says(e, "boolean_difference", {KeyTargets, KeyCutters, KeyDeleteInput})
      && HasTexts(e, KeyTargets, targets) && HasTexts(e, KeyCutters, cutters) && IsFlag(e, KeyDeleteInput, true, deleteInput)
    case BooleanIntersection(_, targets, deleteInput) =>
      && Says(e, "boolean_intersection", {KeyTargets, KeyDeleteInput})
      && HasTexts(e, KeyTargets, targets) && IsFlag(e, KeyDeleteInput, true, deleteInput)
  }

  /** The number a text of decimal digits stands for. */
  function NumeralValue(text: string): int {
    if text == [] then 0 else 10 * NumeralValue(text[..|text| - 1]) + (text[|text| - 1] as int - '0' as int)
  }

  /** A plain decimal numeral: digits only and no leading zero. */
  predicate Numeral(text: string) {
    text != [] && text[0] != '0' && forall i :: 0 <= i < |text| ==> '0' <= text[i] <= '9'
  }

  /** An omitted id is `op_` and the position, counted from one. */
  predicate IsDefaultId(id: string, index: nat) {
    |id| > 3 && id[..3] == "op_" && Numeral(id[3..]) && NumeralValue(id[3..]) == index + 1
  }

  /** The raw item says the operation. */
  predicate Reads(raw: Value, index: nat, op: Op) {
    && raw.Dict? && ReadsBody(raw.entries, op)
    && if KeyId in raw.entries then raw.entries[KeyId] == Str(op.id) else IsDefaultId(op.id, index)
  }

  // ---------------------------------------------------------------- what is permitted

  predicate TextPermitted(rules: TextRules, text: string) {
    |text| <= 4096 && exists i :: 0 <= i < |text| && !rules.isSpace(text[i])
  }

  /** GUIDs, and references to operations before. */
  predicate TargetPermitted(rules: TextRules, target: string, known: set<string>) {
    && TextPermitted(rules, target)
    && if target[0] == '$' then exists name :: name in known && target == "$" + name else rules.isGuid(target)
  }

  predicate TargetsPermitted(rules: TextRules, targets: seq<string>, known: set<string>) {
    1 <= |targets| <= 256 && forall i :: 0 <= i < |targets| ==> TargetPermitted(rules, targets[i], known)
  }

  predicate IdPermitted(rules: TextRules, id: string, known: set<string>) {
    && 1 <= |id| <= 128 && id !in known
    && forall i :: 0 <= i < |id| ==> id[i] == '_' || id[i] == '-' || rules.isAlnum(id[i])
  }

  predicate ColorPermitted(color: seq<int>) {
    (|color| == 3 || |color| == 4) && forall i :: 0 <= i < |color| ==> 0 <= color[i] <= 255
  }

  /** The operation may follow operations of the known ids. */
  predicate Permitted(rules: TextRules, op: Op, known: set<string>) {
    && IdPermitted(rules, op.id, known)
    && match op
       case CreatePoint(_, _) => true
       case CreateLine(_, start, end) => start != end
       case CreatePolyline(_, points, closed) => (if closed then 3 else 2) <= |points| <= 10000
       case CreateBox(_, min, max) => min.x < max.x && min.y < max.y && min.z < max.z
       case CreateSphere(_, _, radius) => radius > 0.0
       case TransformInPlace(_, targets, motion, _) =>
         && TargetsPermitted(rules, targets, known)
         && (motion.Rotation? ==> motion.axis != Vec3(0.0, 0.0, 0.0)) && (motion.Scale? ==> motion.factor > 0.0)
       case Duplicate(_, targets, _) => TargetsPermitted(rules, targets, known)
       case Delete(_, targets) => TargetsPermitted(rules, targets, known)
       case SetAttributes(_, targets, name, layer, color, material) =>
         && TargetsPermitted(rules, targets, known) && (name.Some? || layer.Some? || color.Some? || material.Some?)
         && (name.Some? ==> TextPermitted(rules, name.value)) && (layer.Some? ==> TextPermitted(rules, layer.value))
         && (color.Some? ==> ColorPermitted(color.value)) && (material.Some? ==> material.value >= -1)
       case ExtrudeCurve(_, targets, vector, _) => TargetsPermitted(rules, targets, known) && vector != Vec3(0.0, 0.0, 0.0)
       case OffsetCurve(_, targets, distance, _) => TargetsPermitted(rules, targets, known) && distance != 0.0
       case BooleanUnion(_, targets, _) => TargetsPermitted(rules, targets, known)
       case BooleanDifference(_, targets, cutters, _) =>
         TargetsPermitted(rules, targets, known) && TargetsPermitted(rules, cutters, known)
       case BooleanIntersection(_, targets, _) => TargetsPermitted(rules, targets, known)
  }

  /** The batch says these operations, one an item, and each may follow the ones before it. */
  ghost predicate SaysBatch(rules: TextRules, batch: Value, ops: seq<Op>) {
    && batch.List? && 1 <= |batch.items| <= 256 && |ops| == |batch.items|
    && forall i :: 0 <= i < |ops| ==>
         Reads(batch.items[i], i, ops[i]) && Permitted(rules, ops[i], set j | 0 <= j < i :: ops[j].id)
  }

  // ---------------------------------------------------------------- fields are read as they are

  lemma NumberReads(v: Value, r: real)
    ensures Number(v) == Ok(r) <==> IsNumber(v, r)
  {}

  lemma VectorReads(v: Value, p: Vec3)
    ensures Vector(v) == Ok(p) <==> IsVector(v, p)
  {
    hide Number, IsNumber;
    if v.List? && |v.items| == 3 {
      NumberReads(v.items[0], p.x);
      NumberReads(v.items[1], p.y);
      NumberReads(v.items[2], p.z);
    }
  }

  lemma FieldReads(e: Fields, key: Key, p: Vec3, r: real)
    ensures Vector(Field(e, key)) == Ok(p) <==> HasVector(e, key, p)
    ensures Number(Field(e, key)) == Ok(r) <==> HasNumber(e, key, r)
    ensures Positive(Field(e, key)) == Ok(r) <==> HasNumber(e, key, r) && r > 0.0
    ensures OptionalVector(e, key) == Ok(None) <==> key !in e
    ensures OptionalVector(e, key) == Ok(Some(p)) <==> HasVector(e, key, p)
  {
    hide IsVector, IsNumber, Vector, Number;
    VectorReads(Field(e, key), p);
    NumberReads(Field(e, key), r);
    assert !IsVector(Null, p) && !IsNumber(Null, r) by { NullIsNothing(p, r); }
  }

  lemma NullIsNothing(p: Vec3, r: real)
    ensures !IsVector(Null, p) && !IsNumber(Null, r)
  {}

  lemma {:induction false} VectorsRead(items: seq<Value>, points: seq<Vec3>)
    ensures Vectors(items) == Ok(points) <==> AreVectors(items, points)
  {
    hide Vector, IsVector;
    if items != [] && |points| == |items| {
      VectorsRead(items[1..], points[1..]);
      VectorReads(items[0], points[0]);
      assert points == [points[0]] + points[1..];
      assert forall i :: 0 < i < |items| ==> items[i] == items[1..][i - 1] && points[i] == points[1..][i - 1];
      if AreVectors(items, points) { assert AreVectors(items[1..], points[1..]); }
    }
  }

  lemma TextIsBounded(rules: TextRules, text: string)
    ensures BoundedText(rules, text) <==> TextPermitted(rules, text)
  {}

  lemma TargetIsOk(rules: TextRules, target: string, known: set<string>)
    ensures TargetOk(rules, target, known) <==> TargetPermitted(rules, target, known)
  {
    if target != [] && target[0] == '$' {
      assert target == "$" + target[1..];
      forall name | target == "$" + name ensures target[1..] == name {}
    }
  }

  lemma {:induction false} TargetItemsRead(rules: TextRules, items: seq<Value>, targets: seq<string>, known: set<string>)
    ensures TargetItems(rules, items, known) == Ok(targets)
       <==> AreTexts(items, targets) && forall i :: 0 <= i < |targets| ==> TargetOk(rules, targets[i], known)
  {
    hide BoundedText;
    if items != [] && |targets| == |items| {
      TargetItemsRead(rules, items[1..], targets[1..], known);
      assert targets == [targets[0]] + targets[1..];
      assert forall i :: 0 < i < |items| ==> items[i] == items[1..][i - 1] && targets[i] == targets[1..][i - 1];
      if AreTexts(items, targets) { assert AreTexts(items[1..], targets[1..]) && items[0] == Str(targets[0]); }
      if TargetItems(rules, items, known) == Ok(targets) { assert items[0] == Str(targets[0]); }
    }
  }

  lemma TargetListReads(rules: TextRules, e: Fields, key: Key, targets: seq<string>, known: set<string>)
    ensures TargetList(rules, Field(e, key), known) == Ok(targets) <==> HasTexts(e, key, targets) && TargetsOk(rules, targets, known)
  {
    hide TargetItems, TargetOk;
    if key in e && e[key].List? { TargetItemsRead(rules, e[key].items, targets, known); }
  }

  lemma FlagReads(e: Fields, key: Key, default: bool, flag: bool)
    ensures Flag(e, key, default) == Ok(flag) <==> IsFlag(e, key, default, flag)
  {}

  lemma ColorReads(e: Fields, color: Option<seq<int>>)
    ensures OptionalColor(e) == Ok(color) <==> IsOptionalColor(e, color) && (color.Some? ==> ColorPermitted(color.value))
  {
    if KeyColor in e && color.Some? && IsOptionalColor(e, color) && ColorPermitted(color.value) {
      assert forall i :: 0 <= i < |e[KeyColor].items| ==> e[KeyColor].items[i] == Int(color.value[i]);
      assert Color(e[KeyColor]).value == color.value;
    }
  }

  lemma OptionalReads(rules: TextRules, e: Fields, key: Key, text: Option<string>, material: Option<int>)
    ensures OptionalText(rules, e, key) == Ok(text) <==> IsOptionalText(e, key, text) && (text.Some? ==> BoundedText(rules, text.value))
    ensures OptionalMaterial(e) == Ok(material) <==> IsOptionalInt(e, KeyMaterialIndex, material) && (material.Some? ==> material.value >= -1)
  {
    hide BoundedText;
  }

  lemma RotationReads(e: Fields, motion: Motion)
    requires KeyRotation in e && KeyTranslation !in e && KeyScale !in e
    ensures ParseMotion(e) == Ok(motion) <==> IsMotion(e, motion) && MotionOk(motion)
  {
    hide Vector, Number, HasVector, HasNumber;
    if e[KeyRotation].Dict? && motion.Rotation? {
      FieldReads(e[KeyRotation].entries, KeyAxis, motion.axis, motion.degrees);
      FieldReads(e[KeyRotation].entries, KeyDegrees, motion.axis, motion.degrees);
    }
  }

  lemma MotionReads(e: Fields, motion: Motion)
    ensures ParseMotion(e) == Ok(motion) <==> IsMotion(e, motion) && MotionOk(motion)
  {
    hide Vector, Number, Positive, IsNumber, IsVector;
    if KeyRotation in e && KeyTranslation !in e && KeyScale !in e { RotationReads(e, motion); }
    if motion.Translation? { FieldReads(e, KeyTranslation, motion.offset, 0.0); }
    if motion.Scale? { FieldReads(e, KeyScale, ORIGIN, motion.factor); }
  }

  // ---------------------------------------------------------------- operations are read as they are

  /** The parsed body is that operation. */
  predicate Means(rules: TextRules, e: Fields, op: Op, id: string, known: set<string>) {
    ReadsBody(e, op) && BodyOk(rules, op, id, known)
  }

  lemma KindIsSaid(e: Fields, op: Op)
    requires ReadsBody(e, op)
    ensures KindNamed(Field(e, KeyOp)) == Some(KindOf(op))
  {
    hide ReadsBody, KindNamed, KindName, KindOf;
    NameIsSaid(e, op);
    KindRoundTrip(KindOf(op));
  }

  lemma NameIsSaid(e: Fields, op: Op)
    requires ReadsBody(e, op)
    ensures Field(e, KeyOp) == Str(KindName(KindOf(op)))
  {
    hide HasVector, HasNumber, HasTexts, IsFlag, IsMotion, AreVectors, IsOptionalText, IsOptionalVector, IsOptionalColor, IsOptionalInt,
         KindNamed, IsVector;
  }

  lemma NamedKind(e: Fields, kind: Kind)
    requires KindNamed(Field(e, KeyOp)) == Some(kind)
    ensures KeyOp in e && e[KeyOp] == Str(KindName(kind))
  {}

  lemma FieldsAreOnly(e: Fields, name: string, fields: set<Key>)
    requires KeyOp in e && e[KeyOp] == Str(name)
    ensures OnlyKeys(e, fields) <==> Says(e, name, fields)
  {}

  lemma CreationReads(rules: TextRules, kind: Kind, e: Fields, id: string, known: set<string>, op: Op)
    requires kind in {CreatePointKind, CreateLineKind, CreatePolylineKind} && KeyOp in e && e[KeyOp] == Str(KindName(kind))
    requires KindOf(op) == kind
    ensures ParseBody(rules, kind, e, id, known) == Ok(op) <==> Means(rules, e, op, id, known)
  {
    hide Says, OnlyKeys, HasVector, Vector, Vectors, AreVectors, Flag, IsFlag;
    match op
    case CreatePoint(_, point) =>
      FieldsAreOnly(e, "create_point", {KeyPoint});
      FieldReads(e, KeyPoint, point, 0.0);
    case CreateLine(_, start, end) =>
      FieldsAreOnly(e, "create_line", {KeyStart, KeyEnd});
      FieldReads(e, KeyStart, start, 0.0);
      FieldReads(e, KeyEnd, end, 0.0);
    case CreatePolyline(_, points, closed) =>
      FieldsAreOnly(e, "create_polyline", {KeyPoints, KeyClosed});
      FlagReads(e, KeyClosed, false, closed);
      if OnlyKeys(e, {KeyPoints, KeyClosed}) { PolylineReads(rules, e, id, known, op); }
  }

  lemma PolylineReads(rules: TextRules, e: Fields, id: string, known: set<string>, op: Op)
    requires op.CreatePolyline? && OnlyKeys(e, {KeyPoints, KeyClosed})
    ensures ParsePolyline(e, id) == Ok(op)
       <==> BodyOk(rules, op, id, known) && IsFlag(e, KeyClosed, false, op.closed)
            && KeyPoints in e && e[KeyPoints].List? && AreVectors(e[KeyPoints].items, op.points)
  {
    hide Vectors, AreVectors, Flag, IsFlag, OnlyKeys;
    FlagReads(e, KeyClosed, false, op.closed);
    if KeyPoints in e && e[KeyPoints].List? {
      VectorsRead(e[KeyPoints].items, op.points);
      if AreVectors(e[KeyPoints].items, op.points) { SameCount(e[KeyPoints].items, op.points); }
    }
  }

  lemma SameCount(items: seq<Value>, points: seq<Vec3>)
    requires AreVectors(items, points)
    ensures |items| == |points|
  {}

  lemma SolidReads(rules: TextRules, kind: Kind, e: Fields, id: string, known: set<string>, op: Op)
    requires kind in {CreateBoxKind, CreateSphereKind} && KeyOp in e && e[KeyOp] == Str(KindName(kind)) && KindOf(op) == kind
    ensures ParseBody(rules, kind, e, id, known) == Ok(op) <==> Means(rules, e, op, id, known)
  {
    hide Says, OnlyKeys, HasVector, Vector, Positive, HasNumber;
    match op
    case CreateBox(_, min, max) =>
      FieldsAreOnly(e, "create_box", {KeyMin, KeyMax});
      FieldReads(e, KeyMin, min, 0.0);
      FieldReads(e, KeyMax, max, 0.0);
    case CreateSphere(_, center, radius) =>
      FieldsAreOnly(e, "create_sphere", {KeyCenter, KeyRadius});
      FieldReads(e, KeyCenter, center, 0.0);
      FieldReads(e, KeyRadius, ORIGIN, radius);
  }

  lemma TransformReads(rules: TextRules, e: Fields, id: string, known: set<string>, op: Op)
    requires KeyOp in e && e[KeyOp] == Str("transform_in_place") && op.TransformInPlace?
    ensures ParseTransform(rules, e, id, known) == Ok(op) <==> Means(rules, e, op, id, known)
  {
    hide Says, OnlyKeys, HasTexts, TargetList, TargetsOk, ParseMotion, IsMotion, OptionalVector, HasVector, IsVector;
    FieldsAreOnly(e, "transform_in_place", {KeyTargets, KeyTranslation, KeyRotation, KeyScale, KeyCenter});
    TargetListReads(rules, e, KeyTargets, op.targets, known);
    MotionReads(e, op.motion);
    OptionalVectorReads(e, KeyCenter, op.pivot);
  }

  lemma OptionalVectorReads(e: Fields, key: Key, p: Option<Vec3>)
    ensures OptionalVector(e, key) == Ok(p) <==> IsOptionalVector(e, key, p)
  {
    hide Vector, IsVector;
    if key in e && p.Some? { VectorReads(e[key], p.value); }
  }

  lemma CopyReads(rules: TextRules, kind: Kind, e: Fields, id: string, known: set<string>, op: Op)
    requires kind in {DuplicateKind, DeleteKind} && KeyOp in e && e[KeyOp] == Str(KindName(kind)) && KindOf(op) == kind
    ensures ParseBody(rules, kind, e, id, known) == Ok(op) <==> Means(rules, e, op, id, known)
  {
    hide HasTexts, TargetList, TargetsOk, OptionalVector, IsVector;
    TargetListReads(rules, e, KeyTargets, op.targets, known);
    if op.Duplicate? { OptionalVectorReads(e, KeyTranslation, op.translation); }
  }

  lemma AttributesRead(rules: TextRules, e: Fields, id: string, known: set<string>, op: Op)
    requires KeyOp in e && e[KeyOp] == Str("set_attributes") && op.SetAttributes?
    ensures ParseAttributes(rules, e, id, known) == Ok(op) <==> Means(rules, e, op, id, known)
  {
    hide Says, OnlyKeys, HasTexts, TargetList, TargetsOk, OptionalText, IsOptionalText, OptionalColor, IsOptionalColor, OptionalMaterial,
         IsOptionalInt, BoundedText;
    FieldsAreOnly(e, "set_attributes", {KeyTargets, KeyName, KeyLayer, KeyColor, KeyMaterialIndex});
    TargetListReads(rules, e, KeyTargets, op.targets, known);
    OptionalReads(rules, e, KeyName, op.name, op.material);
    OptionalReads(rules, e, KeyLayer, op.layer, op.material);
    ColorReads(e, op.color);
  }

  lemma CurveReads(rules: TextRules, kind: Kind, e: Fields, id: string, known: set<string>, op: Op)
    requires kind in {ExtrudeCurveKind, OffsetCurveKind} && KeyOp in e && e[KeyOp] == Str(KindName(kind)) && KindOf(op) == kind
    ensures ParseBody(rules, kind, e, id, known) == Ok(op) <==> Means(rules, e, op, id, known)
  {
    hide Says, OnlyKeys, HasTexts, TargetList, TargetsOk, HasVector, Vector, IsVector, Number, HasNumber, Flag, IsFlag;
    TargetListReads(rules, e, KeyTargets, op.targets, known);
    match op
    case ExtrudeCurve(_, targets, vector, cap) =>
      FieldsAreOnly(e, "extrude_curve", {KeyTargets, KeyVector, KeyCap});
      FieldReads(e, KeyVector, vector, 0.0);
      FlagReads(e, KeyCap, true, cap);
    case OffsetCurve(_, targets, distance, normal) =>
      FieldsAreOnly(e, "offset_curve", {KeyTargets, KeyDistance, KeyNormal});
      FieldReads(e, KeyDistance, ORIGIN, distance);
      if KeyNormal in e { VectorReads(e[KeyNormal], normal); }
  }

  lemma BooleanReads(rules: TextRules, kind: Kind, e: Fields, id: string, known: set<string>, op: Op)
    requires kind in {BooleanUnionKind, BooleanDifferenceKind, BooleanIntersectionKind}
    requires KeyOp in e && e[KeyOp] == Str(KindName(kind)) && KindOf(op) == kind
    ensures ParseBody(rules, kind, e, id, known) == Ok(op) <==> Means(rules, e, op, id, known)
  {
    hide HasTexts, TargetList, TargetsOk, Flag, IsFlag;
    TargetListReads(rules, e, KeyTargets, op.targets, known);
    FlagReads(e, KeyDeleteInput, true, op.deleteInput);
    if op.BooleanDifference? { TargetListReads(rules, e, KeyCutters, op.cutters, known); }
  }

  lemma BodyReads(rules: TextRules, kind: Kind, e: Fields, id: string, known: set<string>, op: Op)
    requires KeyOp in e && e[KeyOp] == Str(KindName(kind)) && KindOf(op) == kind
    ensures ParseBody(rules, kind, e, id, known) == Ok(op) <==> Means(rules, e, op, id, known)
  {
    hide Means, ParsePoint, ParseLine, ParsePolyline, ParseBox, ParseSphere, ParseDuplicate, ParseDelete, ParseExtrude, ParseOffset,
         ParseCombine, ParseDifference, ParseTransform, ParseAttributes;
    match kind
    case CreatePointKind => CreationReads(rules, kind, e, id, known, op);
    case CreateLineKind => CreationReads(rules, kind, e, id, known, op);
    case CreatePolylineKind => CreationReads(rules, kind, e, id, known, op);
    case CreateBoxKind => SolidReads(rules, kind, e, id, known, op);
    case CreateSphereKind => SolidReads(rules, kind, e, id, known, op);
    case TransformInPlaceKind => TransformReads(rules, e, id, known, op);
    case DuplicateKind => CopyReads(rules, kind, e, id, known, op);
    case DeleteKind => CopyReads(rules, kind, e, id, known, op);
    case SetAttributesKind => AttributesRead(rules, e, id, known, op);
    case ExtrudeCurveKind => CurveReads(rules, kind, e, id, known, op);
    case OffsetCurveKind => CurveReads(rules, kind, e, id, known, op);
    case BooleanUnionKind => BooleanReads(rules, kind, e, id, known, op);
    case BooleanDifferenceKind => BooleanReads(rules, kind, e, id, known, op);
    case BooleanIntersectionKind => BooleanReads(rules, kind, e, id, known, op);
  }

  lemma BodyKind(rules: TextRules, kind: Kind, e: Fields, id: string, known: set<string>)
    ensures ParseBody(rules, kind, e, id, known).Ok? ==> KindOf(ParseBody(rules, kind, e, id, known).value) == kind
  {
    hide TargetList, Vector, Vectors, Number, Positive, Flag, OnlyKeys, ParseMotion, OptionalVector, OptionalText, OptionalColor, OptionalMaterial;
  }

  // ---------------------------------------------------------------- default ids

  lemma {:induction false} DecimalIsNumeral(n: nat)
    ensures NumeralValue(Decimal(n)) == n && (n > 0 ==> Numeral(Decimal(n)))
  {
    var digit := ('0' as int + n % 10) as char;
    if n < 10 {
      assert Decimal(n) == [digit] && [digit][..0] == [];
      assert NumeralValue([]) == 0;
    } else {
      DecimalIsNumeral(n / 10);
      assert Decimal(n) == Decimal(n / 10) + [digit];
      assert Decimal(n)[..|Decimal(n)| - 1] == Decimal(n / 10);
    }
  }

  lemma {:induction false} NumeralIsPositive(text: string)
    requires Numeral(text)
    ensures NumeralValue(text) > 0
  {
    if |text| > 1 { NumeralIsPositive(text[..|text| - 1]); } else { assert text[..0] == []; assert NumeralValue([]) == 0; }
  }

  /** A number has one plain numeral. */
  lemma {:induction false} NumeralIsDecimal(text: string, n: nat)
    requires Numeral(text) && NumeralValue(text) == n
    ensures text == Decimal(n)
    decreases |text|
  {
    var init, digit := text[..|text| - 1], text[|text| - 1] as int - '0' as int;
    assert 0 <= digit <= 9 && n == 10 * NumeralValue(init) + digit;
    if init == [] {
      assert NumeralValue([]) == 0;
      assert text == [text[0]];
    } else {
      assert Numeral(init);
      NumeralIsPositive(init);
      assert n / 10 == NumeralValue(init) && n % 10 == digit;
      NumeralIsDecimal(init, n / 10);
      assert text == init + [text[|text| - 1]];
    }
  }

  lemma DefaultId(id: string, index: nat)
    ensures IsDefaultId(id, index) <==> id == "op_" + Decimal(index + 1)
  {
    DecimalIsNumeral(index + 1);
    if IsDefaultId(id, index) {
      NumeralIsDecimal(id[3..], index + 1);
      assert id == id[..3] + id[3..];
    }
    if id == "op_" + Decimal(index + 1) { assert id[..3] == "op_" && id[3..] == Decimal(index + 1); }
  }

  // ---------------------------------------------------------------- batches

  lemma PermittedIsOk(rules: TextRules, op: Op, known: set<string>)
    ensures OpOk(rules, op, known) <==> Permitted(rules, op, known)
  {
    hide TargetOk, TargetPermitted, BoundedText, TextPermitted;
    assert forall text :: BoundedText(rules, text) <==> TextPermitted(rules, text) by {
      forall text ensures BoundedText(rules, text) <==> TextPermitted(rules, text) { TextIsBounded(rules, text); }
    }
    assert forall target :: TargetOk(rules, target, known) <==> TargetPermitted(rules, target, known) by {
      forall target ensures TargetOk(rules, target, known) <==> TargetPermitted(rules, target, known) { TargetIsOk(rules, target, known); }
    }
  }

  /** One item is accepted as the operation it says, if that is permitted, and as nothing else. */
  lemma OpReads(rules: TextRules, raw: Value, index: nat, known: set<string>, op: Op)
    ensures ParseOp(rules, raw, index, known) == Ok(op) <==> Reads(raw, index, op) && Permitted(rules, op, known)
  {
    hide KindNamed, ParseBody, ReadsBody, Permitted, OpOk, BodyOk, AliasOk, IsDefaultId, Decimal;
    PermittedIsOk(rules, op, known);
    if raw.Dict? {
      DefaultId(op.id, index);
      OpFieldsRead(rules, raw.entries, index, known, op);
    }
  }

  lemma OpFieldsRead(rules: TextRules, e: Fields, index: nat, known: set<string>, op: Op)
    ensures ParseOp(rules, Dict(e), index, known) == Ok(op)
       <==> ReadsBody(e, op) && OpOk(rules, op, known)
            && if KeyId in e then e[KeyId] == Str(op.id) else op.id == "op_" + Decimal(index + 1)
  {
    hide KindNamed, ParseBody, ReadsBody, AliasOk, Decimal, KindName, FieldsOk, TargetsOk;
    var alias := if KeyId in e then e[KeyId] else Str("op_" + Decimal(index + 1));
    var kind := KindNamed(Field(e, KeyOp));
    if ReadsBody(e, op) { KindIsSaid(e, op); }
    if kind.Some? && alias.Str? {
      NamedKind(e, kind.value);
      BodyKind(rules, kind.value, e, alias.s, known);
      if KindOf(op) == kind.value { BodyReads(rules, kind.value, e, alias.s, known, op); }
    }
  }

  lemma {:induction false} ItemsRead(rules: TextRules, raws: seq<Value>, index: nat, known: set<string>, ops: seq<Op>)
    ensures ParseFrom(rules, raws, index, known) == Ok(ops) <==> |ops| == |raws| && AllFollow(rules, raws, index, ops, known)
    decreases |raws|
  {
    hide ParseOp, Follows, AllFollow;
    if ParseFrom(rules, raws, index, known).Ok? { ParsedBatchIsOk(rules, raws, index, known); }
    if raws == [] {
      assert AllFollow(rules, raws, index, [], known) by { NothingFollows(rules, raws, index, known); }
    } else if |ops| == |raws| {
      OpReads(rules, raws[0], index, known, ops[0]);
      ItemsRead(rules, raws[1..], index + 1, known + {ops[0].id}, ops[1..]);
      FollowsCons(rules, raws, index, ops, known);
      assert ops == [ops[0]] + ops[1..];
    }
  }

  lemma NothingFollows(rules: TextRules, raws: seq<Value>, index: nat, known: set<string>)
    requires raws == []
    ensures AllFollow(rules, raws, index, [], known)
  {}

  ghost predicate AllFollow(rules: TextRules, raws: seq<Value>, index: nat, ops: seq<Op>, known: set<string>)
    requires |ops| == |raws|
  {
    forall i :: 0 <= i < |ops| ==> Follows(rules, raws[i], index + i, ops, i, known)
  }

  lemma FollowsCons(rules: TextRules, raws: seq<Value>, index: nat, ops: seq<Op>, known: set<string>)
    requires |ops| == |raws| > 0
    ensures AllFollow(rules, raws, index, ops, known)
       <==> Reads(raws[0], index, ops[0]) && Permitted(rules, ops[0], known) && AllFollow(rules, raws[1..], index + 1, ops[1..], known + {ops[0].id})
  {
    hide Reads, Permitted;
    assert known + IdsBefore(ops, 0) == known;
    forall i | 0 <= i < |ops[1..]|
      ensures Follows(rules, raws[1..][i], index + 1 + i, ops[1..], i, known + {ops[0].id})
         <==> Follows(rules, raws[i + 1], index + (i + 1), ops, i + 1, known)
    {
      IdsBeforeRest(ops, i);
      assert known + {ops[0].id} + IdsBefore(ops[1..], i) == known + IdsBefore(ops, i + 1);
    }
    if AllFollow(rules, raws, index, ops, known) { assert Follows(rules, raws[0], index + 0, ops, 0, known); }
    if AllFollow(rules, raws[1..], index + 1, ops[1..], known + {ops[0].id}) && Reads(raws[0], index, ops[0]) && Permitted(rules, ops[0], known) {
      forall i | 0 <= i < |ops| ensures Follows(rules, raws[i], index + i, ops, i, known) {
        if i > 0 { assert Follows(rules, raws[1..][i - 1], index + 1 + (i - 1), ops[1..], i - 1, known + {ops[0].id}); }
      }
    }
  }

  function IdsBefore(ops: seq<Op>, i: nat): set<string>
    requires i <= |ops|
  {
    set j | 0 <= j < i :: ops[j].id
  }

  /** The i-th item says the i-th operation, which may follow the ones before it. */
  predicate Follows(rules: TextRules, raw: Value, index: nat, ops: seq<Op>, i: nat, known: set<string>)
    requires i < |ops|
  {
    Reads(raw, index, ops[i]) && Permitted(rules, ops[i], known + IdsBefore(ops, i))
  }

  lemma IdsBeforeRest(ops: seq<Op>, i: nat)
    requires i < |ops|
    ensures IdsBefore(ops, i + 1) == {ops[0].id} + IdsBefore(ops[1..], i)
  {
    forall id | id in IdsBefore(ops, i + 1) ensures id in {ops[0].id} + IdsBefore(ops[1..], i) {
      var j :| 0 <= j < i + 1 && ops[j].id == id;
      if j > 0 { assert ops[1..][j - 1].id == id; }
    }
    forall id | id in IdsBefore(ops[1..], i) ensures id in IdsBefore(ops, i + 1) {
      var j :| 0 <= j < i && ops[1..][j].id == id;
      assert ops[j + 1].id == id;
    }
  }

  /** Normalisation accepts a batch as certain operations exactly if the batch says those operations and each is permitted
      after the ones before it. Every other batch is refused. */
  lemma NormalizeReads(rules: TextRules, batch: Value, ops: seq<Op>)
    ensures Normalize(rules, batch) == Ok(ops) <==> SaysBatch(rules, batch, ops)
  {
    hide Reads, Permitted, ParseFrom;
    if batch.List? {
      ItemsRead(rules, batch.items, 0, {}, ops);
      if |batch.items| == |ops| {
        forall i | 0 <= i < |ops|
          ensures Follows(rules, batch.items[i], 0 + i, ops, i, {})
             <==> Reads(batch.items[i], i, ops[i]) && Permitted(rules, ops[i], set j | 0 <= j < i :: ops[j].id)
        {
          assert {} + IdsBefore(ops, i) == set j | 0 <= j < i :: ops[j].id;
        }
      }
    }
  }

  // ---------------------------------------------------------------- the loop of the source

  /** The validation loop: it grows the list of normalised operations and the set of known ids. What it returns is what the
      batch says, and it refuses only batches that say nothing permitted. */
  method NormalizeOperations(rules: TextRules, batch: Value) returns (r: Result<seq<Op>>)
    ensures r == Normalize(rules, batch)
    ensures r.Ok? ==> SaysBatch(rules, batch, r.value)
    ensures r.Err? ==> forall ops :: !SaysBatch(rules, batch, ops)
  {
    hide ParseOp, IdsOf, ParseFrom, SaysBatch;
    forall ops ensures Normalize(rules, batch) == Ok(ops) <==> SaysBatch(rules, batch, ops) { NormalizeReads(rules, batch, ops); }
    assert IdsOf([]) == {} && ParseFrom(rules, [], 0, {}) == Ok([]) by { NothingParsed(rules); }
    if !batch.List? || batch.items == [] || |batch.items| > MAX_OPERATIONS {
      return Err(NotAnArray);
    }
    var normalized: seq<Op>, aliases := [], {};
    for index := 0 to |batch.items|
      invariant |normalized| == index && aliases == IdsOf(normalized)
      invariant ParseFrom(rules, batch.items[..index], 0, {}) == Ok(normalized)
    {
      var raw := batch.items[index];
      var op := ParseOp(rules, raw, index, aliases);
      assert batch.items[..index + 1] == batch.items[..index] + [raw];
      assert {} + IdsOf(normalized) == aliases;
      ParseFromSnoc(rules, batch.items[..index], raw, 0, {});
      if op.Err? {
        assert batch.items == batch.items[..index + 1] + batch.items[index + 1..];
        ParseFromFails(rules, batch.items[..index + 1], batch.items[index + 1..], 0, {});
        return Err(op.error);
      }
      IdsOfSnoc(normalized, op.value);
      normalized, aliases := normalized + [op.value], aliases + {op.value.id};
    }
    assert batch.items[..|batch.items|] == batch.items;
    assert Normalize(rules, batch) == Ok(normalized);
    r := Ok(normalized);
  }
}
