/** What normalisation guarantees: its range, idempotence, unique ids and backward references. */
module Normalization {
  import opened Wrappers
  import opened Values
  import opened Operations

  // ---------------------------------------------------------------- a rendered field parses back to itself

  lemma {:induction false} VectorsRoundTrip(points: seq<Vec3>)
    ensures Vectors(MapSeq(VecValue, points)) == Ok(points)
  {
    if points != [] {
      var items := MapSeq(VecValue, points);
      assert items[1..] == MapSeq(VecValue, points[1..]);
      VectorsRoundTrip(points[1..]);
      assert [points[0]] + points[1..] == points;
    }
  }

  lemma {:induction false} TargetItemsRoundTrip(rules: TextRules, targets: seq<string>, aliases: set<string>)
    requires forall i :: 0 <= i < |targets| ==> TargetOk(rules, targets[i], aliases)
    ensures TargetItems(rules, StrValues(targets).items, aliases) == Ok(targets)
  {
    if targets != [] {
      assert StrValues(targets).items[1..] == StrValues(targets[1..]).items;
      TargetItemsRoundTrip(rules, targets[1..], aliases);
      assert [targets[0]] + targets[1..] == targets;
    }
  }

  lemma {:induction false} TargetItemsAccepted(rules: TextRules, items: seq<Value>, aliases: set<string>)
    requires TargetItems(rules, items, aliases).Ok?
    ensures var targets := TargetItems(rules, items, aliases).value;
            forall i :: 0 <= i < |targets| ==> TargetOk(rules, targets[i], aliases)
  {
    if items != [] {
      TargetItemsAccepted(rules, items[1..], aliases);
    }
  }

  lemma TargetListAccepted(rules: TextRules, v: Value, aliases: set<string>)
    ensures var r := TargetList(rules, v, aliases); r.Ok? ==> TargetsOk(rules, r.value, aliases)
  {
    if TargetList(rules, v, aliases).Ok? {
      TargetItemsAccepted(rules, v.items, aliases);
    }
  }

  lemma TargetListRoundTrip(rules: TextRules, targets: seq<string>, aliases: set<string>)
    requires TargetsOk(rules, targets, aliases)
    ensures TargetList(rules, StrValues(targets), aliases) == Ok(targets)
  {
    TargetItemsRoundTrip(rules, targets, aliases);
  }

  lemma ColorRoundTrip(color: seq<int>)
    requires |color| in {3, 4} && forall i :: 0 <= i < |color| ==> 0 <= color[i] <= 255
    ensures Color(IntValues(color)) == Ok(color)
  {
    assert Color(IntValues(color)).value == color;
  }

  lemma VectorRoundTrip(v: Vec3)
    ensures Vector(VecValue(v)) == Ok(v)
  {}

  // ---------------------------------------------------------------- the range of the parser

  predicate MotionOk(motion: Motion) {
    (motion.Rotation? ==> motion.axis != ORIGIN) && (motion.Scale? ==> motion.factor > 0.0)
  }

  lemma MotionAccepted(e: map<Key, Value>)
    ensures var r := ParseMotion(e); r.Ok? ==> MotionOk(r.value)
  {}

  /** What a parsed body satisfies beside its kind. */
  predicate BodyOk(rules: TextRules, op: Op, id: string, aliases: set<string>) {
    && op.id == id && FieldsOk(rules, op)
    && (!IsCreate(op) ==> TargetsOk(rules, op.targets, aliases))
    && (op.BooleanDifference? ==> TargetsOk(rules, op.cutters, aliases))
  }

  lemma ParsedCreateIsOk(rules: TextRules, e: map<Key, Value>, id: string, aliases: set<string>)
    ensures ParsePoint(e, id).Ok? ==> BodyOk(rules, ParsePoint(e, id).value, id, aliases)
    ensures ParseLine(e, id).Ok? ==> BodyOk(rules, ParseLine(e, id).value, id, aliases)
    ensures ParseBox(e, id).Ok? ==> BodyOk(rules, ParseBox(e, id).value, id, aliases)
    ensures ParseSphere(e, id).Ok? ==> BodyOk(rules, ParseSphere(e, id).value, id, aliases)
  {
    hide TargetsOk, Vector, OnlyKeys;
  }

  lemma ParsedPolylineIsOk(rules: TextRules, e: map<Key, Value>, id: string, aliases: set<string>)
    ensures ParsePolyline(e, id).Ok? ==> BodyOk(rules, ParsePolyline(e, id).value, id, aliases)
  {
    hide TargetsOk, OnlyKeys;
  }

  lemma ParsedTargetsAreOk(rules: TextRules, e: map<Key, Value>, id: string, aliases: set<string>)
    ensures ParseTransform(rules, e, id, aliases).Ok? ==> BodyOk(rules, ParseTransform(rules, e, id, aliases).value, id, aliases)
    ensures ParseDuplicate(rules, e, id, aliases).Ok? ==> BodyOk(rules, ParseDuplicate(rules, e, id, aliases).value, id, aliases)
    ensures ParseDelete(rules, e, id, aliases).Ok? ==> BodyOk(rules, ParseDelete(rules, e, id, aliases).value, id, aliases)
    ensures ParseExtrude(rules, e, id, aliases).Ok? ==> BodyOk(rules, ParseExtrude(rules, e, id, aliases).value, id, aliases)
    ensures ParseOffset(rules, e, id, aliases).Ok? ==> BodyOk(rules, ParseOffset(rules, e, id, aliases).value, id, aliases)
  {
    hide TargetList, TargetsOk, ParseMotion, Vector, OptionalVector, OnlyKeys, Flag;
    TargetListAccepted(rules, Field(e, KeyTargets), aliases);
    MotionAccepted(e);
  }

  lemma ParsedAttributesAreOk(rules: TextRules, e: map<Key, Value>, id: string, aliases: set<string>)
    ensures ParseAttributes(rules, e, id, aliases).Ok? ==> BodyOk(rules, ParseAttributes(rules, e, id, aliases).value, id, aliases)
  {
    hide TargetList, TargetsOk, OnlyKeys, BoundedText;
    TargetListAccepted(rules, Field(e, KeyTargets), aliases);
  }

  lemma ParsedBooleansAreOk(rules: TextRules, union: bool, e: map<Key, Value>, id: string, aliases: set<string>)
    ensures ParseDifference(rules, e, id, aliases).Ok? ==> BodyOk(rules, ParseDifference(rules, e, id, aliases).value, id, aliases)
    ensures ParseCombine(rules, union, e, id, aliases).Ok? ==> BodyOk(rules, ParseCombine(rules, union, e, id, aliases).value, id, aliases)
  {
    hide TargetList, TargetsOk, OnlyKeys, Flag;
    TargetListAccepted(rules, Field(e, KeyTargets), aliases);
    TargetListAccepted(rules, Field(e, KeyCutters), aliases);
  }

  lemma ParsedBodyIsOk(rules: TextRules, kind: Kind, e: map<Key, Value>, id: string, aliases: set<string>)
    requires ParseBody(rules, kind, e, id, aliases).Ok?
    ensures BodyOk(rules, ParseBody(rules, kind, e, id, aliases).value, id, aliases)
  {
    hide BodyOk, ParsePoint, ParseLine, ParsePolyline, ParseBox, ParseSphere, ParseTransform, ParseDuplicate, ParseDelete,
         ParseAttributes, ParseExtrude, ParseOffset, ParseCombine, ParseDifference;
    ParsedCreateIsOk(rules, e, id, aliases);
    ParsedPolylineIsOk(rules, e, id, aliases);
    ParsedTargetsAreOk(rules, e, id, aliases);
    ParsedAttributesAreOk(rules, e, id, aliases);
    ParsedBooleansAreOk(rules, kind.BooleanUnionKind?, e, id, aliases);
  }

  lemma ParsedIsOk(rules: TextRules, raw: Value, index: nat, aliases: set<string>)
    requires ParseOp(rules, raw, index, aliases).Ok?
    ensures OpOk(rules, ParseOp(rules, raw, index, aliases).value, aliases)
  {
    hide ParseBody, KindNamed, AliasOk, FieldsOk, TargetsOk;
    var alias := if KeyId in raw.entries then raw.entries[KeyId] else Str("op_" + Decimal(index + 1));
    ParsedBodyIsOk(rules, KindNamed(Field(raw.entries, KeyOp)).value, raw.entries, alias.s, aliases);
  }

  // ---------------------------------------------------------------- the canonical form parses to itself

  lemma KindRoundTrip(kind: Kind)
    ensures KindNamed(Str(KindName(kind))) == Some(kind)
  {}

  /** `e` holds the fields of `body` and nothing else beside the two header fields. */
  ghost predicate Carries(e: map<Key, Value>, body: map<Key, Value>) {
    e.Keys == body.Keys + {KeyOp, KeyId} && forall k :: k in body ==> k in e && e[k] == body[k]
  }

  lemma PointLineRoundTrip(op: Op, e: map<Key, Value>)
    requires (op.CreatePoint? || (op.CreateLine? && op.start != op.end)) && Carries(e, BodyEntries(op))
    ensures op.CreatePoint? ==> ParsePoint(e, op.id) == Ok(op)
    ensures op.CreateLine? ==> ParseLine(e, op.id) == Ok(op)
  {}

  lemma PolylineRoundTrip(rules: TextRules, op: Op, e: map<Key, Value>)
    requires op.CreatePolyline? && FieldsOk(rules, op) && Carries(e, BodyEntries(op))
    ensures ParsePolyline(e, op.id) == Ok(op)
  {
    hide Vectors;
    VectorsRoundTrip(op.points);
    assert e[KeyPoints] == VecValues(op.points);
    assert Flag(e, KeyClosed, false) == Ok(op.closed);
  }

  lemma SolidRoundTrip(rules: TextRules, op: Op, e: map<Key, Value>)
    requires (op.CreateBox? || op.CreateSphere?) && FieldsOk(rules, op) && Carries(e, BodyEntries(op))
    ensures op.CreateBox? ==> ParseBox(e, op.id) == Ok(op)
    ensures op.CreateSphere? ==> ParseSphere(e, op.id) == Ok(op)
  {}

  lemma MotionRoundTrip(motion: Motion, e: map<Key, Value>)
    requires MotionOk(motion)
    requires forall k :: k in {KeyTranslation, KeyRotation, KeyScale} ==> (k in e <==> k in MotionEntries(motion))
    requires forall k :: k in MotionEntries(motion) ==> e[k] == MotionEntries(motion)[k]
    ensures ParseMotion(e) == Ok(motion)
  {
    match motion
    case Translation(_) =>
      assert KeyTranslation in e && KeyRotation !in e && KeyScale !in e;
    case Rotation(axis, degrees) =>
      assert KeyTranslation !in e && KeyRotation in e && KeyScale !in e;
      assert e[KeyRotation].entries.Keys == {KeyAxis, KeyDegrees};
    case Scale(_) =>
      assert KeyTranslation !in e && KeyRotation !in e && KeyScale in e;
  }

  /** The entries of an in-place transform: its targets, its one motion and perhaps a centre. */
  lemma TransformEntries(op: Op, e: map<Key, Value>)
    requires op.TransformInPlace? && Carries(e, BodyEntries(op))
    ensures OnlyKeys(e, {KeyTargets, KeyTranslation, KeyRotation, KeyScale, KeyCenter})
    ensures Field(e, KeyTargets) == StrValues(op.targets)
    ensures forall k :: k in {KeyTranslation, KeyRotation, KeyScale} ==> (k in e <==> k in MotionEntries(op.motion))
    ensures forall k :: k in MotionEntries(op.motion) ==> e[k] == MotionEntries(op.motion)[k]
    ensures KeyCenter in e <==> op.pivot.Some?
    ensures op.pivot.Some? ==> e[KeyCenter] == VecValue(op.pivot.value)
  {
    hide StrValues, VecValue;
    assert BodyEntries(op) == TargetEntries(op.targets) + MotionEntries(op.motion) + Optional(KeyCenter, MapOption(VecValue, op.pivot));
  }

  lemma TransformRoundTrip(rules: TextRules, op: Op, aliases: set<string>, e: map<Key, Value>)
    requires op.TransformInPlace? && FieldsOk(rules, op) && TargetsOk(rules, op.targets, aliases)
    requires Carries(e, BodyEntries(op))
    ensures ParseTransform(rules, e, op.id, aliases) == Ok(op)
  {
    hide TargetList, ParseMotion, TargetsOk, BodyEntries, Carries, OnlyKeys, Field;
    TransformEntries(op, e);
    TargetListRoundTrip(rules, op.targets, aliases);
    MotionRoundTrip(op.motion, e);
    if op.pivot.Some? { VectorRoundTrip(op.pivot.value); }
    assert OptionalVector(e, KeyCenter) == Ok(op.pivot);
  }

  /** An attribute change shows exactly its given attributes beside its targets. */
  lemma AttributeEntry(op: Op, e: map<Key, Value>, k: Key)
    requires op.SetAttributes? && Carries(e, BodyEntries(op)) && k in ATTRIBUTE_KEYS
    ensures k in e <==> AttributeValue(op, k).Some?
    ensures k in e ==> e[k] == AttributeValue(op, k).value
  {
    hide StrValues, IntValues;
    var body := BodyEntries(op);
    assert k in body <==> AttributeValue(op, k).Some?;
  }

  lemma AttributeKeys(op: Op, e: map<Key, Value>)
    requires op.SetAttributes? && Carries(e, BodyEntries(op))
    ensures OnlyKeys(e, ATTRIBUTE_KEYS)
  {
    hide StrValues, IntValues;
  }

  lemma AttributeTextRoundTrip(rules: TextRules, op: Op, e: map<Key, Value>)
    requires op.SetAttributes? && FieldsOk(rules, op) && Carries(e, BodyEntries(op))
    ensures Field(e, KeyTargets) == StrValues(op.targets)
    ensures OptionalText(rules, e, KeyName) == Ok(op.name)
    ensures OptionalText(rules, e, KeyLayer) == Ok(op.layer)
  {
    hide BoundedText, StrValues, IntValues, BodyEntries, Carries;
    AttributeEntry(op, e, KeyTargets);
    AttributeEntry(op, e, KeyName);
    AttributeEntry(op, e, KeyLayer);
  }

  lemma AttributeNumbersRoundTrip(rules: TextRules, op: Op, e: map<Key, Value>)
    requires op.SetAttributes? && FieldsOk(rules, op) && Carries(e, BodyEntries(op))
    ensures OptionalColor(e) == Ok(op.color)
    ensures OptionalMaterial(e) == Ok(op.material)
  {
    hide Color, BoundedText, IntValues, StrValues, BodyEntries, Carries;
    AttributeEntry(op, e, KeyColor);
    AttributeEntry(op, e, KeyMaterialIndex);
    if op.color.Some? { ColorRoundTrip(op.color.value); }
  }

  lemma AttributesRoundTrip(rules: TextRules, op: Op, aliases: set<string>, e: map<Key, Value>)
    requires op.SetAttributes? && FieldsOk(rules, op) && TargetsOk(rules, op.targets, aliases)
    requires Carries(e, BodyEntries(op))
    ensures ParseAttributes(rules, e, op.id, aliases) == Ok(op)
  {
    hide TargetList, OptionalText, OptionalColor, OptionalMaterial, TargetsOk, BoundedText, BodyEntries, Carries, OnlyKeys, Field;
    TargetListRoundTrip(rules, op.targets, aliases);
    AttributeTextRoundTrip(rules, op, e);
    AttributeNumbersRoundTrip(rules, op, e);
    AttributeKeys(op, e);
    assert ATTRIBUTE_KEYS == {KeyTargets, KeyName, KeyLayer, KeyColor, KeyMaterialIndex};
  }

  lemma CopyRoundTrip(rules: TextRules, op: Op, aliases: set<string>, e: map<Key, Value>)
    requires (op.Duplicate? || op.Delete?) && TargetsOk(rules, op.targets, aliases) && Carries(e, BodyEntries(op))
    ensures op.Duplicate? ==> ParseDuplicate(rules, e, op.id, aliases) == Ok(op)
    ensures op.Delete? ==> ParseDelete(rules, e, op.id, aliases) == Ok(op)
  {
    hide TargetList, TargetsOk;
    TargetListRoundTrip(rules, op.targets, aliases);
    assert Field(e, KeyTargets) == StrValues(op.targets);
  }

  lemma ExtrudeRoundTrip(rules: TextRules, op: Op, aliases: set<string>, e: map<Key, Value>)
    requires op.ExtrudeCurve? && FieldsOk(rules, op) && TargetsOk(rules, op.targets, aliases) && Carries(e, BodyEntries(op))
    ensures ParseExtrude(rules, e, op.id, aliases) == Ok(op)
  {
    hide TargetList, TargetsOk, StrValues, VecValue, Vector;
    TargetListRoundTrip(rules, op.targets, aliases);
    VectorRoundTrip(op.vector);
    assert Field(e, KeyTargets) == StrValues(op.targets);
    assert Field(e, KeyVector) == VecValue(op.vector) && Flag(e, KeyCap, true) == Ok(op.cap);
  }

  lemma OffsetRoundTrip(rules: TextRules, op: Op, aliases: set<string>, e: map<Key, Value>)
    requires op.OffsetCurve? && FieldsOk(rules, op) && TargetsOk(rules, op.targets, aliases) && Carries(e, BodyEntries(op))
    ensures ParseOffset(rules, e, op.id, aliases) == Ok(op)
  {
    hide TargetList, TargetsOk, StrValues, VecValue, Vector;
    TargetListRoundTrip(rules, op.targets, aliases);
    VectorRoundTrip(op.normal);
    assert Field(e, KeyTargets) == StrValues(op.targets);
    assert KeyNormal in e && e[KeyNormal] == VecValue(op.normal) && Field(e, KeyDistance) == Num(op.distance);
  }

  lemma BooleanRoundTrip(rules: TextRules, op: Op, aliases: set<string>, e: map<Key, Value>)
    requires op.BooleanUnion? || op.BooleanDifference? || op.BooleanIntersection?
    requires TargetsOk(rules, op.targets, aliases)
    requires op.BooleanDifference? ==> TargetsOk(rules, op.cutters, aliases)
    requires Carries(e, BodyEntries(op))
    ensures op.BooleanDifference? ==> ParseDifference(rules, e, op.id, aliases) == Ok(op)
    ensures !op.BooleanDifference? ==> ParseCombine(rules, op.BooleanUnion?, e, op.id, aliases) == Ok(op)
  {
    hide TargetList, TargetsOk;
    TargetListRoundTrip(rules, op.targets, aliases);
    assert Field(e, KeyTargets) == StrValues(op.targets);
    if op.BooleanDifference? {
      TargetListRoundTrip(rules, op.cutters, aliases);
    }
  }

  lemma BodyRoundTrip(rules: TextRules, op: Op, aliases: set<string>, e: map<Key, Value>)
    requires OpOk(rules, op, aliases) && Carries(e, BodyEntries(op))
    ensures ParseBody(rules, KindOf(op), e, op.id, aliases) == Ok(op)
  {
    hide Carries, BodyEntries, TargetsOk, ParsePoint, ParseLine, ParsePolyline, ParseBox, ParseSphere, ParseTransform,
         ParseDuplicate, ParseDelete, ParseAttributes, ParseExtrude, ParseOffset, ParseCombine, ParseDifference;
    match op {
      case CreatePoint(_, _) => PointLineRoundTrip(op, e);
      case CreateLine(_, _, _) => PointLineRoundTrip(op, e);
      case CreatePolyline(_, _, _) => PolylineRoundTrip(rules, op, e);
      case CreateBox(_, _, _) => SolidRoundTrip(rules, op, e);
      case CreateSphere(_, _, _) => SolidRoundTrip(rules, op, e);
      case TransformInPlace(_, _, _, _) => TransformRoundTrip(rules, op, aliases, e);
      case SetAttributes(_, _, _, _, _, _) => AttributesRoundTrip(rules, op, aliases, e);
      case Duplicate(_, _, _) => CopyRoundTrip(rules, op, aliases, e);
      case Delete(_, _) => CopyRoundTrip(rules, op, aliases, e);
      case ExtrudeCurve(_, _, _, _) => ExtrudeRoundTrip(rules, op, aliases, e);
      case OffsetCurve(_, _, _, _) => OffsetRoundTrip(rules, op, aliases, e);
      case BooleanUnion(_, _, _) => BooleanRoundTrip(rules, op, aliases, e);
      case BooleanDifference(_, _, _, _) => BooleanRoundTrip(rules, op, aliases, e);
      case BooleanIntersection(_, _, _) => BooleanRoundTrip(rules, op, aliases, e);
    }
  }

  lemma MotionHasNoHeader(motion: Motion, pivot: Option<Vec3>)
    ensures var e := MotionEntries(motion) + Optional(KeyCenter, MapOption(VecValue, pivot)); KeyOp !in e && KeyId !in e
  {
    hide VecValue;
  }

  lemma HeaderNotInBody(op: Op)
    ensures KeyOp !in BodyEntries(op) && KeyId !in BodyEntries(op)
  {
    hide VecValue, VecValues, StrValues, MotionEntries, AttributeValue;
    if op.TransformInPlace? { MotionHasNoHeader(op.motion, op.pivot); }
  }

  lemma RenderedFields(op: Op)
    ensures var e := Render(op).entries;
            && KeyOp in e && e[KeyOp] == Str(KindName(KindOf(op)))
            && KeyId in e && e[KeyId] == Str(op.id)
            && Carries(e, BodyEntries(op))
  {
    HeaderNotInBody(op);
  }

  lemma RenderedParses(rules: TextRules, op: Op, index: nat, aliases: set<string>)
    requires OpOk(rules, op, aliases)
    ensures ParseOp(rules, Render(op), index, aliases) == Ok(op)
  {
    RenderedFields(op);
    KindRoundTrip(KindOf(op));
    BodyRoundTrip(rules, op, aliases, Render(op).entries);
  }

  // ---------------------------------------------------------------- batches

  /** Every operation is acceptable after the ids of `aliases` and of the operations before it. */
  ghost predicate BatchOkAfter(rules: TextRules, ops: seq<Op>, aliases: set<string>) {
    forall i :: 0 <= i < |ops| ==> OpOk(rules, ops[i], aliases + IdsOf(ops[..i]))
  }

  lemma BatchOkCons(rules: TextRules, op: Op, rest: seq<Op>, aliases: set<string>)
    ensures BatchOkAfter(rules, [op] + rest, aliases)
            <==> OpOk(rules, op, aliases) && BatchOkAfter(rules, rest, aliases + {op.id})
  {
    var ops := [op] + rest;
    assert aliases + IdsOf(ops[..0]) == aliases;
    forall i | 0 <= i < |rest|
      ensures aliases + IdsOf(ops[..i + 1]) == aliases + {op.id} + IdsOf(rest[..i])
    {
      assert ops[..i + 1] == [op] + rest[..i];
      IdsOfCons(op, rest[..i]);
    }
    assert forall i :: 0 <= i < |rest| ==> ops[i + 1] == rest[i];
    if OpOk(rules, op, aliases) && BatchOkAfter(rules, rest, aliases + {op.id}) {
      forall i | 0 <= i < |ops| ensures OpOk(rules, ops[i], aliases + IdsOf(ops[..i])) {
        if i > 0 { assert ops[i] == rest[i - 1] && ops[..(i - 1) + 1] == ops[..i]; }
      }
    }
    if BatchOkAfter(rules, ops, aliases) {
      forall i | 0 <= i < |rest| ensures OpOk(rules, rest[i], aliases + {op.id} + IdsOf(rest[..i])) {
        assert OpOk(rules, ops[i + 1], aliases + IdsOf(ops[..i + 1]));
      }
      assert OpOk(rules, ops[0], aliases + IdsOf(ops[..0]));
    }
  }

  lemma IdsOfCons(op: Op, rest: seq<Op>)
    ensures IdsOf([op] + rest) == {op.id} + IdsOf(rest)
  {
    var ops := [op] + rest;
    assert ops[0] == op;
    forall i | 0 <= i < |rest| ensures rest[i].id in IdsOf(ops) {
      assert ops[i + 1] == rest[i];
    }
  }

  lemma {:induction false} ParsedBatchIsOk(rules: TextRules, raws: seq<Value>, index: nat, aliases: set<string>)
    requires ParseFrom(rules, raws, index, aliases).Ok?
    ensures var ops := ParseFrom(rules, raws, index, aliases).value;
            |ops| == |raws| && BatchOkAfter(rules, ops, aliases)
  {
    hide ParseOp;
    if raws != [] {
      ParsedIsOk(rules, raws[0], index, aliases);
      var op := ParseOp(rules, raws[0], index, aliases).value;
      ParsedBatchIsOk(rules, raws[1..], index + 1, aliases + {op.id});
      BatchOkCons(rules, op, ParseFrom(rules, raws[1..], index + 1, aliases + {op.id}).value, aliases);
    }
  }

  lemma {:induction false} RenderedBatchParses(rules: TextRules, ops: seq<Op>, index: nat, aliases: set<string>)
    requires BatchOkAfter(rules, ops, aliases)
    ensures ParseFrom(rules, MapSeq(Render, ops), index, aliases) == Ok(ops)
  {
    hide ParseOp;
    if ops != [] {
      assert ops == [ops[0]] + ops[1..];
      BatchOkCons(rules, ops[0], ops[1..], aliases);
      RenderedParses(rules, ops[0], index, aliases);
      assert MapSeq(Render, ops)[1..] == MapSeq(Render, ops[1..]);
      RenderedBatchParses(rules, ops[1..], index + 1, aliases + {ops[0].id});
    }
  }

  lemma BatchOkIsAfterNothing(rules: TextRules, ops: seq<Op>)
    ensures BatchOk(rules, ops) <==> 0 < |ops| <= MAX_OPERATIONS && BatchOkAfter(rules, ops, {})
  {
    assert forall i :: 0 <= i < |ops| ==> {} + IdsOf(ops[..i]) == IdsOf(ops[..i]);
  }

  /** The outputs of normalisation are exactly the batches that satisfy `BatchOk`. */
  lemma NormalizeRange(rules: TextRules, ops: seq<Op>)
    ensures (exists batch :: Normalize(rules, batch) == Ok(ops)) <==> BatchOk(rules, ops)
  {
    BatchOkIsAfterNothing(rules, ops);
    if BatchOk(rules, ops) {
      RenderedBatchParses(rules, ops, 0, {});
      assert Normalize(rules, RenderBatch(ops)) == Ok(ops);
    }
    if batch :| Normalize(rules, batch) == Ok(ops) {
      ParsedBatchIsOk(rules, batch.items, 0, {});
    }
  }

  /** Normalising a normalised batch changes nothing: the fingerprinted batch is the compiled batch. */
  lemma NormalizeIdempotent(rules: TextRules, batch: Value)
    requires Normalize(rules, batch).Ok?
    ensures var ops := Normalize(rules, batch).value; Normalize(rules, RenderBatch(ops)) == Ok(ops)
  {
    var ops := Normalize(rules, batch).value;
    NormalizeRange(rules, ops);
    BatchOkIsAfterNothing(rules, ops);
    RenderedBatchParses(rules, ops, 0, {});
  }

  /** Operation `j` mentions the alias `$name`. */
  predicate Mentions(op: Op, name: string) {
    ("$" + name) in Targets(op) || ("$" + name) in Cutters(op)
  }

  /** Ids are unique and every reference names exactly one operation, which is strictly earlier. */
  lemma ReferencesNameOneEarlierOp(rules: TextRules, batch: Value, j: nat, name: string)
    requires Normalize(rules, batch).Ok?
    requires var ops := Normalize(rules, batch).value; j < |ops| && Mentions(ops[j], name)
    ensures var ops := Normalize(rules, batch).value;
            && (forall a, b :: 0 <= a < b < |ops| ==> ops[a].id != ops[b].id)
            && exists i :: 0 <= i < j && ops[i].id == name && forall i' :: 0 <= i' < |ops| && ops[i'].id == name ==> i' == i
  {
    var ops := Normalize(rules, batch).value;
    NormalizeRange(rules, ops);
    IdsAreUnique(rules, ops);
    var reference := "$" + name;
    assert reference[1..] == name;
    assert OpOk(rules, ops[j], IdsOf(ops[..j]));
    assert TargetOk(rules, reference, IdsOf(ops[..j]));
    var i :| 0 <= i < |ops[..j]| && ops[..j][i].id == name;
    assert ops[i].id == name;
  }

  lemma IdsAreUnique(rules: TextRules, ops: seq<Op>)
    requires BatchOk(rules, ops)
    ensures forall a, b :: 0 <= a < b < |ops| ==> ops[a].id != ops[b].id
  {
    forall a, b | 0 <= a < b < |ops| ensures ops[a].id != ops[b].id {
      assert OpOk(rules, ops[b], IdsOf(ops[..b]));
      assert ops[..b][a] == ops[a];
    }
  }

  // ---------------------------------------------------------------- the loop of the source

  lemma {:induction false} ParseFromSnoc(rules: TextRules, raws: seq<Value>, raw: Value, index: nat, aliases: set<string>)
    requires ParseFrom(rules, raws, index, aliases).Ok?
    ensures var ops := ParseFrom(rules, raws, index, aliases).value;
            var next := ParseOp(rules, raw, index + |raws|, aliases + IdsOf(ops));
            ParseFrom(rules, raws + [raw], index, aliases) == if next.Ok? then Ok(ops + [next.value]) else Err(next.error)
    decreases |raws|
  {
    hide ParseOp;
    if raws == [] {
      assert aliases + IdsOf([]) == aliases;
      assert raws + [raw] == [raw] && [raw][1..] == [];
      ParseFromCons(rules, raw, [], index, aliases);
      assert raws + [raw] == [raw] + [];
      assert index + |raws| == index;
      var next := ParseOp(rules, raw, index, aliases);
      if next.Ok? {
        assert ParseFrom(rules, [], index + 1, aliases + {next.value.id}) == Ok([]);
        assert [next.value] + [] == [] + [next.value];
      }
    } else {
      assert raws == [raws[0]] + raws[1..];
      ParseFromCons(rules, raws[0], raws[1..], index, aliases);
      var op := ParseOp(rules, raws[0], index, aliases).value;
      var rest := ParseFrom(rules, raws[1..], index + 1, aliases + {op.id}).value;
      ParseFromSnoc(rules, raws[1..], raw, index + 1, aliases + {op.id});
      IdsOfCons(op, rest);
      assert aliases + {op.id} + IdsOf(rest) == aliases + IdsOf([op] + rest);
      assert raws + [raw] == [raws[0]] + (raws[1..] + [raw]);
      ParseFromCons(rules, raws[0], raws[1..] + [raw], index, aliases);
      assert index + 1 + |raws[1..]| == index + |raws|;
      var next := ParseOp(rules, raw, index + |raws|, aliases + IdsOf([op] + rest));
      if next.Ok? {
        assert [op] + (rest + [next.value]) == [op] + rest + [next.value];
      }
    }
  }

  lemma ParseFromCons(rules: TextRules, raw: Value, rest: seq<Value>, index: nat, aliases: set<string>)
    ensures var first := ParseOp(rules, raw, index, aliases);
            ParseFrom(rules, [raw] + rest, index, aliases) ==
            if first.Err? then Err(first.error) else
            var others := ParseFrom(rules, rest, index + 1, aliases + {first.value.id});
            if others.Err? then others else Ok([first.value] + others.value)
  {
    hide ParseOp;
    assert ([raw] + rest)[1..] == rest;
  }

  lemma ParseFromFails(rules: TextRules, raws: seq<Value>, tail: seq<Value>, index: nat, aliases: set<string>)
    requires ParseFrom(rules, raws, index, aliases).Err?
    ensures ParseFrom(rules, raws + tail, index, aliases) == ParseFrom(rules, raws, index, aliases)
    decreases |raws|
  {
    hide ParseOp;
    var first := ParseOp(rules, raws[0], index, aliases);
    assert (raws + tail)[0] == raws[0] && (raws + tail)[1..] == raws[1..] + tail;
    if first.Ok? {
      ParseFromFails(rules, raws[1..], tail, index + 1, aliases + {first.value.id});
    }
  }

  lemma NothingParsed(rules: TextRules)
    ensures IdsOf([]) == {} && ParseFrom(rules, [], 0, {}) == Ok([])
  {}

  lemma IdsOfSnoc(ops: seq<Op>, op: Op)
    ensures IdsOf(ops + [op]) == IdsOf(ops) + {op.id}
  {
    var all := ops + [op];
    assert forall i :: 0 <= i < |ops| ==> all[i] == ops[i];
    assert all[|ops|] == op;
    forall x | x in IdsOf(ops) ensures x in IdsOf(all) {
      var i :| 0 <= i < |ops| && ops[i].id == x;
      assert all[i].id == x;
    }
  }
}
