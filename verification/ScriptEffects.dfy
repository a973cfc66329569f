/** What the script does to the document, object by object, and what the id lists it prints tell about it. */
module ScriptEffects {
  import opened Wrappers
  import opened Values
  import opened Operations
  import opened Mapping
  import opened Host
  import opened Script

  // ---------------------------------------------------------------- adding and removing objects

  /** `after` is `before` with one more object for each geometry, in order, under the next ids and the default attributes. */
  ghost predicate Adds(k: Kernel, before: Document, pieces: seq<Geometry>, after: Document, ids: seq<string>) {
    && |ids| == |pieces| && after.next == before.next + |pieces| && after.layers == before.layers
    && (forall i :: 0 <= i < |ids| ==> ids[i] == k.supply(before.next + i))
    && (forall i :: 0 <= i < |ids| ==> ids[i] in after.objects && after.objects[ids[i]] == Object(pieces[i], k.defaults))
    && (forall id :: id in after.objects <==> id in before.objects || id in ids)
    && (forall id :: id in before.objects && id !in ids ==> after.objects[id] == before.objects[id])
  }

  /** The new objects hold the geometries in order, and nothing but the objects changes. */
  lemma {:induction false} AddObjectsStores(k: Kernel, doc: Document, pieces: seq<Geometry>)
    requires ValidKernel(k) && ValidDocument(k, doc)
    ensures var (after, ids) := AddObjects(k, doc, pieces);
            && |ids| == |pieces| && after.layers == doc.layers
            && forall i :: 0 <= i < |ids| ==> ids[i] in after.objects && after.objects[ids[i]] == Object(pieces[i], k.defaults)
    decreases |pieces|
  {
    if pieces != [] {
      var (added, id) := AddObject(k, doc, pieces[0], k.defaults);
      OneAdded(k, doc, pieces[0], k.defaults);
      AddObjectsStores(k, added, pieces[1..]);
      AddObjectsValid(k, added, pieces[1..]);
    }
  }

  lemma AddObjectsAdds(k: Kernel, doc: Document, pieces: seq<Geometry>)
    requires ValidKernel(k) && ValidDocument(k, doc)
    ensures var (after, ids) := AddObjects(k, doc, pieces); Adds(k, doc, pieces, after, ids)
  {
    hide AddObjects, ValidKernel, ValidDocument;
    AddObjectsValid(k, doc, pieces);
    AddObjectsStores(k, doc, pieces);
  }

  /** Each id that is there goes and is reported once; nothing else changes. */
  lemma {:induction false} DeleteEachTells(doc: Document, ids: seq<string>)
    ensures var (after, deleted) := DeleteEach(doc, ids);
            && after.layers == doc.layers && after.next == doc.next
            && (forall id :: id in after.objects <==> id in doc.objects && id !in ids)
            && (forall id :: id in after.objects ==> after.objects[id] == doc.objects[id])
            && (forall id :: id in deleted <==> id in doc.objects && id in ids)
            && (forall i, j :: 0 <= i < j < |deleted| ==> deleted[i] != deleted[j])
    decreases |ids|
  {
    if ids != [] {
      assert forall id :: id in ids <==> id == ids[0] || id in ids[1..];
      if ids[0] in doc.objects {
        var removed := RemoveObject(doc, ids[0]);
        DeleteEachTells(removed, ids[1..]);
        var rest := DeleteEach(removed, ids[1..]).1;
        assert DeleteEach(doc, ids).1 == [ids[0]] + rest;
      } else {
        DeleteEachTells(doc, ids[1..]);
      }
    }
  }

  // ---------------------------------------------------------------- the printed lists

  ghost predicate SuppliedBetween(k: Kernel, id: string, from: nat, to: nat) {
    exists n :: from <= n < to && k.supply(n) == id
  }

  /** The three lists account for the difference of the two documents: every id they hold was there or is new, the objects
      there afterwards are the old and the created ones that were not deleted, and an old one not called modified is as it was. */
  ghost predicate Told(k: Kernel, before: Document, after: Document, created: seq<string>, modified: seq<string>, deleted: seq<string>) {
    && before.next <= after.next && ValidDocument(k, after)
    && (forall id :: id in created ==> SuppliedBetween(k, id, before.next, after.next))
    && (forall id :: id in modified || id in deleted ==> id in before.objects || id in created)
    && (forall id :: id in after.objects <==> (id in before.objects || id in created) && id !in deleted)
    && (forall id :: id in before.objects && id in after.objects && id !in modified ==> after.objects[id] == before.objects[id])
  }

  lemma SuppliedIsNew(k: Kernel, doc: Document, id: string, to: nat)
    requires ValidDocument(k, doc) && SuppliedBetween(k, id, doc.next, to)
    ensures id !in doc.objects
  {}

  lemma SuppliedOnce(k: Kernel, id: string, a: nat, b: nat, c: nat)
    requires ValidKernel(k) && SuppliedBetween(k, id, a, b)
    ensures !SuppliedBetween(k, id, b, c)
  {}

  lemma SuppliedWider(k: Kernel, id: string, from: nat, to: nat, from': nat, to': nat)
    requires SuppliedBetween(k, id, from, to) && from' <= from && to <= to'
    ensures SuppliedBetween(k, id, from', to')
  {}

  /** What was created later was not there before and not created earlier. */
  lemma LaterIsNew(k: Kernel, a: Document, b: Document, c: Document, created: seq<string>, id: string)
    requires ValidKernel(k) && ValidDocument(k, a) && a.next <= b.next && SuppliedBetween(k, id, b.next, c.next)
    requires forall x :: x in created ==> SuppliedBetween(k, x, a.next, b.next)
    ensures id !in a.objects && id !in created
  {
    hide ValidKernel, ValidDocument;
    SuppliedWider(k, id, b.next, c.next, a.next, c.next);
    SuppliedIsNew(k, a, id, c.next);
    if id in created { SuppliedOnce(k, id, a.next, b.next, c.next); }
  }

  lemma ToldInSequence(k: Kernel, a: Document, b: Document, c: Document, created: seq<string>, modified: seq<string>, deleted: seq<string>,
                       created': seq<string>, modified': seq<string>, deleted': seq<string>)
    requires ValidKernel(k) && ValidDocument(k, a)
    requires Told(k, a, b, created, modified, deleted) && Told(k, b, c, created', modified', deleted')
    ensures Told(k, a, c, created + created', modified + modified', deleted + deleted')
  {
    hide ValidKernel, ValidDocument, SuppliedBetween;
    forall id | id in created' ensures id !in a.objects && id !in created && SuppliedBetween(k, id, a.next, c.next) {
      LaterIsNew(k, a, b, c, created, id);
      SuppliedWider(k, id, b.next, c.next, a.next, c.next);
    }
    forall id | id in created ensures SuppliedBetween(k, id, a.next, c.next) {
      SuppliedWider(k, id, a.next, b.next, a.next, c.next);
    }
  }

  lemma AddsIsTold(k: Kernel, before: Document, pieces: seq<Geometry>, after: Document, ids: seq<string>)
    requires ValidKernel(k) && ValidDocument(k, before) && Adds(k, before, pieces, after, ids)
    ensures Told(k, before, after, ids, [], [])
  {
    forall id | id in ids ensures SuppliedBetween(k, id, before.next, after.next) && k.canon(id) == id {
      var i :| 0 <= i < |ids| && ids[i] == id;
      assert k.supply(before.next + i) == id;
    }
    assert forall n, i :: n >= after.next && 0 <= i < |ids| ==> ids[i] != k.supply(n);
  }

  lemma OneAdded(k: Kernel, doc: Document, geometry: Geometry, attributes: Attributes)
    requires ValidKernel(k) && ValidDocument(k, doc)
    ensures var (after, id) := AddObject(k, doc, geometry, attributes);
            Told(k, doc, after, [id], [], []) && after.objects == doc.objects[id := Object(geometry, attributes)] && id !in doc.objects
  {
    var (after, id) := AddObject(k, doc, geometry, attributes);
    assert k.supply(doc.next) == id;
    assert SuppliedBetween(k, id, doc.next, after.next);
  }

  lemma TargetStepTold(k: Kernel, op: Op, doc: Document, id: string)
    requires ValidKernel(k) && ValidDocument(k, doc) && PerTarget(op) && TargetStep(k, op, doc, id).Ok?
    ensures var e := TargetStep(k, op, doc, id).value; Told(k, doc, e.doc, e.created, e.modified, e.deleted)
  {
    hide AddObjects, AddObject, SuppliedBetween, ValidKernel;
    var source := doc.objects[id];
    match op
    case Duplicate(_, _, translation) =>
      OneAdded(k, doc, k.moved(source.geometry, if translation.Some? then translation.value else ORIGIN), source.attributes);
    case ExtrudeCurve(_, _, vector, cap) =>
      OneAdded(k, doc, k.extrude(source.geometry, vector, cap).value, k.defaults);
    case OffsetCurve(_, _, distance, normal) =>
      var pieces := k.offset(source.geometry, distance, normal);
      AddObjectsAdds(k, doc, pieces);
      AddsIsTold(k, doc, pieces, AddObjects(k, doc, pieces).0, AddObjects(k, doc, pieces).1);
    case _ =>
  }

  lemma {:induction false} TargetStepsTold(k: Kernel, op: Op, doc: Document, ids: seq<string>)
    requires ValidKernel(k) && ValidDocument(k, doc) && PerTarget(op) && TargetSteps(k, op, doc, ids).Ok?
    ensures var e := TargetSteps(k, op, doc, ids).value; Told(k, doc, e.doc, e.created, e.modified, e.deleted)
    decreases |ids|
  {
    hide ValidKernel, TargetStep;
    if ids != [] {
      TargetStepTold(k, op, doc, ids[0]);
      var first := TargetStep(k, op, doc, ids[0]).value;
      TargetStepsTold(k, op, first.doc, ids[1..]);
      var rest := TargetSteps(k, op, first.doc, ids[1..]).value;
      ToldInSequence(k, doc, first.doc, rest.doc, first.created, first.modified, first.deleted, rest.created, rest.modified, rest.deleted);
    }
  }

  /** Deleting from what was added to. */
  lemma DeletedIsTold(k: Kernel, before: Document, added: Document, created: seq<string>, ids: seq<string>)
    requires ValidKernel(k) && ValidDocument(k, before) && Told(k, before, added, created, [], [])
    ensures var (after, deleted) := DeleteEach(added, ids); Told(k, before, after, created, [], deleted)
  {
    hide DeleteEach, ValidKernel, SuppliedBetween;
    DeleteEachTells(added, ids);
  }

  lemma CombineTold(k: Kernel, op: Op, doc: Document, left: seq<string>, right: seq<string>)
    requires ValidKernel(k) && ValidDocument(k, doc) && (op.BooleanUnion? || op.BooleanIntersection? || op.BooleanDifference?)
    requires CombineStep(k, op, doc, left, right).Ok?
    ensures var e := CombineStep(k, op, doc, left, right).value; Told(k, doc, e.doc, e.created, e.modified, e.deleted)
  {
    hide AddObjects, DeleteEach, ValidKernel, ValidDocument, Told, Adds;
    var how := if op.BooleanUnion? then Union else if op.BooleanIntersection? then Intersection else Difference;
    var pieces := k.combine(how, Geometries(doc, left), Geometries(doc, right));
    var (added, output) := AddObjects(k, doc, pieces);
    AddObjectsAdds(k, doc, pieces);
    AddsIsTold(k, doc, pieces, added, output);
    DeletedIsTold(k, doc, added, output, if op.deleteInput then left + right else []);
  }

  lemma OpStepTold(k: Kernel, op: Op, doc: Document, aliases: Aliases)
    requires ValidKernel(k) && ValidDocument(k, doc) && Compilable(op) && OpStep(k, op, doc, aliases).Ok?
    ensures var e := OpStep(k, op, doc, aliases).value; Told(k, doc, e.doc, e.created, e.modified, e.deleted)
  {
    hide AddObject, TargetSteps, CombineStep, ValidKernel, ValidDocument, Told, CreatedGeometry, Ids;
    if IsCreate(op) {
      OneAdded(k, doc, CreatedGeometry(op), k.defaults);
    } else if PerTarget(op) {
      TargetStepsTold(k, op, doc, Ids(k, doc, aliases, op.targets).value);
    } else {
      CombineTold(k, op, doc, Ids(k, doc, aliases, op.targets).value, Ids(k, doc, aliases, Cutters(op)).value);
    }
  }

  lemma {:induction false} InterpretTold(k: Kernel, ops: seq<Op>, doc: Document, s: State)
    requires ValidKernel(k) && ValidDocument(k, doc) && forall i :: 0 <= i < |ops| ==> Compilable(ops[i])
    requires Told(k, doc, s.doc, s.created, s.modified, s.deleted) && Interpret(k, ops, s).Ok?
    ensures var end := Interpret(k, ops, s).value; Told(k, doc, end.doc, end.created, end.modified, end.deleted)
    decreases |ops|
  {
    hide OpStep, ValidKernel, ValidDocument, Told;
    if ops != [] {
      var e := OpStep(k, ops[0], s.doc, s.aliases).value;
      ToldIsValid(k, doc, s.doc, s.created, s.modified, s.deleted);
      OpStepTold(k, ops[0], s.doc, s.aliases);
      ToldInSequence(k, doc, s.doc, e.doc, s.created, s.modified, s.deleted, e.created, e.modified, e.deleted);
      InterpretTold(k, ops[1..], doc, Advance(s, ops[0], e));
    }
  }

  lemma ToldIsValid(k: Kernel, before: Document, after: Document, created: seq<string>, modified: seq<string>, deleted: seq<string>)
    requires Told(k, before, after, created, modified, deleted)
    ensures ValidDocument(k, after)
  {}

  lemma NothingTold(k: Kernel, doc: Document)
    requires ValidDocument(k, doc)
    ensures Told(k, doc, doc, [], [], [])
  {}

  /** The lists a script prints are a true account of what it did: the objects that appeared are those created and not
      deleted again, those that vanished are those deleted that were there, and any other object is as it was unless modified. */
  lemma PrintedListsAreTrue(k: Kernel, ops: seq<Op>, doc: Document)
    requires ValidKernel(k) && ValidDocument(k, doc) && forall i :: 0 <= i < |ops| ==> Compilable(ops[i])
    ensures var run := Interpret(k, ops, Start(doc));
            run.Ok? ==>
              var end := run.value;
              && (forall id :: id in end.doc.objects && id !in doc.objects <==> id in end.created && id !in end.deleted)
              && (forall id :: id in doc.objects && id !in end.doc.objects <==> id in end.deleted && id !in end.created)
              && (forall id :: id in doc.objects && id in end.doc.objects && id !in end.modified ==> end.doc.objects[id] == doc.objects[id])
              && (forall id :: id in end.modified ==> id in doc.objects || id in end.created)
  {
    hide Interpret, ValidKernel, ValidDocument, SuppliedBetween;
    NothingTold(k, doc);
    var run := Interpret(k, ops, Start(doc));
    if run.Ok? {
      InterpretTold(k, ops, doc, Start(doc));
      forall id | id in run.value.created ensures id !in doc.objects { SuppliedIsNew(k, doc, id, run.value.doc.next); }
    }
  }

  // ---------------------------------------------------------------- what each operation makes

  /** The geometry a boolean makes of its operands. */
  function Combined(k: Kernel, op: Op, doc: Document, left: seq<string>, right: seq<string>): seq<Geometry>
    requires AllPresent(doc, left) && AllPresent(doc, right)
  {
    var a := seq(|left|, i requires 0 <= i < |left| => doc.objects[left[i]].geometry);
    var b := seq(|right|, i requires 0 <= i < |right| => doc.objects[right[i]].geometry);
    if op.BooleanUnion? then k.combine(Union, a, b)
    else if op.BooleanIntersection? then k.combine(Intersection, a, b) else k.combine(Difference, a, b)
  }

  predicate Consumes(op: Op, left: seq<string>, right: seq<string>, id: string)
    requires op.BooleanUnion? || op.BooleanIntersection? || op.BooleanDifference?
  {
    op.deleteInput && (id in left || id in right)
  }

  /** A boolean is refused exactly if an operand is missing, an intersection has not two of them, or nothing comes of it.
      Otherwise its pieces are there under new ids, the operands are gone and reported once each if it consumes them, and
      every other object is as it was. */
  lemma CombineMeans(k: Kernel, op: Op, doc: Document, left: seq<string>, right: seq<string>)
    requires ValidKernel(k) && ValidDocument(k, doc) && (op.BooleanUnion? || op.BooleanIntersection? || op.BooleanDifference?)
    ensures CombineStep(k, op, doc, left, right).Ok? <==>
              AllPresent(doc, left) && AllPresent(doc, right) && (op.BooleanIntersection? ==> |left| == 2) && Combined(k, op, doc, left, right) != []
    ensures CombineStep(k, op, doc, left, right).Ok? ==>
              var e, pieces := CombineStep(k, op, doc, left, right).value, Combined(k, op, doc, left, right);
              && |e.output| == |pieces| && e.created == e.output && e.modified == []
              && (forall i :: 0 <= i < |pieces| ==>
                    && e.output[i] == k.supply(doc.next + i) && e.output[i] in e.doc.objects
                    && e.doc.objects[e.output[i]] == Object(pieces[i], k.defaults))
              && (forall id :: id in e.doc.objects <==> id in e.output || (id in doc.objects && !Consumes(op, left, right, id)))
              && (forall id :: id in doc.objects && id in e.doc.objects ==> e.doc.objects[id] == doc.objects[id])
              && (forall id :: id in e.deleted <==> Consumes(op, left, right, id))
              && (forall i, j :: 0 <= i < j < |e.deleted| ==> e.deleted[i] != e.deleted[j])
  {
    hide AddObjects, DeleteEach, ValidKernel, Geometries;
    if AllPresent(doc, left) && AllPresent(doc, right) {
      var pieces := Combined(k, op, doc, left, right);
      OperandGeometries(doc, left);
      OperandGeometries(doc, right);
      AddObjectsAdds(k, doc, pieces);
      var (added, output) := AddObjects(k, doc, pieces);
      NewAreNoOperands(k, doc, output, left);
      NewAreNoOperands(k, doc, output, right);
      DeleteEachTells(added, if op.deleteInput then left + right else []);
    }
  }

  lemma OperandGeometries(doc: Document, ids: seq<string>)
    requires AllPresent(doc, ids)
    ensures Geometries(doc, ids) == seq(|ids|, i requires 0 <= i < |ids| => doc.objects[ids[i]].geometry)
  {}

  lemma NewAreNoOperands(k: Kernel, doc: Document, output: seq<string>, ids: seq<string>)
    requires ValidDocument(k, doc) && AllPresent(doc, ids) && forall i :: 0 <= i < |output| ==> output[i] == k.supply(doc.next + i)
    ensures forall id :: id in output ==> id !in ids && id !in doc.objects
  {}

  /** What a duplicate or an extrusion makes of one object: a copy keeps the attributes, a solid gets the default ones. */
  predicate MadeFrom(k: Kernel, op: Op, source: Object, made: Object)
    requires op.Duplicate? || op.ExtrudeCurve?
  {
    match op
    case Duplicate(_, _, translation) =>
      made.attributes == source.attributes
      && made.geometry == k.moved(source.geometry, if translation.Some? then translation.value else Vec3(0.0, 0.0, 0.0))
    case ExtrudeCurve(_, _, vector, cap) => made.attributes == k.defaults && k.extrude(source.geometry, vector, cap) == Some(made.geometry)
  }

  lemma CopyMeans(k: Kernel, op: Op, doc: Document, id: string)
    requires ValidKernel(k) && ValidDocument(k, doc) && (op.Duplicate? || op.ExtrudeCurve?) && TargetStep(k, op, doc, id).Ok?
    ensures var e := TargetStep(k, op, doc, id).value;
            && id in doc.objects && |e.output| == 1 && e.output[0] !in doc.objects && e.created == e.output
            && e.modified == [] && e.deleted == [] && e.doc.layers == doc.layers
            && (exists made :: MadeFrom(k, op, doc.objects[id], made) && e.doc.objects == doc.objects[e.output[0] := made])
  {
    hide ValidKernel;
    var e := TargetStep(k, op, doc, id).value;
    assert MadeFrom(k, op, doc.objects[id], e.doc.objects[e.output[0]]);
  }

  /** The object under `copy` is new since `before` and was made from the object under `id`. */
  predicate IsCopy(k: Kernel, op: Op, before: Document, after: Document, id: string, copy: string)
    requires op.Duplicate? || op.ExtrudeCurve?
  {
    copy !in before.objects && copy in after.objects && id in after.objects && MadeFrom(k, op, after.objects[id], after.objects[copy])
  }

  predicate Keeps(before: Document, after: Document) {
    forall id :: id in before.objects ==> id in after.objects && after.objects[id] == before.objects[id]
  }

  lemma StaysCopy(k: Kernel, op: Op, a: Document, b: Document, c: Document, id: string, copy: string)
    requires op.Duplicate? || op.ExtrudeCurve?
    requires Keeps(a, b) && Keeps(b, c) && (IsCopy(k, op, a, b, id, copy) || IsCopy(k, op, b, c, id, copy))
    ensures IsCopy(k, op, a, c, id, copy)
  {}

  lemma OneCopy(k: Kernel, op: Op, doc: Document, id: string)
    requires ValidKernel(k) && ValidDocument(k, doc) && (op.Duplicate? || op.ExtrudeCurve?) && TargetStep(k, op, doc, id).Ok?
    ensures var e := TargetStep(k, op, doc, id).value;
            Keeps(doc, e.doc) && e.output != [] && IsCopy(k, op, doc, e.doc, id, e.output[0]) && e.doc.objects.Keys == doc.objects.Keys + {e.output[0]}
  {
    hide TargetStep, MadeFrom, ValidKernel, ValidDocument;
    CopyMeans(k, op, doc, id);
  }

  /** One new object for each target, in order; every old object is as it was. */
  lemma {:induction false} CopiesMean(k: Kernel, op: Op, doc: Document, ids: seq<string>)
    requires ValidKernel(k) && ValidDocument(k, doc) && (op.Duplicate? || op.ExtrudeCurve?) && TargetSteps(k, op, doc, ids).Ok?
    ensures var e := TargetSteps(k, op, doc, ids).value;
            && |e.output| == |ids| && e.created == e.output && e.modified == [] && e.deleted == [] && e.doc.layers == doc.layers
            && (forall i :: 0 <= i < |ids| ==> IsCopy(k, op, doc, e.doc, ids[i], e.output[i]))
            && Keeps(doc, e.doc) && (forall id :: id in e.doc.objects ==> id in doc.objects || id in e.output)
    decreases |ids|
  {
    hide ValidKernel, TargetStep, ValidDocument, MadeFrom, IsCopy;
    if ids != [] {
      CopyMeans(k, op, doc, ids[0]);
      OneCopy(k, op, doc, ids[0]);
      TargetStepValid(k, op, doc, ids[0]);
      var first := TargetStep(k, op, doc, ids[0]).value;
      CopiesMean(k, op, first.doc, ids[1..]);
      var rest := TargetSteps(k, op, first.doc, ids[1..]).value;
      var output := first.output + rest.output;
      assert output == [first.output[0]] + rest.output;
      forall i | 0 <= i < |ids| ensures IsCopy(k, op, doc, rest.doc, ids[i], output[i]) {
        StaysCopy(k, op, doc, first.doc, rest.doc, ids[i], output[i]);
      }
    }
  }

  lemma TargetStepValid(k: Kernel, op: Op, doc: Document, id: string)
    requires ValidKernel(k) && ValidDocument(k, doc) && PerTarget(op) && TargetStep(k, op, doc, id).Ok?
    ensures ValidDocument(k, TargetStep(k, op, doc, id).value.doc)
  {
    hide TargetStep, ValidKernel, ValidDocument;
    TargetStepTold(k, op, doc, id);
  }

  /** The pieces of an offset curve, in order, under the next ids. */
  lemma OffsetMeans(k: Kernel, op: Op, doc: Document, id: string)
    requires ValidKernel(k) && ValidDocument(k, doc) && op.OffsetCurve? && TargetStep(k, op, doc, id).Ok?
    ensures var e := TargetStep(k, op, doc, id).value;
            && id in doc.objects && e.output != [] && e.created == e.output && e.modified == [] && e.deleted == []
            && Adds(k, doc, k.offset(doc.objects[id].geometry, op.distance, op.normal), e.doc, e.output)
  {
    hide AddObjects, ValidKernel, ValidDocument;
    AddObjectsAdds(k, doc, k.offset(doc.objects[id].geometry, op.distance, op.normal));
  }

  /** What a transform or an attribute change makes of one object: the one leaves the attributes alone, the other the
      geometry and every attribute that the operation does not give. */
  predicate ChangedTo(k: Kernel, op: Op, source: Object, changed: Object)
    requires op.TransformInPlace? || op.SetAttributes?
  {
    match op
    case TransformInPlace(_, _, motion, pivot) =>
      && changed.attributes == source.attributes
      && k.transform(source.geometry, motion, if motion.Translation? || pivot.None? then Vec3(0.0, 0.0, 0.0) else pivot.value) == Some(changed.geometry)
    case SetAttributes(_, _, name, layer, color, material) =>
      && changed.geometry == source.geometry
      && changed.attributes.name == (if name.Some? then name.value else source.attributes.name)
      && changed.attributes.layer == (if layer.Some? then layer.value else source.attributes.layer)
      && changed.attributes.color == (if color.Some? then color else source.attributes.color)
      && changed.attributes.material == (if material.Some? then material else source.attributes.material)
  }

  lemma ChangeMeans(k: Kernel, op: Op, doc: Document, id: string)
    requires (op.TransformInPlace? || op.SetAttributes?) && TargetStep(k, op, doc, id).Ok?
    ensures var e := TargetStep(k, op, doc, id).value;
            && id in doc.objects && e.output == [id] && e.modified == [id] && e.created == [] && e.deleted == []
            && (exists changed :: ChangedTo(k, op, doc.objects[id], changed) && e.doc.objects == doc.objects[id := changed])
            && e.doc.layers == (if op.SetAttributes? && op.layer.Some? then doc.layers + {op.layer.value} else doc.layers)
  {
    var e := TargetStep(k, op, doc, id).value;
    assert ChangedTo(k, op, doc.objects[id], e.doc.objects[id]);
  }

  /** The object under `id` was changed as the operation says. */
  predicate IsChanged(k: Kernel, op: Op, before: Document, after: Document, id: string)
    requires op.TransformInPlace? || op.SetAttributes?
  {
    id in before.objects && id in after.objects && ChangedTo(k, op, before.objects[id], after.objects[id])
  }

  predicate SameAt(before: Document, after: Document, id: string) {
    (id in after.objects <==> id in before.objects) && (id in before.objects ==> after.objects[id] == before.objects[id])
  }

  lemma OneChange(k: Kernel, op: Op, doc: Document, id: string)
    requires (op.TransformInPlace? || op.SetAttributes?) && TargetStep(k, op, doc, id).Ok?
    ensures var e := TargetStep(k, op, doc, id).value; IsChanged(k, op, doc, e.doc, id) && forall other :: other != id ==> SameAt(doc, e.doc, other)
  {
    hide TargetStep, ChangedTo;
    ChangeMeans(k, op, doc, id);
  }

  lemma StaysChanged(k: Kernel, op: Op, a: Document, b: Document, c: Document, id: string)
    requires op.TransformInPlace? || op.SetAttributes?
    requires (IsChanged(k, op, a, b, id) && SameAt(b, c, id)) || (SameAt(a, b, id) && IsChanged(k, op, b, c, id))
    ensures IsChanged(k, op, a, c, id)
  {}

  lemma StaysSame(a: Document, b: Document, c: Document, id: string)
    requires SameAt(a, b, id) && SameAt(b, c, id)
    ensures SameAt(a, c, id)
  {}

  lemma NotAgain(ids: seq<string>)
    requires ids != [] && forall i, j :: 0 <= i < j < |ids| ==> ids[i] != ids[j]
    ensures ids[0] !in ids[1..] && forall i, j :: 0 <= i < j < |ids[1..]| ==> ids[1..][i] != ids[1..][j]
  {
    assert forall j :: 0 <= j < |ids[1..]| ==> ids[1..][j] == ids[j + 1];
  }

  /** Each of different targets is changed once, and reported as modified; every other object is as it was. */
  lemma {:induction false} ChangesMean(k: Kernel, op: Op, doc: Document, ids: seq<string>)
    requires (op.TransformInPlace? || op.SetAttributes?) && TargetSteps(k, op, doc, ids).Ok?
    requires forall i, j :: 0 <= i < j < |ids| ==> ids[i] != ids[j]
    ensures var e := TargetSteps(k, op, doc, ids).value;
            && e.output == ids && e.modified == ids && e.created == [] && e.deleted == []
            && (forall id :: if id in ids then IsChanged(k, op, doc, e.doc, id) else SameAt(doc, e.doc, id))
            && e.doc.layers == (if ids != [] && op.SetAttributes? && op.layer.Some? then doc.layers + {op.layer.value} else doc.layers)
    decreases |ids|
  {
    hide TargetStep, ChangedTo, IsChanged;
    if ids == [] {
      assert forall id :: SameAt(doc, doc, id);
    } else {
      hide SameAt;
      ChangeMeans(k, op, doc, ids[0]);
      OneChange(k, op, doc, ids[0]);
      NotAgain(ids);
      var first := TargetStep(k, op, doc, ids[0]).value;
      ChangesMean(k, op, first.doc, ids[1..]);
      var rest := TargetSteps(k, op, first.doc, ids[1..]).value;
      assert ids == [ids[0]] + ids[1..];
      forall id ensures if id in ids then IsChanged(k, op, doc, rest.doc, id) else SameAt(doc, rest.doc, id) {
        assert id in ids <==> id == ids[0] || id in ids[1..];
        if id in ids { StaysChanged(k, op, doc, first.doc, rest.doc, id); } else { StaysSame(doc, first.doc, rest.doc, id); }
      }
    }
  }

  lemma OneDelete(k: Kernel, op: Op, doc: Document, id: string)
    requires op.Delete? && TargetStep(k, op, doc, id).Ok?
    ensures TargetStep(k, op, doc, id).value == Effect(RemoveObject(doc, id), [id], [], [], [id]) && id in doc.objects
  {}

  /** Every target of a delete goes, and is reported as it was named. */
  lemma {:induction false} DeletesMean(k: Kernel, op: Op, doc: Document, ids: seq<string>)
    requires op.Delete? && TargetSteps(k, op, doc, ids).Ok?
    ensures var e := TargetSteps(k, op, doc, ids).value;
            && e.output == ids && e.deleted == ids && e.created == [] && e.modified == [] && e.doc.layers == doc.layers
            && (forall id :: id in e.doc.objects <==> id in doc.objects && id !in ids)
            && (forall id :: id in e.doc.objects ==> e.doc.objects[id] == doc.objects[id])
    decreases |ids|
  {
    hide TargetStep;
    if ids != [] {
      OneDelete(k, op, doc, ids[0]);
      DeletesMean(k, op, RemoveObject(doc, ids[0]), ids[1..]);
      assert ids == [ids[0]] + ids[1..];
      assert forall id :: id in ids <==> id == ids[0] || id in ids[1..];
    }
  }

  /** A create adds its one object under the next id, with the default attributes. */
  lemma CreateMeans(k: Kernel, op: Op, doc: Document, aliases: Aliases)
    requires ValidKernel(k) && ValidDocument(k, doc) && IsCreate(op) && Compilable(op)
    ensures OpStep(k, op, doc, aliases).Ok?
    ensures var e, id := OpStep(k, op, doc, aliases).value, k.supply(doc.next);
            && id !in doc.objects && e.output == [id] && e.created == [id] && e.modified == [] && e.deleted == []
            && e.doc.objects == doc.objects[id := Object(CreatedGeometry(op), k.defaults)] && e.doc.layers == doc.layers
  {
    hide CreatedGeometry;
  }
}
