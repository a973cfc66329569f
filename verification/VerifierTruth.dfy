/** What verification proves about two scenes, and which receipts pass it. */
module VerifierTruth {
  import opened Wrappers
  import opened Ordering
  import opened HostContract
  import opened Verification

  /** The ids a scene really carries. */
  function RealIds(s: Snapshot): set<string> {
    set o | o in s.objects && o.id.Some? :: o.id.value
  }

  predicate WellIdentified(text: Text, s: Snapshot) {
    && (forall o :: o in s.objects ==> o.id.Some? && text.strip(o.id.value) != "")
    && (forall i, j :: 0 <= i < j < |s.objects| ==> s.objects[i].id != s.objects[j].id)
  }

  lemma {:induction false} IdsOfPresent(text: Text, objects: seq<SceneObject>)
    requires forall o :: o in objects ==> !Blank(text, o)
    ensures Ids(text, objects) == MapSeq((o: SceneObject) => IdText(o), objects)
  {
    if objects != [] {
      assert objects[0] in objects;
      IdsOfPresent(text, objects[1..]);
      assert MapSeq((o: SceneObject) => IdText(o), objects)
          == [IdText(objects[0])] + MapSeq((o: SceneObject) => IdText(o), objects[1..]);
    }
  }

  lemma PresentIds(text: Text, s: Snapshot)
    requires forall o :: o in s.objects ==> !Blank(text, o)
    ensures IdSet(text, s) == RealIds(s) && |Ids(text, s.objects)| == |s.objects|
    ensures forall i :: 0 <= i < |s.objects| ==> s.objects[i].id == Some(Ids(text, s.objects)[i])
  {
    hide Ids;
    IdsOfPresent(text, s.objects);
    var ids := Ids(text, s.objects);
    forall i | 0 <= i < |s.objects| ensures s.objects[i].id == Some(ids[i]) { assert s.objects[i] in s.objects; }
    forall x ensures x in IdSet(text, s) <==> x in RealIds(s) {
      if x in ids { var i :| 0 <= i < |ids| && ids[i] == x; assert s.objects[i] in s.objects; }
      if x in RealIds(s) { var o :| o in s.objects && o.id == Some(x); var i :| 0 <= i < |s.objects| && s.objects[i] == o; assert ids[i] == x; }
    }
  }

  /** The two scene checks hold exactly for scenes whose objects all carry a non-blank id of their own. */
  lemma SceneChecksMean(c: Case, ofAfter: bool)
    ensures var s := if ofAfter then c.after else c.before;
            (Holds(c, IdsPresent(ofAfter)) && Holds(c, IdsUnique(ofAfter)) <==> WellIdentified(c.text, s))
            && (WellIdentified(c.text, s) ==> IdSet(c.text, s) == RealIds(s) && |RealIds(s)| == |s.objects|)
  {
    hide Ids, IdSet, RealIds;
    var s := if ofAfter then c.after else c.before;
    if forall o :: o in s.objects ==> !Blank(c.text, o) {
      PresentIds(c.text, s);
      IdSetIsToSet(c.text, s);
      DistinctByCount(Ids(c.text, s.objects));
    } else {
      var o :| o in s.objects && Blank(c.text, o);
      assert !WellIdentified(c.text, s);
    }
  }

  lemma IdSetIsToSet(text: Text, s: Snapshot)
    ensures IdSet(text, s) == ToSet(Ids(text, s.objects))
  {}

  // ---------------------------------------------------------------- what `verified` means

  /** The receipt claims to have modified `id`: its own list counts, and the operation result's only when that is empty. */
  predicate Claims(r: Receipt, id: string) {
    id in r.modified || (|r.modified| == 0 && id in r.resultModified)
  }

  /** Objects of that id in both scenes carry content hashes, and different ones. */
  predicate ShowsChange(before: Snapshot, after: Snapshot, id: string) {
    exists o, o' :: o in before.objects && o' in after.objects && o.id == Some(id) && o'.id == Some(id)
                    && o.hash.Some? && o'.hash.Some? && o.hash.value != "" && o'.hash.value != "" && o.hash.value != o'.hash.value
  }

  predicate Named(s: Snapshot, name: string) {
    exists i :: 0 <= i < |s.objects| && s.objects[i].name == name
  }

  predicate Inside(d: real, bound: real) {
    -bound <= d <= bound || bound <= d <= -bound
  }

  /** The difference is within the given tolerance, or within a billionth of one of the numbers. */
  predicate Within(x: real, target: real, tolerance: real) {
    var d := x - target;
    -tolerance <= d <= tolerance || Inside(1000000000.0 * d, x) || Inside(1000000000.0 * d, target)
  }

  /** Everything a caller may conclude from `verified`, on the receipt and the two scenes alone. */
  ghost predicate Confirmed(c: Case) {
    && c.receipt.status == Some("completed") && WellIdentified(c.text, c.before) && WellIdentified(c.text, c.after)
    && (set x | x in c.receipt.created) == RealIds(c.after) - RealIds(c.before)
    && (set x | x in c.receipt.deleted) == RealIds(c.before) - RealIds(c.after)
    && (forall id :: Claims(c.receipt, id) && id !in c.receipt.created ==> ShowsChange(c.before, c.after, id))
    && (c.assertions.delta.Some? ==> |c.after.objects| - |c.before.objects| == c.assertions.delta.value)
    && (forall name :: name in c.assertions.present ==> Named(c.after, name))
    && (forall name :: name in c.assertions.absent ==> !Named(c.after, name))
    && (c.assertions.units.Some? ==>
          c.text.fold(if c.after.units.Some? then c.after.units.value else "None") == c.text.fold(c.assertions.units.value))
    && (forall n :: n in c.assertions.numeric ==>
          c.after.metric(n.key).Number? && Within(c.after.metric(n.key).value, n.target, n.tolerance))
  }

  lemma CloseIsWithin(x: real, target: real, tolerance: real)
    ensures Close(x, target, tolerance) <==> Within(x, target, tolerance)
  {}

  lemma NameIsNamed(s: Snapshot, name: string)
    ensures HasName(s, name) <==> Named(s, name)
  {
    if HasName(s, name) { var o :| o in s.objects && o.name == name; }
    if Named(s, name) { var i :| 0 <= i < |s.objects| && s.objects[i].name == name; assert s.objects[i] in s.objects; }
  }

  lemma IdSetIsReal(text: Text, s: Snapshot)
    requires WellIdentified(text, s)
    ensures IdSet(text, s) == RealIds(s) && |IdSet(text, s)| == |s.objects|
  {
    hide Ids;
    PresentIds(text, s);
    DistinctByCount(Ids(text, s.objects));
  }

  /** With ids of their own, the object found under an id is the one that has it. */
  lemma ChangeIsShown(c: Case, id: string)
    requires WellIdentified(c.text, c.before) && WellIdentified(c.text, c.after)
    ensures Changed(c, id) <==> ShowsChange(c.before, c.after, id)
  {
    FoundIsIt(c.text, c.before, id);
    FoundIsIt(c.text, c.after, id);
  }

  lemma FoundIsIt(text: Text, s: Snapshot, id: string)
    requires WellIdentified(text, s)
    ensures id in ById(s.objects) ==> ById(s.objects)[id] in s.objects && ById(s.objects)[id].id == Some(id)
    ensures forall o :: o in s.objects && o.id == Some(id) ==> id in ById(s.objects) && ById(s.objects)[id] == o
  {
    ByIdKeys(s.objects, id);
    forall o | o in s.objects && o.id == Some(id) ensures id in ById(s.objects) && ById(s.objects)[id] == o {
      var i :| 0 <= i < |s.objects| && s.objects[i] == o;
      var j :| 0 <= j < |s.objects| && s.objects[j] == ById(s.objects)[id];
      assert i == j;
    }
  }

  lemma ToCompareIsClaimed(r: Receipt, id: string)
    ensures id in ToCompare(r) <==> Claims(r, id) && id !in r.created
  {}

  lemma SoundIds(c: Case)
    ensures WellIdentified(c.text, c.before) && WellIdentified(c.text, c.after)
       <==> Holds(c, IdsPresent(false)) && Holds(c, IdsUnique(false)) && Holds(c, IdsPresent(true)) && Holds(c, IdsUnique(true))
  {
    hide Holds, WellIdentified;
    SceneChecksMean(c, false);
    SceneChecksMean(c, true);
  }

  lemma SetsMean(c: Case)
    requires WellIdentified(c.text, c.before) && WellIdentified(c.text, c.after)
    ensures Holds(c, CreatedMatch) <==> (set x | x in c.receipt.created) == RealIds(c.after) - RealIds(c.before)
    ensures Holds(c, DeletedMatch) <==> (set x | x in c.receipt.deleted) == RealIds(c.before) - RealIds(c.after)
    ensures Holds(c, CountDelta) <==> c.assertions.delta == Some(|c.after.objects| - |c.before.objects|)
  {
    hide IdSet, RealIds, WellIdentified;
    IdSetIsReal(c.text, c.before);
    IdSetIsReal(c.text, c.after);
  }

  /** `verified` is exactly that. */
  lemma VerifiedMeans(c: Case)
    ensures AllHold(c) <==> Confirmed(c)
  {
    hide AllHold, Confirmed;
    if AllHold(c) { VerifiedConfirms(c); }
    if Confirmed(c) { ConfirmedVerifies(c); }
  }

  lemma VerifiedConfirms(c: Case)
    requires AllHold(c)
    ensures Confirmed(c)
  {
    hide IdSet, RealIds, WellIdentified, Changed, ShowsChange, HasName, Named, Close, Within, Ids, Blank, ToCompare, Claims;
    assert Holds(c, ReceiptCompleted) && Holds(c, IdsPresent(false)) && Holds(c, IdsUnique(false)) && Holds(c, IdsPresent(true))
        && Holds(c, IdsUnique(true)) && Holds(c, CreatedMatch) && Holds(c, DeletedMatch);
    SoundIds(c);
    SetsMean(c);
    if c.assertions.delta.Some? { assert Holds(c, CountDelta); }
    if c.assertions.units.Some? { assert Holds(c, UnitsMatch); }
    forall id | Claims(c.receipt, id) && id !in c.receipt.created ensures ShowsChange(c.before, c.after, id) {
      ToCompareIsClaimed(c.receipt, id);
      assert Holds(c, ModifiedChanged(id));
      ChangeIsShown(c, id);
    }
    forall name | name in c.assertions.present ensures Named(c.after, name) { assert Holds(c, NamePresent(name)); NameIsNamed(c.after, name); }
    forall name | name in c.assertions.absent ensures !Named(c.after, name) { assert Holds(c, NameAbsent(name)); NameIsNamed(c.after, name); }
    forall n | n in c.assertions.numeric
      ensures c.after.metric(n.key).Number? && Within(c.after.metric(n.key).value, n.target, n.tolerance)
    {
      assert Holds(c, MetricClose(n));
      CloseIsWithin(c.after.metric(n.key).value, n.target, n.tolerance);
    }
  }

  lemma ConfirmedVerifies(c: Case)
    requires Confirmed(c)
    ensures AllHold(c)
  {
    hide IdSet, RealIds, WellIdentified, Changed, ShowsChange, HasName, Named, Close, Within, Ids, Blank, ToCompare, Claims;
    SoundIds(c);
    SetsMean(c);
    forall check | Required(c, check) ensures Holds(c, check) {
      match check
      case ModifiedChanged(id) =>
        ToCompareIsClaimed(c.receipt, id);
        ChangeIsShown(c, id);
      case NamePresent(name) => NameIsNamed(c.after, name);
      case NameAbsent(name) => NameIsNamed(c.after, name);
      case MetricClose(n) => CloseIsWithin(c.after.metric(n.key).value, n.target, n.tolerance);
      case _ =>
    }
  }

  // ---------------------------------------------------------------- honest receipts

  /** The receipt a host adapter builds from the delta of two scenes. */
  predicate CompletedReceipt(r: Receipt, before: seq<SceneObject>, after: seq<SceneObject>) {
    && r.status == Some(COMPLETED) && r.resultModified == []
    && ToSet(r.created) == SceneDelta(before, after).created
    && ToSet(r.modified) == SceneDelta(before, after).modified
    && ToSet(r.deleted) == SceneDelta(before, after).deleted
  }

  /** Every object the delta calls modified has a content hash on both sides. */
  predicate ModifiedAreHashed(before: seq<SceneObject>, after: seq<SceneObject>) {
    var prior, current := ById(before), ById(after);
    forall id :: id in SceneDelta(before, after).modified ==> Hashed(prior[id]) && Hashed(current[id])
  }

  lemma KeysAreRealIds(s: Snapshot)
    ensures ById(s.objects).Keys == RealIds(s)
  {
    forall k ensures k in ById(s.objects) <==> k in RealIds(s) {
      ByIdKeys(s.objects, k);
      if k in RealIds(s) { var o :| o in s.objects && o.id == Some(k); var i :| 0 <= i < |s.objects| && s.objects[i] == o; }
    }
  }

  lemma OnlyModifiedMatters(c: Case)
    requires c.assertions == NO_ASSERTIONS && Holds(c, ReceiptCompleted) && Holds(c, CreatedMatch) && Holds(c, DeletedMatch)
    requires Holds(c, IdsPresent(false)) && Holds(c, IdsUnique(false)) && Holds(c, IdsPresent(true)) && Holds(c, IdsUnique(true))
    ensures AllHold(c) <==> forall id :: id in ToCompare(c.receipt) ==> Changed(c, id)
  {
    hide Changed, Ids, Blank, IdSet;
    if AllHold(c) {
      forall id | id in ToCompare(c.receipt) ensures Changed(c, id) { assert Holds(c, ModifiedChanged(id)); }
    }
  }

  /** Between soundly identified scenes a receipt built from their delta verifies, with nothing asserted, exactly when
      the modified objects are hashed. */
  lemma DeltaReceiptVerifies(c: Case)
    requires WellIdentified(c.text, c.before) && WellIdentified(c.text, c.after)
    requires CompletedReceipt(c.receipt, c.before.objects, c.after.objects) && c.assertions == NO_ASSERTIONS
    ensures AllHold(c) <==> ModifiedAreHashed(c.before.objects, c.after.objects)
  {
    hide ById, RealIds, WellIdentified, AllHold, IdSet;
    KeysAreRealIds(c.before);
    KeysAreRealIds(c.after);
    SceneChecksMean(c, false);
    SceneChecksMean(c, true);
    var delta := SceneDelta(c.before.objects, c.after.objects);
    assert ToCompare(c.receipt) == delta.modified;
    OnlyModifiedMatters(c);
  }

  /** Finalised scenes are soundly identified, so receipts built between them verify. */
  lemma FinalizedReceiptVerifies(c: Case, digest: Digest, d: string, u: string, a: seq<SceneObject>, b: seq<SceneObject>)
    requires FinalizeScene(c.text, digest, d, u, a).Scene? && FinalizeScene(c.text, digest, d, u, b).Scene?
    requires c.before.objects == FinalizeScene(c.text, digest, d, u, a).objects
    requires c.after.objects == FinalizeScene(c.text, digest, d, u, b).objects
    requires c.text.strip("") == ""
    requires CompletedReceipt(c.receipt, c.before.objects, c.after.objects) && c.assertions == NO_ASSERTIONS
    ensures AllHold(c) <==> ModifiedAreHashed(c.before.objects, c.after.objects)
  {
    FinalizedIsStable(c.text, digest, d, u, a);
    FinalizedIsStable(c.text, digest, d, u, b);
    StrippedIsIdentified(c.text, c.before);
    StrippedIsIdentified(c.text, c.after);
    DeltaReceiptVerifies(c);
  }

  lemma StrippedIsIdentified(text: Text, s: Snapshot)
    requires text.strip("") == "" && forall o :: o in s.objects ==> Stripped(text, o) != ""
    requires forall i, j :: 0 <= i < j < |s.objects| ==> Stripped(text, s.objects[i]) != Stripped(text, s.objects[j])
    ensures WellIdentified(text, s)
  {}

  /** The verifier only checks the changes a receipt claims: dropping every claim never breaks verification. */
  lemma UnclaimedChangesPass(c: Case)
    requires AllHold(c)
    ensures AllHold(c.(receipt := c.receipt.(modified := [], resultModified := [])))
  {
    hide Changed;
    var c' := c.(receipt := c.receipt.(modified := [], resultModified := []));
    assert ToCompare(c'.receipt) == {};
    forall check | Required(c', check) ensures Holds(c', check) {
      assert Required(c, check);
      assert Holds(c, check);
    }
  }
}
