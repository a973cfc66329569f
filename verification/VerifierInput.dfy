/** What the verifier makes of a receipt and two scenes as the hosts return them. */
module VerifierInput {
  import opened Wrappers
  import opened Sanitizer
  import opened Evidence
  import opened Ordering
  import H = HostContract
  import V = Verification
  import opened VerifierTruth

  const OBJECTS := OtherName("objects")
  const OBJECT_ID := OtherName("id")
  const OBJECT_NAME := OtherName("name")
  const CONTENT_HASH := OtherName("content_hash")
  const MODIFIED_IDS := OtherName("modified_ids")
  const OPERATION_RESULT := OtherName("operation_result")
  const MODIFIED := OtherName("modified")
  const DOCUMENT := OtherName("document")
  const UNITS := OtherName("units")

  type Entries = map<Name, Json>

  /** The host language's texts and numbers, and what the caller asserts. */
  datatype Reader = Reader(text: H.Text, shown: Json -> string, metric: (Entries, string) -> V.Reading, assertions: V.Assertions)

  function Shown(r: Reader, v: Json): string {
    if v.Text? then v.s else r.shown(v)
  }

  /** The ids of a list, as a set is made of them: a list or mapping among them raises, and any other item that is no text
      is no object's id. */
  function IdTexts(items: seq<Json>): Option<seq<string>> {
    if exists i :: 0 <= i < |items| && (items[i].List? || items[i].Object?) then None
    else Some(seq(|items|, i requires 0 <= i < |items| => if items[i].Text? then items[i].s else ""))
  }

  /** An absent or empty value is no ids; a text is taken for the list of its characters. */
  function IdList(v: Option<Json>): Option<seq<string>> {
    if !Truthy(v) then Some([])
    else
      match v.value
      case List(items) => IdTexts(items)
      case Text(s) => Some(seq(|s|, i requires 0 <= i < |s| => [s[i]]))
      case _ => None
  }

  /** The modifications in the operation's own result count when the receipt lists none itself. */
  function ResultModified(receipt: Entries): Option<seq<string>> {
    var result := Get(Object(receipt), OPERATION_RESULT);
    if Truthy(Get(Object(receipt), MODIFIED_IDS)) || !Truthy(result) then Some([])
    else if result.value.Object? then IdList(Get(result.value, MODIFIED)) else None
  }

  function ReceiptRead(receipt: Entries): Option<V.Receipt> {
    var status := Get(Object(receipt), Status);
    var created, deleted := IdList(Get(Object(receipt), CreatedIds)), IdList(Get(Object(receipt), DeletedIds));
    var modified, result := IdList(Get(Object(receipt), MODIFIED_IDS)), ResultModified(receipt);
    if created.None? || deleted.None? || modified.None? || result.None? then None
    else Some(V.Receipt(if status.Some? && status.value.Text? then Some(status.value.s) else None,
                        created.value, deleted.value, modified.value, result.value))
  }

  function IdRead(r: Reader, o: Json): Option<string> {
    var id := Get(o, OBJECT_ID);
    if id.None? || id.value.Null? then None else Some(Shown(r, id.value))
  }

  function ObjectRead(r: Reader, o: Json): H.SceneObject {
    var name, hash := Get(o, OBJECT_NAME), Get(o, CONTENT_HASH);
    H.SceneObject(IdRead(r, o), if Truthy(name) then Shown(r, name.value) else "", "", "",
                  if Truthy(hash) then Some(Shown(r, hash.value)) else None, 0)
  }

  /** A scene's objects; None when it is no list of mappings. */
  function ObjectsOf(scene: Entries): Option<seq<Json>> {
    var objects := Get(Object(scene), OBJECTS);
    if !Truthy(objects) then Some([])
    else if objects.value.List? && forall i :: 0 <= i < |objects.value.items| ==> objects.value.items[i].Object?
    then Some(objects.value.items)
    else None
  }

  function UnitsRead(r: Reader, scene: Entries): Option<string> {
    var document := Get(Object(scene), DOCUMENT);
    var units := if Truthy(document) then Get(document.value, UNITS) else None;
    if units.None? || units.value.Null? then None else Some(Shown(r, units.value))
  }

  /** Units are only looked up when some are asserted, and raise when the document is no mapping. */
  predicate UnitsRaise(r: Reader, scene: Entries) {
    var document := Get(Object(scene), DOCUMENT);
    r.assertions.units.Some? && Truthy(document) && !document.value.Object?
  }

  function SnapshotOf(r: Reader, scene: Entries, objects: seq<Json>): V.Snapshot {
    V.Snapshot(MapSeq((o: Json) => ObjectRead(r, o), objects), UnitsRead(r, scene), (key: string) => r.metric(scene, key))
  }

  /** The verifier's case; None when reading the receipt or a scene raises. */
  function CaseOf(r: Reader, receipt: Entries, before: Entries, after: Entries): Option<V.Case> {
    var claims, prior, current := ReceiptRead(receipt), ObjectsOf(before), ObjectsOf(after);
    if claims.None? || prior.None? || current.None? || UnitsRaise(r, after) then None
    else Some(V.Case(r.text, claims.value, SnapshotOf(r, before, prior.value), SnapshotOf(r, after, current.value), r.assertions))
  }

  /** The verifier passes every check on what the hosts returned. */
  ghost predicate Verifies(r: Reader, receipt: Entries, before: Entries, after: Entries) {
    var c := CaseOf(r, receipt, before, after);
    c.Some? && V.AllHold(c.value) && !V.AnyRaises(c.value)
  }

  // ---------------------------------------------------------------- what a verified receipt says about the answers

  /** The ids a scene shows. */
  function ShownIds(r: Reader, scene: Entries): set<string>
    requires ObjectsOf(scene).Some?
  {
    set o | o in ObjectsOf(scene).value && IdRead(r, o).Some? :: IdRead(r, o).value
  }

  lemma ShownAreReal(r: Reader, scene: Entries)
    requires ObjectsOf(scene).Some?
    ensures RealIds(SnapshotOf(r, scene, ObjectsOf(scene).value)) == ShownIds(r, scene)
  {
    var objects := ObjectsOf(scene).value;
    var s := SnapshotOf(r, scene, objects);
    forall id ensures id in RealIds(s) <==> id in ShownIds(r, scene) {
      if id in RealIds(s) {
        var o :| o in s.objects && o.id == Some(id);
        var i :| 0 <= i < |objects| && s.objects[i] == o;
        assert objects[i] in objects && IdRead(r, objects[i]) == Some(id);
      }
      if id in ShownIds(r, scene) {
        var o :| o in objects && IdRead(r, o) == Some(id);
        var i :| 0 <= i < |objects| && objects[i] == o;
        assert s.objects[i] in s.objects && s.objects[i].id == Some(id);
      }
    }
  }

  /** An entry that is left out, null, or a list of texts. */
  predicate TextList(v: Option<Json>) {
    v.None? || v.value.Null? || (v.value.List? && forall i :: 0 <= i < |v.value.items| ==> v.value.items[i].Text?)
  }

  predicate Lists(v: Option<Json>, id: string) {
    v.Some? && v.value.List? && Text(id) in v.value.items
  }

  predicate ListsNothing(v: Option<Json>) {
    v.None? || !v.value.List? || v.value.items == []
  }

  /** The modifications in the operation's own result. */
  function OwnResult(receipt: Entries): Option<Json> {
    var result := Get(Object(receipt), OtherName("operation_result"));
    if result.Some? && result.value.Object? then Get(result.value, OtherName("modified")) else None
  }

  /** The receipt claims that the object was modified, and not that it was created. */
  predicate ClaimsChange(receipt: Entries, id: string) {
    var modified := Get(Object(receipt), OtherName("modified_ids"));
    (Lists(modified, id) || (ListsNothing(modified) && Lists(OwnResult(receipt), id))) && !Lists(Get(Object(receipt), CreatedIds), id)
  }

  /** The id entries of the receipt are lists of texts. */
  predicate TidyReceipt(receipt: Entries) {
    var e := Object(receipt);
    && TextList(Get(e, CreatedIds)) && TextList(Get(e, DeletedIds)) && TextList(Get(e, MODIFIED_IDS)) && TextList(OwnResult(receipt))
    && (Get(e, OPERATION_RESULT).Some? ==> Get(e, OPERATION_RESULT).value.Null? || Get(e, OPERATION_RESULT).value.Object?)
  }

  /** The scene lists mappings with textual ids and hashes. */
  predicate TidyScene(scene: Entries) {
    && OBJECTS in scene && scene[OBJECTS].List?
    && forall o :: o in scene[OBJECTS].items ==>
         && o.Object? && OBJECT_ID in o.entries && o.entries[OBJECT_ID].Text?
         && (CONTENT_HASH in o.entries ==> o.entries[CONTENT_HASH].Text?)
  }

  predicate HasId(o: Json, id: string) {
    o.Object? && OtherName("id") in o.entries && o.entries[OtherName("id")] == Text(id)
  }

  predicate Lacks(scene: Entries, id: string)
    requires TidyScene(scene)
  {
    forall o :: o in scene[OBJECTS].items ==> !HasId(o, id)
  }

  /** Both scenes list the object with a hash, and with different ones. */
  predicate HashesDiffer(before: Entries, after: Entries, id: string)
    requires TidyScene(before) && TidyScene(after)
  {
    exists o, o' :: o in before[OtherName("objects")].items && o' in after[OtherName("objects")].items && HasId(o, id) && HasId(o', id)
                    && OtherName("content_hash") in o.entries && OtherName("content_hash") in o'.entries
                    && o.entries[OtherName("content_hash")] != Text("") && o'.entries[OtherName("content_hash")] != Text("")
                    && o.entries[OtherName("content_hash")] != o'.entries[OtherName("content_hash")]
  }

  /** Every object has a non-blank id of its own. */
  predicate OwnIds(r: Reader, scene: Entries)
    requires TidyScene(scene)
  {
    var items := scene[OBJECTS].items;
    && (forall o :: o in items ==> r.text.strip(o.entries[OBJECT_ID].s) != "")
    && (forall i, j :: 0 <= i < j < |items| ==> items[i].entries[OBJECT_ID] != items[j].entries[OBJECT_ID])
  }

  lemma {:induction false} TextsRead(v: Option<Json>)
    requires TextList(v)
    ensures IdList(v).Some? && (IdList(v).value == [] <==> ListsNothing(v)) && forall id :: id in IdList(v).value <==> Lists(v, id)
  {
    if v.Some? && v.value.List? && v.value.items != [] {
      var items, ids := v.value.items, IdList(v).value;
      forall id ensures id in ids <==> Lists(v, id) {
        if id in ids { var i :| 0 <= i < |ids| && ids[i] == id; assert items[i] == Text(id); }
        if Text(id) in items { var i :| 0 <= i < |items| && items[i] == Text(id); assert ids[i] == id; }
      }
    }
  }

  /** What the receipt's entries come to. */
  lemma TidyReceiptRead(receipt: Entries)
    requires TidyReceipt(receipt)
    ensures ReceiptRead(receipt).Some?
    ensures var claims := ReceiptRead(receipt).value;
            && (claims.status == Some("completed") <==> Get(Object(receipt), Status) == Some(Text("completed")))
            && (forall id :: id in claims.created <==> Lists(Get(Object(receipt), CreatedIds), id))
            && (forall id :: id in claims.deleted <==> Lists(Get(Object(receipt), DeletedIds), id))
            && (forall id :: Claims(claims, id) && id !in claims.created <==> ClaimsChange(receipt, id))
  {
    hide IdList, TextList, Lists, ListsNothing;
    TextsRead(Get(Object(receipt), CreatedIds));
    TextsRead(Get(Object(receipt), DeletedIds));
    TextsRead(Get(Object(receipt), MODIFIED_IDS));
    TextsRead(OwnResult(receipt));
    assert ListsNothing(Get(Object(receipt), MODIFIED_IDS)) <==> !Truthy(Get(Object(receipt), MODIFIED_IDS)) by {
      EmptyIsFalse(Get(Object(receipt), MODIFIED_IDS));
    }
    NothingInNone();
    var result := Get(Object(receipt), OPERATION_RESULT);
    if result.Some? && result.value.Object? && result.value.entries == map[] { assert Get(result.value, MODIFIED) == None; }
  }

  lemma EmptyIsFalse(v: Option<Json>)
    requires TextList(v)
    ensures ListsNothing(v) <==> !Truthy(v)
  {}

  lemma NothingInNone()
    ensures ListsNothing(None) && forall id :: !Lists(None, id)
  {}

  /** A snapshot shows the ids and hashes of these objects. */
  predicate Shows(s: V.Snapshot, items: seq<Json>) {
    |s.objects| == |items| && forall i :: 0 <= i < |items| ==> ShowsOne(s.objects[i], items[i])
  }

  predicate ShowsOne(shown: H.SceneObject, o: Json) {
    && o.Object? && OBJECT_ID in o.entries && o.entries[OBJECT_ID].Text? && shown.id == Some(o.entries[OBJECT_ID].s)
    && (CONTENT_HASH in o.entries ==> o.entries[CONTENT_HASH].Text?)
    && shown.hash == if CONTENT_HASH in o.entries && o.entries[CONTENT_HASH] != Text("") then Some(o.entries[CONTENT_HASH].s) else None
  }

  /** What a tidy scene comes to. */
  lemma TidySceneRead(r: Reader, scene: Entries)
    requires TidyScene(scene)
    ensures ObjectsOf(scene).Some? && Shows(SnapshotOf(r, scene, ObjectsOf(scene).value), scene[OBJECTS].items)
  {
    var items := scene[OBJECTS].items;
    assert forall i :: 0 <= i < |items| ==> items[i] in items;
    if items == [] { assert ObjectsOf(scene) == Some([]); }
  }

  lemma ShownAt(s: V.Snapshot, items: seq<Json>, o: Json)
    requires Shows(s, items) && o in items
    ensures exists shown :: shown in s.objects && ShowsOne(shown, o)
  {
    hide ShowsOne;
    var i :| 0 <= i < |items| && items[i] == o;
    assert s.objects[i] in s.objects;
  }

  lemma ShownFrom(s: V.Snapshot, items: seq<Json>, shown: H.SceneObject)
    requires Shows(s, items) && shown in s.objects
    ensures exists o :: o in items && ShowsOne(shown, o)
  {
    hide ShowsOne;
    var i :| 0 <= i < |s.objects| && s.objects[i] == shown;
    assert items[i] in items;
  }

  lemma TidyOwnIds(r: Reader, scene: Entries, s: V.Snapshot)
    requires TidyScene(scene) && Shows(s, scene[OBJECTS].items)
    ensures WellIdentified(r.text, s) <==> OwnIds(r, scene)
  {
    hide Shows;
    var items := scene[OBJECTS].items;
    if WellIdentified(r.text, s) {
      forall o | o in items ensures r.text.strip(o.entries[OBJECT_ID].s) != "" { ShownAt(s, items, o); }
      forall i, j | 0 <= i < j < |items| ensures items[i].entries[OBJECT_ID] != items[j].entries[OBJECT_ID] { ShownPair(s, items, i, j); }
    }
    if OwnIds(r, scene) {
      forall o | o in s.objects ensures o.id.Some? && r.text.strip(o.id.value) != "" { ShownFrom(s, items, o); }
      forall i, j | 0 <= i < j < |s.objects| ensures s.objects[i].id != s.objects[j].id { ShownPair(s, items, i, j); }
    }
  }

  lemma ShownPair(s: V.Snapshot, items: seq<Json>, i: nat, j: nat)
    requires Shows(s, items) && (i < j < |items| || i < j < |s.objects|)
    ensures j < |items| == |s.objects| && ShowsOne(s.objects[i], items[i]) && ShowsOne(s.objects[j], items[j])
    ensures s.objects[i].id == s.objects[j].id <==> items[i].entries[OBJECT_ID] == items[j].entries[OBJECT_ID]
  {}

  lemma TidyIds(scene: Entries, s: V.Snapshot, id: string)
    requires TidyScene(scene) && Shows(s, scene[OBJECTS].items)
    ensures id in RealIds(s) <==> !Lacks(scene, id)
  {
    hide Shows;
    var items := scene[OBJECTS].items;
    if id in RealIds(s) { var shown :| shown in s.objects && shown.id == Some(id); ShownFrom(s, items, shown); }
    if !Lacks(scene, id) { var o :| o in items && HasId(o, id); ShownAt(s, items, o); }
  }

  lemma TidyChange(before: Entries, after: Entries, b: V.Snapshot, a: V.Snapshot, id: string)
    requires TidyScene(before) && TidyScene(after) && Shows(b, before[OBJECTS].items) && Shows(a, after[OBJECTS].items)
    ensures ShowsChange(b, a, id) <==> HashesDiffer(before, after, id)
  {
    hide Shows;
    if ShowsChange(b, a, id) {
      var o, o' :| o in b.objects && o' in a.objects && o.id == Some(id) && o'.id == Some(id)
                   && o.hash.Some? && o'.hash.Some? && o.hash.value != "" && o'.hash.value != "" && o.hash.value != o'.hash.value;
      ShownFrom(b, before[OBJECTS].items, o);
      ShownFrom(a, after[OBJECTS].items, o');
    }
    if HashesDiffer(before, after, id) {
      var o, o' :| o in before[OBJECTS].items && o' in after[OBJECTS].items && HasId(o, id) && HasId(o', id)
                   && CONTENT_HASH in o.entries && CONTENT_HASH in o'.entries
                   && o.entries[CONTENT_HASH] != Text("") && o'.entries[CONTENT_HASH] != Text("")
                   && o.entries[CONTENT_HASH] != o'.entries[CONTENT_HASH];
      ShownAt(b, before[OBJECTS].items, o);
      ShownAt(a, after[OBJECTS].items, o');
    }
  }

  /** The receipt says `completed`, every object has an id of its own, the created and deleted ids are the difference between the
      two scenes, and for everything it claims to have modified without creating it, in its own list or else in the
      operation's result, both scenes carry different hashes. */
  ghost predicate BorneOut(r: Reader, receipt: Entries, before: Entries, after: Entries)
    requires TidyReceipt(receipt) && TidyScene(before) && TidyScene(after)
  {
    && Get(Object(receipt), Status) == Some(Text("completed")) && OwnIds(r, before) && OwnIds(r, after)
    && (forall id :: Lists(Get(Object(receipt), CreatedIds), id) <==> !Lacks(after, id) && Lacks(before, id))
    && (forall id :: Lists(Get(Object(receipt), DeletedIds), id) <==> !Lacks(before, id) && Lacks(after, id))
    && (forall id :: ClaimsChange(receipt, id) ==> HashesDiffer(before, after, id))
  }

  /** On tidy answers the verifier passes a receipt only if the scenes bear it out, whatever the caller asserts, and with nothing
      asserted exactly then. */
  lemma VerifiesIff(r: Reader, receipt: Entries, before: Entries, after: Entries)
    requires TidyReceipt(receipt) && TidyScene(before) && TidyScene(after)
    ensures Verifies(r, receipt, before, after) ==> BorneOut(r, receipt, before, after)
    ensures r.assertions == V.NO_ASSERTIONS ==> (Verifies(r, receipt, before, after) <==> BorneOut(r, receipt, before, after))
  {
    hide SnapshotOf, ObjectsOf, ReceiptRead, Shows, TidyScene, TidyReceipt, WellIdentified, OwnIds, RealIds, Lacks, ShowsChange, HashesDiffer, Lists,
         ClaimsChange, V.AllHold, Claims;
    TidyReceiptRead(receipt);
    TidySceneRead(r, before);
    TidySceneRead(r, after);
    if CaseOf(r, receipt, before, after).Some? {
      var c := CaseOf(r, receipt, before, after).value;
      assert c.before == SnapshotOf(r, before, ObjectsOf(before).value) && c.after == SnapshotOf(r, after, ObjectsOf(after).value);
      TidyOwnIds(r, before, c.before);
      TidyOwnIds(r, after, c.after);
      forall id ensures (id in RealIds(c.before) <==> !Lacks(before, id)) && (id in RealIds(c.after) <==> !Lacks(after, id))
        && (ShowsChange(c.before, c.after, id) <==> HashesDiffer(before, after, id))
      {
        TidyIds(before, c.before, id);
        TidyIds(after, c.after, id);
        TidyChange(before, after, c.before, c.after, id);
      }
      VerifiedMeans(c);
      SetsBothWays(c.receipt.created, RealIds(c.after), RealIds(c.before));
      SetsBothWays(c.receipt.deleted, RealIds(c.before), RealIds(c.after));
    }
  }

  lemma SetsBothWays(ids: seq<string>, a: set<string>, b: set<string>)
    ensures (set x | x in ids) == a - b <==> forall id :: id in ids <==> id in a && id !in b
  {
    var listed := set x | x in ids;
    assert forall id :: id in listed <==> id in ids;
    if forall id :: id in ids <==> id in a && id !in b { assert listed == a - b; }
    if listed == a - b {
      forall id ensures id in ids <==> id in a && id !in b { assert id in listed <==> id in a - b; }
    }
  }

  /** A verified receipt says `completed`, and its created and deleted ids are exactly the difference between the ids of the
      two scenes the host showed. */
  lemma VerifiedDeltaIsShown(r: Reader, receipt: Entries, before: Entries, after: Entries)
    requires Verifies(r, receipt, before, after)
    ensures Says(Get(Object(receipt), Status), COMPLETED)
    ensures ObjectsOf(before).Some? && ObjectsOf(after).Some?
    ensures var created, deleted := IdList(Get(Object(receipt), CreatedIds)), IdList(Get(Object(receipt), DeletedIds));
            && created.Some? && (set x | x in created.value) == ShownIds(r, after) - ShownIds(r, before)
            && deleted.Some? && (set x | x in deleted.value) == ShownIds(r, before) - ShownIds(r, after)
  {
    hide SnapshotOf, ObjectsOf, ShownIds, RealIds, V.AllHold, IdList, ResultModified;
    VerifiedMeans(CaseOf(r, receipt, before, after).value);
    ShownAreReal(r, before);
    ShownAreReal(r, after);
  }

  // ---------------------------------------------------------------- what the caller's assertions come to

  predicate NamesAreTexts(scene: Entries)
    requires TidyScene(scene)
  {
    forall o :: o in scene[OBJECTS].items && Get(o, OtherName("name")).Some? ==> Get(o, OtherName("name")).value.Text?
  }

  predicate ShowsName(scene: Entries, name: string)
    requires TidyScene(scene)
  {
    exists o :: o in scene[OBJECTS].items && Get(o, OtherName("name")) == Some(Text(name))
  }

  /** The scene's document gives these units. */
  predicate ShowsUnits(scene: Entries, units: string) {
    var document := Get(Object(scene), OtherName("document"));
    document.Some? && Get(document.value, OtherName("units")) == Some(Text(units))
  }

  lemma NamesAreShown(r: Reader, scene: Entries, name: string)
    requires TidyScene(scene) && NamesAreTexts(scene) && name != "" && ObjectsOf(scene).Some?
    ensures Named(SnapshotOf(r, scene, ObjectsOf(scene).value), name) <==> ShowsName(scene, name)
  {
    var items := scene[OBJECTS].items;
    TidySceneRead(r, scene);
    if items == [] {
      assert ObjectsOf(scene).value == [];
    } else {
      var s := SnapshotOf(r, scene, items);
      forall i | 0 <= i < |items| ensures s.objects[i].name == name <==> Get(items[i], OtherName("name")) == Some(Text(name)) {
        assert items[i] in items;
      }
      if o :| o in items && Get(o, OtherName("name")) == Some(Text(name)) {
        var i :| 0 <= i < |items| && items[i] == o;
        assert s.objects[i].name == name;
      }
    }
  }

  /** Of a verified receipt the counts, names, units and numbers that the caller asserted are those of the scenes shown. */
  lemma AssertionsAreShown(r: Reader, receipt: Entries, before: Entries, after: Entries)
    requires TidyScene(before) && TidyScene(after) && Verifies(r, receipt, before, after)
    ensures r.assertions.delta.Some? ==> |after[OBJECTS].items| - |before[OBJECTS].items| == r.assertions.delta.value
    ensures NamesAreTexts(after) ==>
              && (forall name :: name in r.assertions.present && name != "" ==> ShowsName(after, name))
              && (forall name :: name in r.assertions.absent && name != "" ==> !ShowsName(after, name))
    ensures forall units :: r.assertions.units.Some? && ShowsUnits(after, units) ==> r.text.fold(units) == r.text.fold(r.assertions.units.value)
    ensures forall n :: n in r.assertions.numeric ==>
              r.metric(after, n.key).Number? && Within(r.metric(after, n.key).value, n.target, n.tolerance)
  {
    hide ObjectsOf, V.AllHold, V.AnyRaises, WellIdentified, RealIds, Claims, ShowsChange, ReceiptRead, Named, ShowsName, NamesAreTexts, TidyScene;
    VerifiedMeans(CaseOf(r, receipt, before, after).value);
    ScenesCount(r, before);
    ScenesCount(r, after);
    if NamesAreTexts(after) {
      forall name | name != "" ensures Named(SnapshotOf(r, after, ObjectsOf(after).value), name) <==> ShowsName(after, name) {
        NamesAreShown(r, after, name);
      }
    }
  }

  lemma ScenesCount(r: Reader, scene: Entries)
    requires TidyScene(scene)
    ensures ObjectsOf(scene).Some? && |SnapshotOf(r, scene, ObjectsOf(scene).value).objects| == |scene[OBJECTS].items|
  {
    TidySceneRead(r, scene);
  }
}
