/** The host-neutral scene envelope: finalised scenes, their revision and their delta. */
module HostContract {
  import opened Wrappers
  import opened Ordering

  /** One object of a scene. `hash` is its content hash when the host gave one; `rest` stands for every other field. */
  datatype SceneObject = SceneObject(id: Option<string>, name: string, kind: string, layer: string, hash: Option<string>, rest: nat)

  /** Text operations of the host language that the contract leaves open. */
  datatype Text = Text(strip: string -> string, fold: string -> string)

  type Digest = (string, string, seq<SceneObject>) -> string

  datatype Finalized =
    | Scene(documentId: string, units: string, revision: string, objects: seq<SceneObject>)
    | BlankId
    | RepeatedId

  function IdText(o: SceneObject): string {
    if o.id.Some? then o.id.value else ""
  }

  function Stripped(text: Text, o: SceneObject): string {
    text.strip(IdText(o))
  }

  function ToSet<T(==)>(s: seq<T>): set<T> {
    set x | x in s
  }

  predicate Distinct<T(==)>(s: seq<T>) {
    forall i, j :: 0 <= i < j < |s| ==> s[i] != s[j]
  }

  function IdOrder(a: SceneObject, b: SceneObject): bool {
    TextLeq(IdText(a), IdText(b))
  }

  function FinalizeScene(text: Text, digest: Digest, documentId: string, units: string, objects: seq<SceneObject>): Finalized {
    var ids := MapSeq(o => Stripped(text, o), objects);
    if "" in ids then BlankId
    else if |ids| != |ToSet(ids)| then RepeatedId
    else
      var ordered := Sort(IdOrder, objects);
      Scene(documentId, units, digest(documentId, units, ordered), ordered)
  }

  /** Counting distinct members finds repetitions exactly. */
  lemma {:induction false} DistinctByCount<T>(s: seq<T>)
    ensures |ToSet(s)| <= |s|
    ensures |ToSet(s)| == |s| <==> Distinct(s)
  {
    if s != [] {
      var init, last := s[..|s| - 1], s[|s| - 1];
      DistinctByCount(init);
      assert s == init + [last];
      assert ToSet(s) == ToSet(init) + {last};
      if last in init {
        assert ToSet(s) == ToSet(init);
      }
    }
  }

  lemma IdOrderIsPreorder()
    ensures Preorder(IdOrder)
  {
    forall a, b ensures IdOrder(a, b) || IdOrder(b, a) { TextTotal(IdText(a), IdText(b)); }
    forall a, b, c | IdOrder(a, b) && IdOrder(b, c) ensures IdOrder(a, c) { TextTransitive(IdText(a), IdText(b), IdText(c)); }
  }

  /** A finalised scene's ids are present, distinct and in order, and its objects are the given ones. */
  lemma FinalizedIsStable(text: Text, digest: Digest, documentId: string, units: string, objects: seq<SceneObject>)
    requires FinalizeScene(text, digest, documentId, units, objects).Scene?
    ensures var scene := FinalizeScene(text, digest, documentId, units, objects);
            && multiset(scene.objects) == multiset(objects) && Sorted(IdOrder, scene.objects)
            && (forall o :: o in scene.objects ==> Stripped(text, o) != "")
            && (forall i, j :: 0 <= i < j < |scene.objects| ==> Stripped(text, scene.objects[i]) != Stripped(text, scene.objects[j]))
            && UniqueIds(scene.objects)
    ensures Untied(IdOrder, objects)
  {
    var ids := MapSeq(o => Stripped(text, o), objects);
    DistinctByCount(ids);
    IdOrderIsPreorder();
    SortSorts(IdOrder, objects);
    var ordered := Sort(IdOrder, objects);
    forall o | o in ordered ensures Stripped(text, o) != "" {
      assert o in multiset(ordered);
      var i :| 0 <= i < |objects| && objects[i] == o;
      assert ids[i] == Stripped(text, o);
    }
    StrippedDistinct(text, objects, ordered);
    forall i, j | 0 <= i < |objects| && 0 <= j < |objects| && IdOrder(objects[i], objects[j]) && IdOrder(objects[j], objects[i])
      ensures objects[i] == objects[j]
    {
      TextAntisymmetric(IdText(objects[i]), IdText(objects[j]));
      assert ids[i] == ids[j];
    }
  }

  /** The id that a scene's soundness is about. */
  function BareId(text: Text, o: SceneObject): string {
    text.strip(if o.id.Some? then o.id.value else "")
  }

  /** A scene is refused exactly for a blank id or, failing that, a repeated one; otherwise it keeps its document and units,
      its objects are in the order of their ids, and its revision is the digest of just these. */
  lemma FinalizeDecides(text: Text, digest: Digest, documentId: string, units: string, objects: seq<SceneObject>)
    ensures var r := FinalizeScene(text, digest, documentId, units, objects);
            && (r.BlankId? <==> exists i :: 0 <= i < |objects| && BareId(text, objects[i]) == "")
            && (r.RepeatedId? <==>
                  && (forall i :: 0 <= i < |objects| ==> BareId(text, objects[i]) != "")
                  && exists i, j :: 0 <= i < j < |objects| && BareId(text, objects[i]) == BareId(text, objects[j]))
            && (r.Scene? ==>
                  && r.documentId == documentId && r.units == units && r.revision == digest(documentId, units, r.objects)
                  && forall i, j :: 0 <= i < j < |r.objects| ==>
                       var a, b := r.objects[i].id, r.objects[j].id;
                       TextLeq(if a.Some? then a.value else "", if b.Some? then b.value else ""))
  {
    var ids := MapSeq(o => Stripped(text, o), objects);
    DistinctByCount(ids);
    assert forall i :: 0 <= i < |objects| ==> ids[i] == BareId(text, objects[i]);
    if FinalizeScene(text, digest, documentId, units, objects).Scene? { FinalizedIsStable(text, digest, documentId, units, objects); }
  }

  lemma StrippedDistinct(text: Text, objects: seq<SceneObject>, ordered: seq<SceneObject>)
    requires Distinct(MapSeq(o => Stripped(text, o), objects)) && multiset(ordered) == multiset(objects)
    ensures Distinct(MapSeq(o => Stripped(text, o), ordered))
  {
    var ids, ids' := MapSeq(o => Stripped(text, o), objects), MapSeq(o => Stripped(text, o), ordered);
    SameMembers(objects, ordered);
    forall x ensures x in ids <==> x in ids' {
      if x in ids { var i :| 0 <= i < |ids| && ids[i] == x; assert objects[i] in ordered; }
      if x in ids' { var i :| 0 <= i < |ids'| && ids'[i] == x; assert ordered[i] in objects; }
    }
    assert ToSet(ids) == ToSet(ids');
    DistinctByCount(ids);
    DistinctByCount(ids');
    assert |multiset(objects)| == |objects| && |multiset(ordered)| == |ordered|;
  }

  lemma SameMembers<T>(s: seq<T>, t: seq<T>)
    requires multiset(s) == multiset(t)
    ensures |s| == |t|
    ensures forall x :: x in s <==> x in t
  {
    assert |multiset(s)| == |s| && |multiset(t)| == |t|;
    forall x ensures x in s <==> x in t {
      assert x in s <==> x in multiset(s);
      assert x in t <==> x in multiset(t);
    }
  }

  /** The envelope, revision included, is the same for every order in which the host lists its objects. */
  lemma FinalizeIgnoresOrder(text: Text, digest: Digest, documentId: string, units: string, a: seq<SceneObject>, b: seq<SceneObject>)
    requires multiset(a) == multiset(b)
    ensures FinalizeScene(text, digest, documentId, units, a) == FinalizeScene(text, digest, documentId, units, b)
  {
    var ids, ids' := MapSeq(o => Stripped(text, o), a), MapSeq(o => Stripped(text, o), b);
    SameMembers(a, b);
    forall x ensures x in ids <==> x in ids' {
      if x in ids { var i :| 0 <= i < |ids| && ids[i] == x; assert a[i] in b; }
      if x in ids' { var i :| 0 <= i < |ids'| && ids'[i] == x; assert b[i] in a; }
    }
    assert ToSet(ids) == ToSet(ids');
    if FinalizeScene(text, digest, documentId, units, a).Scene? {
      FinalizedIsStable(text, digest, documentId, units, a);
      IdOrderIsPreorder();
      SortIgnoresOrder(IdOrder, a, b);
    }
  }

  ghost predicate Injective(digest: Digest) {
    forall d, u, s, d', u', s' :: digest(d, u, s) == digest(d', u', s') ==> d == d' && u == u' && s == s'
  }

  /** With an injective hash two scenes have one revision exactly when they hold the same document, units and objects. */
  lemma RevisionTellsContent(text: Text, digest: Digest, d: string, u: string, a: seq<SceneObject>, d': string, u': string, b: seq<SceneObject>)
    requires Injective(digest)
    requires FinalizeScene(text, digest, d, u, a).Scene? && FinalizeScene(text, digest, d', u', b).Scene?
    ensures FinalizeScene(text, digest, d, u, a).revision == FinalizeScene(text, digest, d', u', b).revision
       <==> d == d' && u == u' && multiset(a) == multiset(b)
  {
    FinalizedIsStable(text, digest, d, u, a);
    FinalizedIsStable(text, digest, d', u', b);
    if d == d' && u == u' && multiset(a) == multiset(b) { FinalizeIgnoresOrder(text, digest, d, u, a, b); }
  }

  // ---------------------------------------------------------------- the delta of two scenes

  /** Objects by id; a later object replaces an earlier one of the same id, objects without an id are skipped. */
  function ById(objects: seq<SceneObject>): map<string, SceneObject> {
    if objects == [] then map[]
    else
      var init, last := ById(objects[..|objects| - 1]), objects[|objects| - 1];
      if last.id.None? then init else init[last.id.value := last]
  }

  datatype Delta = Delta(created: set<string>, modified: set<string>, deleted: set<string>)

  function SceneDelta(before: seq<SceneObject>, after: seq<SceneObject>): Delta {
    var prior, current := ById(before), ById(after);
    Delta(current.Keys - prior.Keys,
          (set k | k in prior.Keys && k in current.Keys && prior[k].hash != current[k].hash),
          prior.Keys - current.Keys)
  }

  lemma {:induction false} ByIdKeys(objects: seq<SceneObject>, k: string)
    ensures k in ById(objects) <==> exists i :: 0 <= i < |objects| && objects[i].id == Some(k)
    ensures k in ById(objects) ==> ById(objects)[k] in objects && ById(objects)[k].id == Some(k)
  {
    if objects != [] {
      var init := objects[..|objects| - 1];
      ByIdKeys(init, k);
      assert objects == init + [objects[|objects| - 1]];
      if k in ById(init) {
        var i :| 0 <= i < |init| && init[i].id == Some(k);
        assert objects[i].id == Some(k);
      }
    }
  }

  /** The scene holds an object of that id. */
  predicate Shows(objects: seq<SceneObject>, k: string) {
    exists i :: 0 <= i < |objects| && objects[i].id == Some(k)
  }

  /** No two objects of the scene share an id. */
  predicate UniqueIds(objects: seq<SceneObject>) {
    forall i, j :: 0 <= i < j < |objects| && objects[i].id.Some? ==> objects[i].id != objects[j].id
  }

  /** The delta in words of the two scenes: ids that only the later holds, ids that only the earlier holds, and ids whose
      objects have different hashes. A scene whose ids repeat is no obstacle to the first two. */
  lemma DeltaMeans(before: seq<SceneObject>, after: seq<SceneObject>, k: string)
    ensures k in SceneDelta(before, after).created <==> Shows(after, k) && !Shows(before, k)
    ensures k in SceneDelta(before, after).deleted <==> Shows(before, k) && !Shows(after, k)
    ensures UniqueIds(before) && UniqueIds(after) ==>
              (k in SceneDelta(before, after).modified <==>
                 exists o, o' :: o in before && o' in after && o.id == Some(k) && o'.id == Some(k) && o.hash != o'.hash)
  {
    hide ById;
    ByIdKeys(before, k);
    ByIdKeys(after, k);
    if UniqueIds(before) && UniqueIds(after) {
      if k in ById(before) { OnlyOneOf(before, ById(before)[k], k); }
      if k in ById(after) { OnlyOneOf(after, ById(after)[k], k); }
      if o, o' :| o in before && o' in after && o.id == Some(k) && o'.id == Some(k) && o.hash != o'.hash {
        assert Shows(before, k) && Shows(after, k);
      }
    }
  }

  lemma OnlyOneOf(objects: seq<SceneObject>, o: SceneObject, k: string)
    requires UniqueIds(objects) && o in objects && o.id == Some(k)
    ensures forall o' :: o' in objects && o'.id == Some(k) ==> o' == o
  {}
}
