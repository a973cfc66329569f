/** The focused scene of a workflow query: objects ranked by how many query terms they mention. */
module Focus {
  import opened Wrappers
  import opened Ordering
  import opened HostContract

  predicate OccursAt(s: string, term: string, i: int) {
    0 <= i <= |s| - |term| && s[i..i + |term|] == term
  }

  predicate Contains(s: string, term: string) {
    exists i | 0 <= i <= |s| :: OccursAt(s, term, i)
  }

  function Haystack(text: Text, o: SceneObject): string {
    text.fold(o.name + [' '] + o.kind + [' '] + o.layer)
  }

  /** How many of the terms, repetitions included, occur in the object's text. */
  function Score(text: Text, terms: seq<string>, o: SceneObject): nat {
    if terms == [] then 0
    else (if Contains(Haystack(text, o), text.fold(terms[0])) then 1 else 0) + Score(text, terms[1..], o)
  }

  /** The id as the ranking shows it; a missing one reads "None". */
  function ShownId(o: SceneObject): string {
    if o.id.Some? then o.id.value else "None"
  }

  /** Higher score first, then id. */
  predicate Ranked(text: Text, terms: seq<string>, a: SceneObject, b: SceneObject) {
    var x, y := Score(text, terms, a), Score(text, terms, b);
    x > y || (x == y && TextLeq(ShownId(a), ShownId(b)))
  }

  function Ranking(text: Text, terms: seq<string>): (SceneObject, SceneObject) -> bool {
    (a, b) => Ranked(text, terms, a, b)
  }

  function Matching(text: Text, terms: seq<string>, s: seq<SceneObject>): seq<SceneObject> {
    if s == [] then []
    else (if Score(text, terms, s[0]) > 0 then [s[0]] else []) + Matching(text, terms, s[1..])
  }

  /** The slice `s[:limit]` of the source language: a negative limit drops from the end. */
  function Slice<T>(s: seq<T>, limit: int): seq<T> {
    if limit >= 0 then (if limit <= |s| then s[..limit] else s)
    else if -limit <= |s| then s[..|s| + limit] else []
  }

  function Positive(text: Text, terms: seq<string>, objects: seq<SceneObject>): set<SceneObject> {
    set o | o in objects && Score(text, terms, o) > 0
  }

  datatype Focused = Whole(objects: seq<SceneObject>) | Top(objects: seq<SceneObject>, count: nat)

  function Matches(text: Text, terms: seq<string>, objects: seq<SceneObject>): seq<SceneObject> {
    Matching(text, terms, Sort(Ranking(text, terms), objects))
  }

  function FocusScene(text: Text, terms: seq<string>, limit: int, objects: seq<SceneObject>): Focused {
    if terms == [] then Whole(objects)
    else
      var matches := Matches(text, terms, objects);
      Top(Slice(matches, limit), |matches|)
  }

  // ---------------------------------------------------------------- the score

  /** The folded term is a stretch of the object's folded name, kind and layer, with one space between each. */
  ghost predicate Mentions(text: Text, o: SceneObject, term: string) {
    exists left, right :: text.fold(o.name + " " + o.kind + " " + o.layer) == left + text.fold(term) + right
  }

  ghost function Mentioned(text: Text, terms: seq<string>, o: SceneObject): set<int> {
    set i | 0 <= i < |terms| && Mentions(text, o, terms[i])
  }

  /** The score counts the terms that the object mentions, a repeated term each time. */
  lemma {:induction false} ScoreCounts(text: Text, terms: seq<string>, o: SceneObject)
    ensures Score(text, terms, o) == |Mentioned(text, terms, o)|
    decreases |terms|
  {
    hide Mentions, Score;
    if terms == [] {
      NoScore(text, o);
    } else {
      var n := |terms| - 1;
      var init := terms[..n];
      ScoreCounts(text, init, o);
      ScoreOfLast(text, init, terms[n], o);
      assert terms == init + [terms[n]];
      assert Mentioned(text, terms, o) == Mentioned(text, init, o) + (if Mentions(text, o, terms[n]) then {n} else {});
    }
  }

  lemma NoScore(text: Text, o: SceneObject)
    ensures Score(text, [], o) == 0
  {}

  lemma {:induction false} ScoreOfLast(text: Text, init: seq<string>, last: string, o: SceneObject)
    ensures Score(text, init + [last], o) == Score(text, init, o) + (if Mentions(text, o, last) then 1 else 0)
    decreases |init|
  {
    hide Mentions, Contains, Haystack;
    if init == [] {
      ContainsIsMention(text, o, last);
      assert [] + [last] == [last];
    } else {
      assert (init + [last])[1..] == init[1..] + [last];
      ScoreOfLast(text, init[1..], last, o);
    }
  }

  lemma ContainsIsMention(text: Text, o: SceneObject, term: string)
    ensures Contains(Haystack(text, o), text.fold(term)) <==> Mentions(text, o, term)
  {
    var hay, needle := Haystack(text, o), text.fold(term);
    assert o.name + [' '] + o.kind + [' '] + o.layer == o.name + " " + o.kind + " " + o.layer;
    if i :| 0 <= i <= |hay| && OccursAt(hay, needle, i) {
      assert hay == hay[..i] + needle + hay[i + |needle|..];
    }
    if left, right :| hay == left + needle + right { assert OccursAt(hay, needle, |left|); }
  }

  // ---------------------------------------------------------------- the ranking

  lemma RankingIsPreorder(text: Text, terms: seq<string>)
    ensures Preorder(Ranking(text, terms))
  {
    hide Score;
    var leq := Ranking(text, terms);
    forall a, b ensures leq(a, b) || leq(b, a) { TextTotal(ShownId(a), ShownId(b)); }
    forall a, b, c | leq(a, b) && leq(b, c) ensures leq(a, c) {
      if TextLeq(ShownId(a), ShownId(b)) && TextLeq(ShownId(b), ShownId(c)) { TextTransitive(ShownId(a), ShownId(b), ShownId(c)); }
    }
  }

  predicate DistinctIds(objects: seq<SceneObject>) {
    forall i, j :: 0 <= i < j < |objects| ==> ShownId(objects[i]) != ShownId(objects[j])
  }

  lemma DistinctIdsNeverTie(text: Text, terms: seq<string>, objects: seq<SceneObject>)
    requires DistinctIds(objects)
    ensures Untied(Ranking(text, terms), objects)
  {
    hide Score;
    var leq := Ranking(text, terms);
    forall i, j | 0 <= i < |objects| && 0 <= j < |objects| && leq(objects[i], objects[j]) && leq(objects[j], objects[i])
      ensures objects[i] == objects[j]
    {
      TextAntisymmetric(ShownId(objects[i]), ShownId(objects[j]));
    }
  }

  /** The focused scene does not depend on the order in which the host lists its objects. */
  lemma FocusIgnoresOrder(text: Text, terms: seq<string>, limit: int, a: seq<SceneObject>, b: seq<SceneObject>)
    requires terms != [] && DistinctIds(a) && multiset(a) == multiset(b)
    ensures FocusScene(text, terms, limit, a) == FocusScene(text, terms, limit, b)
  {
    DistinctIdsNeverTie(text, terms, a);
    RankingIsPreorder(text, terms);
    SortIgnoresOrder(Ranking(text, terms), a, b);
  }

  // ---------------------------------------------------------------- the selection

  lemma {:induction false} MatchingKeeps(text: Text, terms: seq<string>, s: seq<SceneObject>)
    ensures forall o :: multiset(Matching(text, terms, s))[o] == if Score(text, terms, o) > 0 then multiset(s)[o] else 0
  {
    hide Score;
    if s != [] {
      MatchingKeeps(text, terms, s[1..]);
      assert s == [s[0]] + s[1..];
    }
  }

  lemma {:induction false} MatchingIsSorted(text: Text, terms: seq<string>, s: seq<SceneObject>)
    requires Sorted(Ranking(text, terms), s)
    ensures Sorted(Ranking(text, terms), Matching(text, terms, s))
    ensures forall o :: o in Matching(text, terms, s) ==> o in s && Score(text, terms, o) > 0
  {
    hide Score;
    if s != [] {
      MatchingIsSorted(text, terms, s[1..]);
      var leq, rest := Ranking(text, terms), Matching(text, terms, s[1..]);
      forall j | 0 <= j < |rest| ensures leq(s[0], rest[j]) { assert rest[j] in s[1..]; }
    }
  }

  /** All matching objects, each as often as the scene lists it, in rank order. */
  lemma MatchesAreRanked(text: Text, terms: seq<string>, objects: seq<SceneObject>)
    ensures var matches := Matches(text, terms, objects);
            && Sorted(Ranking(text, terms), matches)
            && forall o :: multiset(matches)[o] == if Score(text, terms, o) > 0 then multiset(objects)[o] else 0
  {
    RankingIsPreorder(text, terms);
    SortSorts(Ranking(text, terms), objects);
    MatchingIsSorted(text, terms, Sort(Ranking(text, terms), objects));
    MatchingKeeps(text, terms, Sort(Ranking(text, terms), objects));
  }

  /** The matches are exactly the objects with a positive score, each once. */
  lemma MatchesAreComplete(text: Text, terms: seq<string>, objects: seq<SceneObject>)
    requires DistinctIds(objects)
    ensures forall o :: o in Matches(text, terms, objects) <==> o in objects && Score(text, terms, o) > 0
    ensures |Matches(text, terms, objects)| == |Positive(text, terms, objects)|
  {
    hide Score, Matches, Ranked;
    MatchesAreRanked(text, terms, objects);
    var matches := Matches(text, terms, objects);
    forall o ensures o in matches <==> o in objects && Score(text, terms, o) > 0 {
      assert o in matches <==> o in multiset(matches);
      assert o in objects <==> o in multiset(objects);
    }
    MatchesAreDistinct(text, terms, objects);
    DistinctByCount(matches);
    assert ToSet(matches) == Positive(text, terms, objects);
  }

  /** A prefix of a sorted sequence outranks everything it leaves out. */
  lemma PrefixOutranks<T>(leq: (T, T) -> bool, s: seq<T>, n: nat)
    requires Sorted(leq, s) && n <= |s|
    ensures Sorted(leq, s[..n])
    ensures forall o, o' :: o in s[..n] && o' in s && o' !in s[..n] ==> leq(o, o')
  {
    forall o, o' | o in s[..n] && o' in s && o' !in s[..n] ensures leq(o, o') {
      var i :| 0 <= i < n && s[i] == o;
      var j :| 0 <= j < |s| && s[j] == o';
      assert forall k :: 0 <= k < n ==> s[k] == s[..n][k];
    }
  }

  /** How many of `count` matches a limit lets through; a negative one leaves out that many of the last. */
  function Shown(count: nat, limit: int): nat {
    if 0 <= limit <= count then limit else if limit > count then count else if -limit <= count then count + limit else 0
  }

  lemma FocusIsRanked(text: Text, terms: seq<string>, limit: int, objects: seq<SceneObject>)
    requires terms != [] && DistinctIds(objects)
    ensures var r := FocusScene(text, terms, limit, objects);
            && r.Top? && |r.objects| == Shown(r.count, limit)
            && Sorted(Ranking(text, terms), r.objects)
            && r.count == |Positive(text, terms, objects)|
            && (forall o :: o in r.objects ==> o in objects && Score(text, terms, o) > 0)
            && (forall o, o' :: o in r.objects && o' in objects && o' !in r.objects && Score(text, terms, o') > 0 ==> Ranked(text, terms, o, o'))
  {
    hide Score, Ranked, Matches;
    MatchesAreRanked(text, terms, objects);
    MatchesAreComplete(text, terms, objects);
    var matches := Matches(text, terms, objects);
    var n := Shown(|matches|, limit);
    assert FocusScene(text, terms, limit, objects).objects == matches[..n];
    PrefixOutranks(Ranking(text, terms), matches, n);
    assert forall o :: o in matches[..n] ==> o in matches;
  }

  /** The best `limit` matches are returned, under a negative limit all but that many of the last, higher scores first and then
      by id; every omitted object that matches comes after every returned one in that order; and the count tells how many
      objects matched. Without terms the scene stays whole. */
  lemma FocusReturnsTheTop(text: Text, terms: seq<string>, limit: int, objects: seq<SceneObject>)
    requires DistinctIds(objects)
    ensures terms == [] ==> FocusScene(text, terms, limit, objects) == Whole(objects)
    ensures terms != [] ==>
            var r := FocusScene(text, terms, limit, objects);
            && r.Top? && |r.objects| == Shown(r.count, limit)
            && r.count == |Positive(text, terms, objects)|
            && (forall o :: o in r.objects ==> o in objects && Score(text, terms, o) > 0)
            && (forall i, j :: 0 <= i < j < |r.objects| ==>
                  var x, y := Score(text, terms, r.objects[i]), Score(text, terms, r.objects[j]);
                  var a, b := r.objects[i].id, r.objects[j].id;
                  x > y || (x == y && TextLeq(if a.Some? then a.value else "None", if b.Some? then b.value else "None")))
            && (forall o, o' :: o in r.objects && o' in objects && o' !in r.objects && Score(text, terms, o') > 0 ==>
                  var x, y := Score(text, terms, o), Score(text, terms, o');
                  x > y || (x == y && TextLeq(if o.id.Some? then o.id.value else "None", if o'.id.Some? then o'.id.value else "None")))
  {
    hide Score, FocusScene, TextLeq;
    if terms == [] {
      WithoutTerms(text, limit, objects);
    } else {
      FocusIsRanked(text, terms, limit, objects);
      var r := FocusScene(text, terms, limit, objects).objects;
      assert forall i, j :: 0 <= i < j < |r| ==> Ranking(text, terms)(r[i], r[j]);
    }
  }

  lemma WithoutTerms(text: Text, limit: int, objects: seq<SceneObject>)
    ensures FocusScene(text, [], limit, objects) == Whole(objects)
  {}

  lemma MatchesAreDistinct(text: Text, terms: seq<string>, objects: seq<SceneObject>)
    requires DistinctIds(objects)
    ensures Distinct(Matches(text, terms, objects))
  {
    hide Score, Matches;
    MatchesAreRanked(text, terms, objects);
    var matches := Matches(text, terms, objects);
    forall i, j | 0 <= i < j < |matches| ensures matches[i] != matches[j] {
      if matches[i] == matches[j] {
        TwiceCounts(matches, i, j);
        OnceCounts(objects, matches[i]);
      }
    }
  }

  lemma TwiceCounts(s: seq<SceneObject>, i: nat, j: nat)
    requires i < j < |s| && s[i] == s[j]
    ensures multiset(s)[s[i]] >= 2
  {
    assert s == s[..i] + [s[i]] + s[i + 1..j] + [s[j]] + s[j + 1..];
  }

  lemma {:induction false} OnceCounts(s: seq<SceneObject>, o: SceneObject)
    requires DistinctIds(s)
    ensures multiset(s)[o] <= 1
  {
    if s != [] {
      OnceCounts(s[1..], o);
      assert s == [s[0]] + s[1..];
      if s[0] == o {
        forall i | 0 <= i < |s[1..]| ensures s[1..][i] != o { assert s[1..][i] == s[i + 1]; }
        assert o !in s[1..];
      }
    }
  }
}
