/** The independent verifier of execution receipts, and what a verified receipt means. */
module Verification {
  import opened Wrappers
  import opened Ordering
  import opened HostContract

  /** A looked-up scene metric; converting `Unconvertible` to a number raises. */
  datatype Reading = Absent | Number(value: real) | Unconvertible

  datatype Snapshot = Snapshot(objects: seq<SceneObject>, units: Option<string>, metric: string -> Reading)

  datatype Receipt = Receipt(
    status: Option<string>, created: seq<string>, deleted: seq<string>, modified: seq<string>, resultModified: seq<string>)

  datatype Numeric = Numeric(key: string, target: real, tolerance: real)

  datatype Assertions = Assertions(
    delta: Option<int>, present: seq<string>, absent: seq<string>, units: Option<string>, numeric: seq<Numeric>)

  const NO_ASSERTIONS := Assertions(None, [], [], None, [])

  /** Everything the verifier looks at. */
  datatype Case = Case(text: Text, receipt: Receipt, before: Snapshot, after: Snapshot, assertions: Assertions)

  datatype Check =
    | ReceiptCompleted | IdsPresent(ofAfter: bool) | IdsUnique(ofAfter: bool) | CreatedMatch | DeletedMatch
    | ModifiedChanged(id: string) | CountDelta | NamePresent(name: string) | NameAbsent(name: string) | UnitsMatch
    | MetricClose(metric: Numeric)

  datatype Verdict = Verdict(verified: bool, passed: seq<Check>, failed: seq<Check>) | Raises

  const COMPLETED := "completed"

  predicate Blank(text: Text, o: SceneObject) {
    o.id.None? || text.strip(o.id.value) == ""
  }

  function Ids(text: Text, objects: seq<SceneObject>): seq<string> {
    if objects == [] then []
    else (if Blank(text, objects[0]) then [] else [objects[0].id.value]) + Ids(text, objects[1..])
  }

  function IdSet(text: Text, s: Snapshot): set<string> {
    ToSet(Ids(text, s.objects))
  }

  function ClaimedModified(r: Receipt): set<string> {
    ToSet(if r.modified != [] then r.modified else r.resultModified)
  }

  /** Objects created by the batch have no earlier hash to compare with. */
  function ToCompare(r: Receipt): set<string> {
    ClaimedModified(r) - ToSet(r.created)
  }

  predicate Hashed(o: SceneObject) {
    o.hash.Some? && o.hash.value != ""
  }

  predicate Changed(c: Case, id: string) {
    var prior, current := ById(c.before.objects), ById(c.after.objects);
    id in prior && id in current && Hashed(prior[id]) && Hashed(current[id]) && prior[id].hash != current[id].hash
  }

  predicate HasName(s: Snapshot, name: string) {
    exists o :: o in s.objects && o.name == name
  }

  /** A missing unit reads as the text "None". */
  function UnitsText(units: Option<string>): string {
    if units.Some? then units.value else "None"
  }

  function Abs(x: real): real {
    if x < 0.0 then -x else x
  }

  function Max(x: real, y: real): real {
    if x < y then y else x
  }

  /** Closeness with the host language's default relative tolerance of 1e-9. */
  predicate Close(a: real, b: real, tolerance: real) {
    Abs(a - b) <= Max(0.000000001 * Max(Abs(a), Abs(b)), tolerance)
  }

  /** No comparison with this reading and tolerance is possible. */
  predicate Unusable(reading: Reading, tolerance: real) {
    match reading
    case Absent => false
    case Number(_) => tolerance < 0.0
    case Unconvertible => true
  }

  predicate MetricRaises(c: Case, n: Numeric) {
    c.after.metric(n.key).Unconvertible? || (c.after.metric(n.key).Number? && n.tolerance < 0.0)
  }

  /** What each check is about, stated on the case alone. */
  predicate Holds(c: Case, check: Check) {
    match check
    case ReceiptCompleted => c.receipt.status == Some(COMPLETED)
    case IdsPresent(ofAfter) => forall o :: o in (if ofAfter then c.after else c.before).objects ==> !Blank(c.text, o)
    case IdsUnique(ofAfter) => Distinct(Ids(c.text, (if ofAfter then c.after else c.before).objects))
    case CreatedMatch => ToSet(c.receipt.created) == IdSet(c.text, c.after) - IdSet(c.text, c.before)
    case DeletedMatch => ToSet(c.receipt.deleted) == IdSet(c.text, c.before) - IdSet(c.text, c.after)
    case ModifiedChanged(id) => Changed(c, id)
    case CountDelta => c.assertions.delta == Some(|IdSet(c.text, c.after)| - |IdSet(c.text, c.before)|)
    case NamePresent(name) => HasName(c.after, name)
    case NameAbsent(name) => !HasName(c.after, name)
    case UnitsMatch =>
      c.assertions.units.Some? && c.text.fold(UnitsText(c.after.units)) == c.text.fold(c.assertions.units.value)
    case MetricClose(n) => c.after.metric(n.key).Number? && Close(c.after.metric(n.key).value, n.target, n.tolerance)
  }

  /** The checks a case calls for. */
  predicate Required(c: Case, check: Check) {
    match check
    case ModifiedChanged(id) => id in ToCompare(c.receipt)
    case CountDelta => c.assertions.delta.Some?
    case NamePresent(name) => name in c.assertions.present
    case NameAbsent(name) => name in c.assertions.absent
    case UnitsMatch => c.assertions.units.Some?
    case MetricClose(n) => n in c.assertions.numeric
    case _ => true
  }

  /** Checks that only ever show up as failures. */
  predicate Silent(check: Check) {
    check.IdsPresent? || check.IdsUnique?
  }

  /** Every entry is a required check with its true outcome. */
  ghost predicate Honest(c: Case, passed: seq<Check>, failed: seq<Check>) {
    && (forall k :: k in passed ==> Required(c, k) && Holds(c, k))
    && (forall k :: k in failed ==> Required(c, k) && !Holds(c, k))
  }

  predicate Decided(c: Case, passed: seq<Check>, failed: seq<Check>, check: Check) {
    check in failed || check in passed || (Silent(check) && Holds(c, check))
  }

  /** Adds the outcome of one check. */
  function Note(passed: seq<Check>, failed: seq<Check>, check: Check, ok: bool): (r: (seq<Check>, seq<Check>))
    ensures r.0 == (if ok then passed + [check] else passed) && r.1 == (if ok then failed else failed + [check])
  {
    if ok then (passed + [check], failed) else (passed, failed + [check])
  }

  /** Counts blank ids and repetitions, as the scene checks do. */
  method StableIds(text: Text, objects: seq<SceneObject>) returns (ids: seq<string>, missing: nat, repeated: int)
    ensures ids == Ids(text, objects)
    ensures missing == 0 <==> forall o :: o in objects ==> !Blank(text, o)
    ensures repeated == 0 <==> Distinct(ids)
  {
    ids, missing := [], 0;
    assert objects[0..] == objects;
    for n := 0 to |objects|
      invariant Ids(text, objects) == ids + Ids(text, objects[n..])
      invariant missing == 0 <==> forall i :: 0 <= i < n ==> !Blank(text, objects[i])
    {
      var o := objects[n];
      assert objects[n..][0] == o && objects[n..][1..] == objects[n + 1..];
      if Blank(text, o) { missing := missing + 1; } else { ids := ids + [o.id.value]; }
    }
    assert objects[|objects|..] == [];
    DistinctByCount(ids);
    repeated := |ids| - |ToSet(ids)|;
  }

  /** The least member of a nonempty set of ids. */
  method LeastId(ids: set<string>) returns (least: string)
    requires ids != {}
    ensures least in ids && forall id :: id in ids ==> TextLeq(least, id)
  {
    least :| least in ids;
    var rest := ids - {least};
    TextTotal(least, least);
    while rest != {}
      invariant rest <= ids && least in ids
      invariant forall id :: id in ids - rest ==> TextLeq(least, id)
      decreases |rest|
    {
      var id :| id in rest;
      rest := rest - {id};
      TextTotal(least, id);
      TextTotal(id, id);
      if !TextLeq(least, id) {
        forall other | other in ids - rest ensures TextLeq(id, other) {
          if other != id { TextTransitive(id, least, other); }
        }
        least := id;
      }
    }
  }

  /** Compares the hashes of every claimed modified object, in id order. */
  method CheckModified(c: Case, passed: seq<Check>, failed: seq<Check>) returns (passed': seq<Check>, failed': seq<Check>)
    requires Honest(c, passed, failed)
    ensures Honest(c, passed', failed')
    ensures forall k :: Decided(c, passed, failed, k) ==> Decided(c, passed', failed', k)
    ensures forall id :: id in ToCompare(c.receipt) ==> Decided(c, passed', failed', ModifiedChanged(id))
  {
    passed', failed' := passed, failed;
    var rest := ToCompare(c.receipt);
    var prior, current := ById(c.before.objects), ById(c.after.objects);
    while rest != {}
      invariant rest <= ToCompare(c.receipt) && Honest(c, passed', failed')
      invariant forall k :: Decided(c, passed, failed, k) ==> Decided(c, passed', failed', k)
      invariant forall id :: id in ToCompare(c.receipt) - rest ==> Decided(c, passed', failed', ModifiedChanged(id))
      decreases |rest|
    {
      var id := LeastId(rest);
      rest := rest - {id};
      var ok := id in prior && id in current && Hashed(prior[id]) && Hashed(current[id]) && prior[id].hash != current[id].hash;
      var noted := Note(passed', failed', ModifiedChanged(id), ok);
      passed', failed' := noted.0, noted.1;
    }
  }

  /** Decides required name checks of one kind, in the order given. */
  method CheckNames(c: Case, absent: bool, passed: seq<Check>, failed: seq<Check>) returns (passed': seq<Check>, failed': seq<Check>)
    requires Honest(c, passed, failed)
    ensures Honest(c, passed', failed')
    ensures forall k :: Decided(c, passed, failed, k) ==> Decided(c, passed', failed', k)
    ensures !absent ==> forall name :: name in c.assertions.present ==> Decided(c, passed', failed', NamePresent(name))
    ensures absent ==> forall name :: name in c.assertions.absent ==> Decided(c, passed', failed', NameAbsent(name))
  {
    passed', failed' := passed, failed;
    var names := if absent then c.assertions.absent else c.assertions.present;
    var found := set o | o in c.after.objects :: o.name;
    for n := 0 to |names|
      invariant Honest(c, passed', failed')
      invariant forall k :: Decided(c, passed, failed, k) ==> Decided(c, passed', failed', k)
      invariant forall i :: 0 <= i < n ==> Decided(c, passed', failed', if absent then NameAbsent(names[i]) else NamePresent(names[i]))
    {
      var check := if absent then NameAbsent(names[n]) else NamePresent(names[n]);
      assert names[n] in found <==> HasName(c.after, names[n]);
      var noted := Note(passed', failed', check, (names[n] in found) != absent);
      passed', failed' := noted.0, noted.1;
    }
  }

  /** Decides the numeric assertions; the first one that cannot be evaluated raises. */
  method CheckMetrics(c: Case, passed: seq<Check>, failed: seq<Check>)
    returns (raised: bool, passed': seq<Check>, failed': seq<Check>)
    requires Honest(c, passed, failed)
    ensures raised <==> exists n :: n in c.assertions.numeric && Unusable(c.after.metric(n.key), n.tolerance)
    ensures !raised ==> Honest(c, passed', failed')
    ensures !raised ==> forall k :: Decided(c, passed, failed, k) ==> Decided(c, passed', failed', k)
    ensures !raised ==> forall n :: n in c.assertions.numeric ==> Decided(c, passed', failed', MetricClose(n))
  {
    raised, passed', failed' := false, passed, failed;
    var numeric := c.assertions.numeric;
    for i := 0 to |numeric|
      invariant Honest(c, passed', failed')
      invariant forall k :: Decided(c, passed, failed, k) ==> Decided(c, passed', failed', k)
      invariant forall j :: 0 <= j < i ==> !MetricRaises(c, numeric[j]) && Decided(c, passed', failed', MetricClose(numeric[j]))
    {
      if MetricRaises(c, numeric[i]) { return true, [], []; }
      var actual := c.after.metric(numeric[i].key);
      var ok := actual.Number? && Close(actual.value, numeric[i].target, numeric[i].tolerance);
      var noted := Note(passed', failed', MetricClose(numeric[i]), ok);
      passed', failed' := noted.0, noted.1;
    }
  }

  ghost predicate AllHold(c: Case) {
    forall check :: Required(c, check) ==> Holds(c, check)
  }

  ghost predicate AnyRaises(c: Case) {
    exists n :: n in c.assertions.numeric && MetricRaises(c, n)
  }

  /** One scene's ids; what is wrong with them goes to the failures. */
  method CheckIds(c: Case, ofAfter: bool, passed: seq<Check>, failed: seq<Check>) returns (ids: seq<string>, failed': seq<Check>)
    requires Honest(c, passed, failed)
    ensures ids == Ids(c.text, (if ofAfter then c.after else c.before).objects)
    ensures Honest(c, passed, failed')
    ensures forall k: Check :: Decided(c, passed, failed, k) ==> Decided(c, passed, failed', k)
    ensures Decided(c, passed, failed', IdsPresent(ofAfter)) && Decided(c, passed, failed', IdsUnique(ofAfter))
  {
    var missing, repeated;
    ids, missing, repeated := StableIds(c.text, (if ofAfter then c.after else c.before).objects);
    failed' := failed;
    if missing != 0 { failed' := failed' + [IdsPresent(ofAfter)]; }
    if repeated != 0 { failed' := failed' + [IdsUnique(ofAfter)]; }
  }

  /** The receipt's state, the ids of both scenes, and the created and deleted sets. */
  method CheckSets(c: Case) returns (passed: seq<Check>, failed: seq<Check>)
    ensures Honest(c, passed, failed)
    ensures forall k: Check :: k in [ReceiptCompleted, CreatedMatch, DeletedMatch] || Silent(k) ==> Decided(c, passed, failed, k)
  {
    var ok := c.receipt.status == Some(COMPLETED);
    var noted := Note([], [], ReceiptCompleted, ok);
    assert Honest(c, noted.0, noted.1);
    hide Holds, Required, Honest;
    var beforeIds, failed1 := CheckIds(c, false, noted.0, noted.1);
    var afterIds, failed2 := CheckIds(c, true, noted.0, failed1);
    passed, failed := CheckDelta(c, ToSet(beforeIds), ToSet(afterIds), noted.0, failed2);
  }

  method CheckDelta(c: Case, before: set<string>, after: set<string>, passed: seq<Check>, failed: seq<Check>)
    returns (passed': seq<Check>, failed': seq<Check>)
    requires Honest(c, passed, failed) && before == IdSet(c.text, c.before) && after == IdSet(c.text, c.after)
    ensures Honest(c, passed', failed')
    ensures forall k: Check :: Decided(c, passed, failed, k) ==> Decided(c, passed', failed', k)
    ensures Decided(c, passed', failed', CreatedMatch) && Decided(c, passed', failed', DeletedMatch)
  {
    var created := ToSet(c.receipt.created) == after - before;
    var noted := Note(passed, failed, CreatedMatch, created);
    var deleted := ToSet(c.receipt.deleted) == before - after;
    var noted' := Note(noted.0, noted.1, DeletedMatch, deleted);
    passed', failed' := noted'.0, noted'.1;
  }

  /** The count and unit assertions, when given. */
  method CheckOptional(c: Case, passed: seq<Check>, failed: seq<Check>, units: bool) returns (passed': seq<Check>, failed': seq<Check>)
    requires Honest(c, passed, failed)
    ensures Honest(c, passed', failed')
    ensures forall k :: Decided(c, passed, failed, k) ==> Decided(c, passed', failed', k)
    ensures Required(c, if units then UnitsMatch else CountDelta) ==> Decided(c, passed', failed', if units then UnitsMatch else CountDelta)
  {
    passed', failed' := passed, failed;
    if units && c.assertions.units.Some? {
      var ok := c.text.fold(UnitsText(c.after.units)) == c.text.fold(c.assertions.units.value);
      var noted := Note(passed, failed, UnitsMatch, ok);
      passed', failed' := noted.0, noted.1;
    } else if !units && c.assertions.delta.Some? {
      var ok := c.assertions.delta.value == |IdSet(c.text, c.after)| - |IdSet(c.text, c.before)|;
      var noted := Note(passed, failed, CountDelta, ok);
      passed', failed' := noted.0, noted.1;
    }
  }

  /** The verifier decides every required check truthfully; it verifies exactly when all of them hold, and raises exactly
      when a numeric assertion cannot be evaluated. */
  method VerifyTransaction(c: Case) returns (r: Verdict)
    ensures r.Raises? <==> AnyRaises(c)
    ensures r.Raises? <==> exists n :: n in c.assertions.numeric && Unusable(c.after.metric(n.key), n.tolerance)
    ensures r.Verdict? ==> Honest(c, r.passed, r.failed) && (r.verified <==> AllHold(c)) && (r.verified <==> r.failed == [])
    ensures r.Verdict? ==> forall check :: Required(c, check) && !Silent(check) ==> check in r.passed || check in r.failed
  {
    hide Holds, Required;
    var passed, failed := CheckSets(c);
    passed, failed := CheckModified(c, passed, failed);
    assert forall id :: Required(c, ModifiedChanged(id)) ==> Decided(c, passed, failed, ModifiedChanged(id)) by { RequiredModified(c); }
    passed, failed := CheckOptional(c, passed, failed, false);
    passed, failed := CheckNames(c, false, passed, failed);
    passed, failed := CheckNames(c, true, passed, failed);
    passed, failed := CheckOptional(c, passed, failed, true);
    var raised, passed', failed' := CheckMetrics(c, passed, failed);
    if raised { return Raises; }
    forall check | Required(c, check) ensures Decided(c, passed', failed', check) {
      RequiredIsListed(c, check);
    }
    assert failed' == [] <==> AllHold(c) by { EmptyMeansAll(c, passed', failed'); }
    r := Verdict(failed' == [], passed', failed');
  }

  lemma RequiredModified(c: Case)
    ensures forall id :: Required(c, ModifiedChanged(id)) <==> id in ToCompare(c.receipt)
  {}

  lemma RequiredIsListed(c: Case, check: Check)
    requires Required(c, check)
    ensures check.NamePresent? ==> check.name in c.assertions.present
    ensures check.NameAbsent? ==> check.name in c.assertions.absent
    ensures check.MetricClose? ==> check.metric in c.assertions.numeric
  {}

  lemma EmptyMeansAll(c: Case, passed: seq<Check>, failed: seq<Check>)
    requires Honest(c, passed, failed)
    requires forall check :: Required(c, check) ==> Decided(c, passed, failed, check)
    ensures failed == [] <==> AllHold(c)
  {
    hide Required, Holds;
    if failed != [] {
      assert failed[0] in failed;
      assert Required(c, failed[0]) && !Holds(c, failed[0]);
    }
    if failed == [] {
      forall check | Required(c, check) ensures Holds(c, check) {
        assert Decided(c, passed, failed, check);
      }
    }
  }
}
