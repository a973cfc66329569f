/** What every schedule of the Blender and FreeCAD gateways keeps. */
module LockedProofs {
  import opened Wrappers
  import opened HostContract
  import opened LockedGateway

  lemma InitialInv(w: World)
    ensures Inv(w, Initial()) && LogOk(w, Initial())
  {}

  lemma InvCaller(w: World, s: State, c: Caller)
    requires Inv(w, s)
    ensures CallerOk(w, s, c)
  {}

  // ---------------------------------------------------------------- what other callers keep

  /** Nothing ran, nothing was sent, receipts were only added, and no other caller moved. */
  ghost predicate SameRest(s: State, s': State, c: Caller) {
    && s'.ran == s.ran && s'.sends == s.sends && (forall d :: d != c ==> At(s', d) == At(s, d))
    && (forall key :: key in s.receipts ==> key in s'.receipts && s'.receipts[key] == s.receipts[key])
  }

  lemma StraysStay(s: State, s': State, c: Caller, d: Caller, m: nat, n: nat)
    requires s.ran <= s'.ran && OnlyStrays(s, d, m, n) && (Lost(s, c) ==> Lost(s', c)) && forall e :: e != c ==> At(s', e) == At(s, e)
    ensures OnlyStrays(s', d, m, n)
  {
    forall i | m <= i < n && s'.ran[i] != d ensures Lost(s', s'.ran[i]) {
      assert s'.ran[i] == s.ran[i] && Lost(s, s.ran[i]);
    }
  }

  /** A read or a finished receipt stays what it was when more scripts run and others move. */
  lemma SpansStays(w: World, s: State, s': State, c: Caller, d: Caller, m: nat, n: nat, delta: Delta)
    requires s.ran <= s'.ran && Spans(w, s, d, m, n, delta) && (Lost(s, c) ==> Lost(s', c)) && forall e :: e != c ==> At(s', e) == At(s, e)
    ensures Spans(w, s', d, m, n, delta)
  {
    hide SceneAfter, SceneDelta, OnlyStrays;
    StraysStay(s, s', c, d, m, n);
    assert s'.ran[..m] == s.ran[..m] && s'.ran[..n] == s.ran[..n] && s'.ran[m..n] == s.ran[m..n];
  }

  lemma ReceiptStays(w: World, s: State, s': State, c: Caller, d: Caller, r: Receipt)
    requires s.ran <= s'.ran && s.sends <= s'.sends && ReceiptOk(w, s, d, r) && SentAtMostOnce(s', d)
    requires (Lost(s, c) ==> Lost(s', c)) && forall e :: e != c ==> At(s', e) == At(s, e)
    requires forall key :: key in s.receipts ==> key in s'.receipts && s'.receipts[key] == s.receipts[key]
    ensures ReceiptOk(w, s', d, r)
  {
    hide Spans, Lost;
    if r.status == Completed {
      var m: nat, n: nat :| Spans(w, s, d, m, n, r.delta);
      SpansStays(w, s, s', c, d, m, n, r.delta);
      assert d in s.sends && d in s.ran;
    }
  }

  lemma SenderStays(w: World, s: State, s': State, c: Caller, d: Caller, before: seq<SceneObject>)
    requires s.ran <= s'.ran && s.sends <= s'.sends && SenderOk(w, s, d, before) && SentAtMostOnce(s', d)
    requires (Lost(s, c) ==> Lost(s', c)) && forall e :: e != c ==> At(s', e) == At(s, e)
    requires forall i :: |s.ran| <= i < |s'.ran| && s'.ran[i] != d ==> Lost(s', s'.ran[i])
    ensures SenderOk(w, s', d, before)
  {
    hide SceneAfter, Lost;
    assert d in s'.sends;
    var m: nat :| ReadAt(w, s, d, m, before) && d !in s.ran[..m] && OnlyStrays(s, d, m, |s.ran|);
    StraysStay(s, s', c, d, m, |s.ran|);
    assert s'.ran[..m] == s.ran[..m];
    assert ReadAt(w, s', d, m, before) && d !in s'.ran[..m] && OnlyStrays(s', d, m, |s'.ran|);
  }

  lemma StaleStays(w: World, s: State, s': State, d: Caller)
    requires s.ran <= s'.ran && StaleAt(w, s, d)
    ensures StaleAt(w, s', d)
  {
    hide SceneAfter;
    var m: nat :| m <= |s.ran| && SceneAfter(w, s.ran[..m]).Scene?
                  && w.requests(d).expected !in {None, Some(SceneAfter(w, s.ran[..m]).revision)};
    assert s'.ran[..m] == s.ran[..m];
  }

  /** `c` moves, stores at most its own receipt, and everybody else's obligations stay met. */
  lemma OtherKeeps(w: World, s: State, s': State, c: Caller, d: Caller)
    requires Inv(w, s) && SameRest(s, s', c) && d != c && !Lost(s, c)
    requires s'.lock == s.lock || (s.lock == None && s'.lock == Some(c)) || (s.lock == Some(c) && s'.lock == None)
    requires Critical(At(s, d)) ==> s'.receipts == s.receipts
    ensures CallerOk(w, s', d)
  {
    hide Inv, ReceiptOk, SenderOk, StaleAt, Lost;
    InvCaller(w, s, d);
    match At(s, d)
    case Sending(before) => SenderOnce(w, s, d, before); SenderStays(w, s, s', c, d, before);
    case ReadingAfter(before) => SenderOnce(w, s, d, before); SenderStays(w, s, s', c, d, before);
    case Done(answer) =>
      if answer.Own? { ReceiptSentOnce(w, s, d, answer.receipt); ReceiptStays(w, s, s', c, d, answer.receipt); }
      if answer.Stale? { StaleStays(w, s, s', d); }
    case _ =>
  }

  /** `c` moves without sending or storing anything. */
  lemma MoveKeepsInv(w: World, s: State, c: Caller, s': State)
    requires Inv(w, s) && !At(s, c).Done? && At(s, c) != Cancelled
    requires s' == Move(s, c, At(s', c)).(lock := s'.lock) && CallerOk(w, s', c)
    requires s'.lock == s.lock || (s.lock == None && s'.lock == Some(c)) || (s.lock == Some(c) && s'.lock == None)
    ensures Inv(w, s')
  {
    hide CallerOk;
    forall d ensures CallerOk(w, s', d) { if d != c { OtherKeeps(w, s, s', c, d); } }
    forall key ensures KeyOk(w, s', key) { assert KeyOk(w, s, key); }
  }

  lemma SettleKeepsInv(w: World, s: State, c: Caller, status: Status, delta: Delta)
    requires Inv(w, s) && Critical(At(s, c))
    requires status == Completed ==> c in s.sends && c in s.ran && exists m: nat, n: nat :: Spans(w, s, c, m, n, delta)
    requires status == Unknown ==> delta == NO_DELTA
    ensures Inv(w, Settle(w, s, c, status, delta))
  {
    hide CallerOk;
    var s' := Settle(w, s, c, status, delta);
    forall d ensures CallerOk(w, s', d) {
      if d == c { SettledCaller(w, s, c, status, delta); } else { SettleKeepsOther(w, s, c, status, delta, d); }
    }
    forall key ensures KeyOk(w, s', key) { assert KeyOk(w, s, key); InvCaller(w, s, c); CriticalFacts(w, s, c); }
  }

  lemma CriticalFacts(w: World, s: State, c: Caller)
    requires CallerOk(w, s, c) && Critical(At(s, c))
    ensures s.lock == Some(c) && w.Key(c) !in s.receipts && !w.requests(c).dryRun && SentAtMostOnce(s, c)
  {}

  lemma SettleKeepsOther(w: World, s: State, c: Caller, status: Status, delta: Delta, d: Caller)
    requires Inv(w, s) && Critical(At(s, c)) && d != c
    ensures CallerOk(w, Settle(w, s, c, status, delta), d)
  {
    hide Inv, CallerOk;
    InvCaller(w, s, c);
    CriticalFacts(w, s, c);
    assert !Critical(At(s, d)) by { InvCaller(w, s, d); if Critical(At(s, d)) { CriticalFacts(w, s, d); } }
    OtherKeeps(w, s, Settle(w, s, c, status, delta), c, d);
  }

  lemma SettledCaller(w: World, s: State, c: Caller, status: Status, delta: Delta)
    requires Inv(w, s) && Critical(At(s, c))
    requires status == Completed ==> c in s.sends && c in s.ran && exists m: nat, n: nat :: Spans(w, s, c, m, n, delta)
    requires status == Unknown ==> delta == NO_DELTA
    ensures CallerOk(w, Settle(w, s, c, status, delta), c)
  {
    hide Inv, Spans;
    InvCaller(w, s, c);
    CriticalFacts(w, s, c);
    var s' := Settle(w, s, c, status, delta);
    if status == Completed {
      var m: nat, n: nat :| Spans(w, s, c, m, n, delta);
      SpansStays(w, s, s', c, c, m, n, delta);
    }
  }

  lemma SendKeepsInv(w: World, s: State, c: Caller)
    requires Inv(w, s) && At(s, c) == Reading && SceneAfter(w, s.ran).Scene?
    requires w.requests(c).expected in {None, Some(SceneAfter(w, s.ran).revision)}
    ensures Inv(w, Move(s, c, Sending(SceneAfter(w, s.ran).objects)).(sends := s.sends + [c]))
  {
    hide CallerOk, SceneAfter;
    var s' := Move(s, c, Sending(SceneAfter(w, s.ran).objects)).(sends := s.sends + [c]);
    forall d ensures CallerOk(w, s', d) {
      if d == c { SentCaller(w, s, c); } else { SendKeepsOther(w, s, s', c, d); }
    }
    forall key ensures KeyOk(w, s', key) { assert KeyOk(w, s, key); }
    assert RunsOk(s') by { assert forall i :: 0 <= i < |s.ran| ==> s.ran[i] in s.sends; }
  }

  lemma SentCaller(w: World, s: State, c: Caller)
    requires Inv(w, s) && At(s, c) == Reading && SceneAfter(w, s.ran).Scene?
    requires w.requests(c).expected in {None, Some(SceneAfter(w, s.ran).revision)}
    ensures CallerOk(w, Move(s, c, Sending(SceneAfter(w, s.ran).objects)).(sends := s.sends + [c]), c)
  {
    hide SceneAfter, Lost;
    InvCaller(w, s, c);
    var s' := Move(s, c, Sending(SceneAfter(w, s.ran).objects)).(sends := s.sends + [c]);
    assert s'.sends[|s.sends|] == c;
    assert s.ran[..|s.ran|] == s.ran;
    assert ReadAt(w, s', c, |s.ran|, SceneAfter(w, s.ran).objects);
    assert forall i :: 0 <= i < |s.ran| ==> s.ran[i] in s.sends && s.ran[i] != c;
  }

  lemma SendKeepsOther(w: World, s: State, s': State, c: Caller, d: Caller)
    requires Inv(w, s) && At(s, c) == Reading && d != c && At(s', c).Sending? && s' == Move(s, c, At(s', c)).(sends := s.sends + [c])
    ensures CallerOk(w, s', d)
  {
    hide Inv, ReceiptOk, SenderOk, StaleAt, Lost;
    InvCaller(w, s, c);
    InvCaller(w, s, d);
    assert d in s.sends <==> d in s'.sends;
    assert SentAtMostOnce(s, d) ==> SentAtMostOnce(s', d);
    match At(s, d)
    case Done(answer) =>
      if answer.Own? { ReceiptSentOnce(w, s, d, answer.receipt); NotLost(s, c); ReceiptStays(w, s, s', c, d, answer.receipt); }
      if answer.Stale? { StaleStays(w, s, s', d); }
    case _ =>
  }

  lemma NotLost(s: State, c: Caller)
    requires !At(s, c).Done? && At(s, c) != Cancelled
    ensures !Lost(s, c)
  {}

  lemma ReceiptSentOnce(w: World, s: State, c: Caller, r: Receipt)
    requires ReceiptOk(w, s, c, r)
    ensures SentAtMostOnce(s, c)
  {}

  // ---------------------------------------------------------------- scripts that run

  /** A script that has been sent and not run is that of the lock holder or a lost one. */
  lemma WhoMayRun(w: World, s: State, c: Caller)
    requires Inv(w, s) && c in s.sends && c !in s.ran
    ensures At(s, c).Sending? || Lost(s, c)
  {
    InvCaller(w, s, c);
  }

  lemma RunKeepsCaller(w: World, s: State, c: Caller, d: Caller)
    requires Inv(w, s) && c in s.sends && c !in s.ran
    ensures CallerOk(w, s.(ran := s.ran + [c]), d)
  {
    hide Inv, ReceiptOk, SenderOk, StaleAt, Lost;
    InvCaller(w, s, d);
    var s' := s.(ran := s.ran + [c]);
    SameCallers(s, s');
    match At(s, d)
    case Sending(before) => RunBesideSender(w, s, c, d); SenderOnce(w, s, d, before); SenderStays(w, s, s', c, d, before);
    case ReadingAfter(before) => RunBesideSender(w, s, c, d); SenderOnce(w, s, d, before); SenderStays(w, s, s', c, d, before);
    case Done(answer) =>
      if answer.Own? { ReceiptSentOnce(w, s, d, answer.receipt); ReceiptStays(w, s, s', c, d, answer.receipt); }
      if answer.Stale? { StaleStays(w, s, s', d); }
    case _ =>
  }

  lemma SameCallers(s: State, s': State)
    requires s'.callers == s.callers
    ensures forall c :: At(s', c) == At(s, c) && Lost(s', c) == Lost(s, c)
  {}

  lemma SenderOnce(w: World, s: State, c: Caller, before: seq<SceneObject>)
    requires SenderOk(w, s, c, before)
    ensures SentAtMostOnce(s, c)
  {}

  lemma RunBesideSender(w: World, s: State, c: Caller, d: Caller)
    requires Inv(w, s) && c in s.sends && c !in s.ran && Critical(At(s, d))
    ensures c != d ==> Lost(s, c)
  {
    hide Inv, SenderOk, ReceiptOk;
    WhoMayRun(w, s, c);
    InvCaller(w, s, c);
    InvCaller(w, s, d);
  }

  lemma RunsKeepsInv(w: World, s: State, c: Caller)
    requires Inv(w, s) && c in s.sends && c !in s.ran
    ensures Inv(w, s.(ran := s.ran + [c]))
  {
    hide CallerOk;
    var s' := s.(ran := s.ran + [c]);
    forall d ensures CallerOk(w, s', d) { RunKeepsCaller(w, s, c, d); }
    forall key ensures KeyOk(w, s', key) { assert KeyOk(w, s, key); }
  }

  // ---------------------------------------------------------------- one event, every schedule

  lemma StartKeepsInv(w: World, s: State, c: Caller)
    requires Inv(w, s) && At(s, c) == Idle
    ensures Inv(w, Step(w, s, Start(c)))
  {
    hide Inv, KeyOk;
    InvCaller(w, s, c);
    MoveKeepsInv(w, s, c, Step(w, s, Start(c)));
  }

  lemma AcquireKeepsInv(w: World, s: State, c: Caller)
    requires Inv(w, s) && At(s, c) == WantLock && s.lock == None
    ensures Inv(w, Step(w, s, Acquire(c)))
  {
    hide Inv, KeyOk;
    InvCaller(w, s, c);
    MoveKeepsInv(w, s, c, Step(w, s, Acquire(c)));
  }

  lemma DecideKeepsInv(w: World, s: State, c: Caller)
    requires Inv(w, s) && At(s, c) == Reading
    ensures Inv(w, Decide(w, s, c))
  {
    hide Inv, KeyOk, Settle, SceneAfter;
    InvCaller(w, s, c);
    var scene := SceneAfter(w, s.ran);
    if !scene.Scene? { SettleKeepsInv(w, s, c, Unknown, NO_DELTA); }
    else if w.requests(c).expected.Some? && w.requests(c).expected.value != scene.revision {
      assert s.ran[..|s.ran|] == s.ran;
      assert StaleAt(w, Decide(w, s, c), c);
      MoveKeepsInv(w, s, c, Decide(w, s, c));
    } else { SendKeepsInv(w, s, c); }
  }

  lemma RepliesKeepsInv(w: World, s: State, c: Caller)
    requires Inv(w, s) && At(s, c).Sending? && c in s.ran
    ensures Inv(w, Move(s, c, ReadingAfter(At(s, c).before)))
  {
    hide Inv, KeyOk, SenderOk;
    InvCaller(w, s, c);
    var s' := Move(s, c, ReadingAfter(At(s, c).before));
    SenderOnce(w, s, c, At(s, c).before);
    SenderStays(w, s, s', c, c, At(s, c).before);
    MoveKeepsInv(w, s, c, s');
  }

  lemma CompleteKeepsInv(w: World, s: State, c: Caller)
    requires Inv(w, s) && At(s, c).ReadingAfter?
    ensures Inv(w, Complete(w, s, c, At(s, c).before))
  {
    hide Inv, KeyOk, Settle, SceneAfter, SceneDelta, OnlyStrays;
    InvCaller(w, s, c);
    var before, scene, n := At(s, c).before, SceneAfter(w, s.ran), |s.ran|;
    if scene.Scene? {
      var m: nat :| ReadAt(w, s, c, m, before) && c !in s.ran[..m] && OnlyStrays(s, c, m, n);
      assert s.ran[..n] == s.ran && s.ran == s.ran[..m] + s.ran[m..n];
      assert Spans(w, s, c, m, n, SceneDelta(before, scene.objects));
      SettleKeepsInv(w, s, c, Completed, SceneDelta(before, scene.objects));
    } else {
      SettleKeepsInv(w, s, c, Unknown, NO_DELTA);
    }
  }

  lemma CancelKeepsInv(w: World, s: State, c: Caller)
    requires Inv(w, s) && (Critical(At(s, c)) || At(s, c) == WantLock)
    ensures Inv(w, Step(w, s, Cancel(c)))
  {
    hide Inv, KeyOk;
    InvCaller(w, s, c);
    MoveKeepsInv(w, s, c, Step(w, s, Cancel(c)));
  }

  lemma StepKeepsInv(w: World, s: State, e: Event)
    requires Inv(w, s)
    ensures Inv(w, Step(w, s, e))
  {
    hide Inv, Settle, Decide, Complete;
    var c := e.c;
    match e
    case Start(_) => if At(s, c) == Idle { StartKeepsInv(w, s, c); }
    case Acquire(_) => if At(s, c) == WantLock && s.lock == None { AcquireKeepsInv(w, s, c); }
    case ReadBefore(_) => if At(s, c) == Reading { DecideKeepsInv(w, s, c); }
    case Runs(_) => if c in s.sends && c !in s.ran { RunsKeepsInv(w, s, c); }
    case Replies(_) => if At(s, c).Sending? && c in s.ran { RepliesKeepsInv(w, s, c); }
    case ReadAfter(_) => if At(s, c).ReadingAfter? { CompleteKeepsInv(w, s, c); }
    case Fail(_) => if Critical(At(s, c)) { SettleKeepsInv(w, s, c, Unknown, NO_DELTA); }
    case Cancel(_) => if Critical(At(s, c)) || At(s, c) == WantLock { CancelKeepsInv(w, s, c); }
  }

  lemma StepKeepsLog(w: World, s: State, e: Event)
    requires Inv(w, s) && LogOk(w, s)
    ensures LogOk(w, Step(w, s, e))
  {
    hide Inv, SenderOk, Spans, SceneAfter, SceneDelta;
    var s' := Step(w, s, e);
    forall i, j | 0 <= i < j < |s'.sends| && w.Key(s'.sends[i]) == w.Key(s'.sends[j]) ensures At(s', s'.sends[i]) == Cancelled {
      InvCaller(w, s, e.c);
      InvCaller(w, s, s.sends[i]);
      if j < |s.sends| { assert At(s, s.sends[i]) == Cancelled; }
    }
  }

  lemma {:induction false} RunKeepsInv(w: World, s: State, schedule: seq<Event>)
    requires Inv(w, s) && LogOk(w, s)
    ensures Inv(w, Run(w, s, schedule)) && LogOk(w, Run(w, s, schedule))
    decreases |schedule|
  {
    hide Step, Inv, LogOk;
    if schedule != [] {
      StepKeepsInv(w, s, schedule[0]);
      StepKeepsLog(w, s, schedule[0]);
      RunKeepsInv(w, Step(w, s, schedule[0]), schedule[1..]);
    }
  }

  // ---------------------------------------------------------------- what every run keeps

  function After(w: World, schedule: seq<Event>): State {
    Run(w, Initial(), schedule)
  }

  lemma InvAfter(w: World, schedule: seq<Event>)
    ensures Inv(w, After(w, schedule)) && LogOk(w, After(w, schedule))
  {
    InitialInv(w);
    RunKeepsInv(w, Initial(), schedule);
  }

  /** Two sends under one key, under any schedule: they came from two callers, and the earlier one was cancelled. */
  lemma SecondSendNeedsCancellation(w: World, schedule: seq<Event>, i: nat, j: nat)
    requires var s := After(w, schedule); i < j < |s.sends| && w.Key(s.sends[i]) == w.Key(s.sends[j])
    ensures var s := After(w, schedule); s.sends[i] != s.sends[j] && At(s, s.sends[i]) == Cancelled
  {
    hide Run, SenderOk, ReceiptOk;
    InvAfter(w, schedule);
    var s := After(w, schedule);
    assert CallerOk(w, s, s.sends[i]);
  }

  lemma {:induction false} OnlyCancelCancels(w: World, s: State, schedule: seq<Event>, c: Caller)
    requires forall e :: e in schedule ==> !e.Cancel?
    requires At(s, c) != Cancelled
    ensures At(Run(w, s, schedule), c) != Cancelled
    decreases |schedule|
  {
    if schedule != [] {
      assert schedule[0] in schedule;
      OnlyCancelCancels(w, Step(w, s, schedule[0]), schedule[1..], c);
    }
  }

  /** Without cancellation the script of a key is sent at most once, whatever the transport does. */
  lemma AtMostOneSend(w: World, schedule: seq<Event>, i: nat, j: nat)
    requires forall e :: e in schedule ==> !e.Cancel?
    requires var s := After(w, schedule);
             i < |s.sends| && j < |s.sends| && w.Key(s.sends[i]) == w.Key(s.sends[j])
    ensures i == j
  {
    hide Run, Step;
    var s := After(w, schedule);
    OnlyCancelCancels(w, Initial(), schedule, s.sends[i]);
    OnlyCancelCancels(w, Initial(), schedule, s.sends[j]);
    if i < j { SecondSendNeedsCancellation(w, schedule, i, j); }
    else if j < i { SecondSendNeedsCancellation(w, schedule, j, i); }
  }

  /** At some point of the document's history a scene read showed a revision the call accepts. */
  ghost predicate FoundExpected(w: World, s: State, c: Caller) {
    exists m: nat :: m <= |s.ran| && SceneAfter(w, s.ran[..m]).Scene?
                     && w.requests(c).expected in {None, Some(SceneAfter(w, s.ran[..m]).revision)}
  }

  lemma FoundStays(w: World, s: State, s': State, c: Caller)
    requires FoundExpected(w, s, c) && s.ran <= s'.ran
    ensures FoundExpected(w, s', c)
  {
    hide SceneAfter;
    var m: nat :| m <= |s.ran| && SceneAfter(w, s.ran[..m]).Scene?
                  && w.requests(c).expected in {None, Some(SceneAfter(w, s.ran[..m]).revision)};
    assert s'.ran[..m] == s.ran[..m];
  }

  lemma StepKeepsReason(w: World, s: State, e: Event, c: Caller)
    requires c in s.sends ==> FoundExpected(w, s, c)
    ensures c in Step(w, s, e).sends ==> FoundExpected(w, Step(w, s, e), c)
  {
    hide SceneAfter, SceneDelta, FoundExpected;
    var s' := Step(w, s, e);
    if c in s.sends { FoundStays(w, s, s', c); }
    else if c in s'.sends { FoundNow(w, s, c); FoundStays(w, s, s', c); }
  }

  lemma FoundNow(w: World, s: State, c: Caller)
    requires SceneAfter(w, s.ran).Scene? && w.requests(c).expected in {None, Some(SceneAfter(w, s.ran).revision)}
    ensures FoundExpected(w, s, c)
  {
    hide SceneAfter;
    assert s.ran[..|s.ran|] == s.ran;
  }

  lemma {:induction false} RunKeepsReason(w: World, s: State, schedule: seq<Event>, c: Caller)
    requires c in s.sends ==> FoundExpected(w, s, c)
    ensures c in Run(w, s, schedule).sends ==> FoundExpected(w, Run(w, s, schedule), c)
    decreases |schedule|
  {
    hide Step, FoundExpected;
    if schedule != [] {
      StepKeepsReason(w, s, schedule[0], c);
      RunKeepsReason(w, Step(w, s, schedule[0]), schedule[1..], c);
    }
  }

  /** A script only goes out after a scene read of the expected revision, and a call is only refused as stale after one of
      another revision. */
  lemma RevisionsDecide(w: World, schedule: seq<Event>, c: Caller)
    ensures var s := After(w, schedule);
            && (c in s.sends ==> FoundExpected(w, s, c))
            && (At(s, c) == Done(Stale) ==> StaleAt(w, s, c) && c !in s.sends)
  {
    hide Run, Step, FoundExpected, StaleAt, SenderOk, ReceiptOk;
    RunKeepsReason(w, Initial(), schedule, c);
    InvAfter(w, schedule);
    assert CallerOk(w, After(w, schedule), c);
  }

  /** Where a call stands, by its request alone: refused exactly if it is invalid, validated only if it is a dry run, and at the
      document only if it is neither. */
  predicate Justified(w: World, s: State, c: Caller) {
    match At(s, c)
    case Idle => true
    case Done(answer) =>
      && (answer == Raised <==> !w.requests(c).valid)
      && (answer == Validated ==> w.requests(c).dryRun)
      && (answer.Own? || answer == Stale ==> !w.requests(c).dryRun)
    case _ => w.requests(c).valid && !w.requests(c).dryRun
  }

  lemma StepJustifies(w: World, s: State, e: Event, c: Caller)
    requires Justified(w, s, c)
    ensures Justified(w, Step(w, s, e), c)
  {
    hide SceneAfter, SceneDelta;
  }

  lemma {:induction false} RunJustifies(w: World, s: State, schedule: seq<Event>, c: Caller)
    requires Justified(w, s, c)
    ensures Justified(w, Run(w, s, schedule), c)
    decreases |schedule|
  {
    hide Step, Justified;
    if schedule != [] {
      StepJustifies(w, s, schedule[0], c);
      RunJustifies(w, Step(w, s, schedule[0]), schedule[1..], c);
    }
  }

  /** On every schedule a call is refused exactly if its request is invalid; a valid one that has been answered was validated as
      a dry run, found stale, given its own receipt, or quoted the one its key holds. */
  lemma AnswersAreJustified(w: World, schedule: seq<Event>, c: Caller)
    requires At(After(w, schedule), c).Done?
    ensures var s, r := After(w, schedule), w.requests(c); var answer := At(s, c).answer;
            && (answer == Raised <==> !r.valid) && (answer == Validated ==> r.dryRun) && (answer.Own? || answer == Stale ==> !r.dryRun)
            && (answer.Replayed? || answer.Conflict? ==>
                  r.key in s.receipts && answer.prior == s.receipts[r.key] && (answer.Replayed? <==> answer.prior.fingerprint == r.fingerprint))
  {
    hide Run, SenderOk, ReceiptOk, StaleAt;
    RunJustifies(w, Initial(), schedule, c);
    InvAfter(w, schedule);
    assert CallerOk(w, After(w, schedule), c);
  }

  /** A stored receipt never changes again. */
  lemma {:induction false} ReceiptsAreSticky(w: World, s: State, schedule: seq<Event>, key: string)
    requires Inv(w, s) && LogOk(w, s) && key in s.receipts
    ensures var s' := Run(w, s, schedule); key in s'.receipts && s'.receipts[key] == s.receipts[key]
    decreases |schedule|
  {
    hide Inv, CallerOk, KeyOk, LogOk, SceneAfter, SceneDelta;
    if schedule != [] {
      var e := schedule[0];
      InvCaller(w, s, e.c);
      if Critical(At(s, e.c)) { CriticalFacts(w, s, e.c); }
      StepKeepsInv(w, s, e);
      StepKeepsLog(w, s, e);
      ReceiptsAreSticky(w, Step(w, s, e), schedule[1..], key);
    }
  }

  /** A failure anywhere under the lock leaves an unknown receipt: after every continuation the key still has it, and
      every later call of the key quotes it instead of sending. */
  lemma FailureSticks(w: World, before: seq<Event>, c: Caller, rest: seq<Event>, later: Caller)
    requires Critical(At(After(w, before), c))
    requires var s := Run(w, Step(w, After(w, before), Fail(c)), rest);
             At(s, later) == Idle && w.requests(later).valid && w.Key(later) == w.Key(c)
    ensures var s := Run(w, Step(w, After(w, before), Fail(c)), rest);
            var r := Receipt(c, w.Fingerprint(c), Unknown, NO_DELTA);
            && w.Key(c) in s.receipts && s.receipts[w.Key(c)] == r
            && At(Step(w, s, Start(later)), later) == Done(AnswerFrom(r, w.Fingerprint(later)))
            && Step(w, s, Start(later)).sends == s.sends
  {
    hide Inv, Run, LogOk, SceneAfter, SceneDelta;
    InvAfter(w, before);
    StepKeepsInv(w, After(w, before), Fail(c));
    StepKeepsLog(w, After(w, before), Fail(c));
    ReceiptsAreSticky(w, Step(w, After(w, before), Fail(c)), rest, w.Key(c));
  }

  /** Whoever owns a receipt asked for a real run and finished with it: dry runs, stale blocks, conflicts and
      cancelled calls never bind a key, and none but the owner and cancelled calls ever sent its script. */
  lemma OnlyRunsBind(w: World, schedule: seq<Event>, key: string, c: Caller)
    requires var s := After(w, schedule); key in s.receipts
    ensures var s := After(w, schedule); var r := s.receipts[key];
            && At(s, r.owner) == Done(Own(r)) && w.Key(r.owner) == key && !w.requests(r.owner).dryRun
            && (r.status == Completed ==> r.owner in s.sends)
            && (c in s.sends && w.Key(c) == key && c != r.owner ==> At(s, c) == Cancelled)
  {
    hide Run, SenderOk, Spans;
    InvAfter(w, schedule);
    var s := After(w, schedule);
    assert KeyOk(w, s, key);
    assert CallerOk(w, s, s.receipts[key].owner) && CallerOk(w, s, c);
  }

  /** Every answer but the owner's came without a send; a replay or conflict quotes the key's one receipt. */
  lemma OthersNeverSend(w: World, schedule: seq<Event>, c: Caller)
    requires var s := After(w, schedule); At(s, c).Done? && !At(s, c).answer.Own?
    ensures var s := After(w, schedule); var answer := At(s, c).answer;
            && c !in s.sends
            && (answer.Replayed? || answer.Conflict? ==>
                  && w.Key(c) in s.receipts && s.receipts[w.Key(c)] == answer.prior
                  && (answer.Replayed? <==> answer.prior.fingerprint == w.Fingerprint(c)))
  {
    hide Run, SenderOk, ReceiptOk, StaleAt;
    InvAfter(w, schedule);
    assert CallerOk(w, After(w, schedule), c);
  }

  // ---------------------------------------------------------------- what a completed receipt shows

  predicate CompletedBy(s: State, c: Caller, r: Receipt) {
    At(s, c) == Done(Own(r)) && r.status == Completed
  }

  /** On every schedule a completed receipt is the difference of two scenes of the document's history: between them ran the
      caller's script and, beside it, only scripts whose callers had given up on them. */
  lemma CompletedShowsItsTurn(w: World, schedule: seq<Event>, c: Caller, r: Receipt)
    requires CompletedBy(After(w, schedule), c, r)
    ensures exists m: nat, n: nat :: Spans(w, After(w, schedule), c, m, n, r.delta)
  {
    hide Run, Spans;
    InvAfter(w, schedule);
    assert CallerOk(w, After(w, schedule), c);
  }

  /** What the script of `c` alone makes of a document. */
  function OwnEffect(w: World, c: Caller, before: Doc): Delta {
    var after := w.requests(c).script(before);
    SceneDelta(FinalizedObjects(w, before), FinalizedObjects(w, after))
  }

  function FinalizedObjects(w: World, doc: Doc): seq<SceneObject> {
    var scene := FinalizeScene(w.text, w.digest, doc.id, doc.units, doc.objects);
    if scene.Scene? then scene.objects else []
  }

  /** If none of the scripts was lost, the stretch holds the caller's script only. */
  lemma OnlyOwn(w: World, s: State, c: Caller, m: nat, n: nat, delta: Delta)
    requires RunsOk(s) && Spans(w, s, c, m, n, delta) && forall d :: d in s.ran && d != c ==> !Lost(s, d)
    ensures n == m + 1 && s.ran[m] == c
  {
    hide SceneAfter, SceneDelta, Lost;
    assert forall i :: m <= i < n ==> s.ran[i] in s.ran && s.ran[i] == c;
    var i :| 0 <= i < |s.ran[m..n]| && s.ran[m..n][i] == c;
    var next := if n > m + 1 then m + 1 else m;
    assert s.ran[m] == s.ran[next] == c;
  }

  lemma OneScript(w: World, s: State, c: Caller, m: nat, delta: Delta)
    requires Spans(w, s, c, m, m + 1, delta) && s.ran[m] == c
    ensures delta == OwnEffect(w, c, DocAfter(w, s.ran[..m]))
  {
    hide FinalizeScene, SceneDelta, OnlyStrays;
    var ran := s.ran[..m + 1];
    assert ran[..|ran| - 1] == s.ran[..m] && ran[|ran| - 1] == c;
  }

  /** Where no script was lost, a completed receipt shows exactly what its caller's script did to the document it found. */
  lemma CompletedShowsOwnEffect(w: World, schedule: seq<Event>, c: Caller, r: Receipt)
    requires CompletedBy(After(w, schedule), c, r) && forall d :: d in After(w, schedule).ran && d != c ==> !Lost(After(w, schedule), d)
    ensures exists m: nat :: m < |After(w, schedule).ran| && After(w, schedule).ran[m] == c
                             && r.delta == OwnEffect(w, c, DocAfter(w, After(w, schedule).ran[..m]))
  {
    hide Run, Spans, OwnEffect, Lost, CallerOk, KeyOk;
    CompletedShowsItsTurn(w, schedule, c, r);
    InvAfter(w, schedule);
    var s := After(w, schedule);
    var m: nat, n: nat :| Spans(w, s, c, m, n, r.delta);
    OnlyOwn(w, s, c, m, n, r.delta);
    OneScript(w, s, c, m, r.delta);
    InRange(w, s, c, m, n, r.delta);
  }

  lemma InRange(w: World, s: State, c: Caller, m: nat, n: nat, delta: Delta)
    requires Spans(w, s, c, m, n, delta)
    ensures m <= n <= |s.ran|
  {}

  // ---------------------------------------------------------------- the exceptions are real

  lemma RunOne(w: World, s: State, e: Event, rest: seq<Event>)
    ensures Run(w, s, [e] + rest) == Run(w, Step(w, s, e), rest)
  {
    hide Step;
    assert ([e] + rest)[1..] == rest;
  }

  lemma RunNone(w: World, s: State)
    ensures Run(w, s, []) == s
  {}

  /** A caller that finds its key and the lock free and its revision as expected. */
  predicate MaySend(w: World, s: State, c: Caller) {
    && w.requests(c).valid && !w.requests(c).dryRun && w.Key(c) !in s.receipts && At(s, c) == Idle && s.lock == None
    && w.requests(c).expected == None && SceneAfter(w, s.ran).Scene?
  }

  function SendingNow(w: World, s: State, c: Caller): State
    requires SceneAfter(w, s.ran).Scene?
  {
    State(s.callers[c := Sending(SceneAfter(w, s.ran).objects)], s.receipts, Some(c), s.sends + [c], s.ran)
  }

  lemma ReachSend(w: World, s: State, c: Caller, rest: seq<Event>)
    requires MaySend(w, s, c)
    ensures Run(w, s, [Start(c), Acquire(c), ReadBefore(c)] + rest) == Run(w, SendingNow(w, s, c), rest)
  {
    hide Run, SceneAfter;
    var s1 := Step(w, s, Start(c));
    var s2 := Step(w, s1, Acquire(c));
    assert s2.callers == s.callers[c := Reading];
    assert Step(w, s2, ReadBefore(c)).callers == SendingNow(w, s, c).callers;
    RunOne(w, s, Start(c), [Acquire(c)] + ([ReadBefore(c)] + rest));
    RunOne(w, s1, Acquire(c), [ReadBefore(c)] + rest);
    RunOne(w, s2, ReadBefore(c), rest);
    assert [Start(c)] + ([Acquire(c)] + ([ReadBefore(c)] + rest)) == [Start(c), Acquire(c), ReadBefore(c)] + rest;
  }

  /** A caller cancelled while its script is out leaves no receipt, so the next call of the key sends it again. */
  lemma CancelledCallerResends(w: World)
    requires w.requests(0) == w.requests(1) && MaySend(w, Initial(), 0)
    ensures After(w, [Start(0), Acquire(0), ReadBefore(0), Cancel(0), Start(1), Acquire(1), ReadBefore(1)]).sends == [0, 1]
  {
    hide Run, SceneAfter;
    var second := [Start(1), Acquire(1), ReadBefore(1)] + [];
    var sending := SendingNow(w, Initial(), 0);
    ReachSend(w, Initial(), 0, [Cancel(0)] + second);
    RunOne(w, sending, Cancel(0), second);
    var free := Step(w, sending, Cancel(0));
    ReachSend(w, free, 1, []);
    RunNone(w, SendingNow(w, free, 1));
    assert [Start(0), Acquire(0), ReadBefore(0)] + ([Cancel(0)] + second)
        == [Start(0), Acquire(0), ReadBefore(0), Cancel(0), Start(1), Acquire(1), ReadBefore(1)];
  }

  /** Caller 0 stops waiting for its script; the script runs all the same, in the middle of caller 1's turn, and caller 1's
      completed receipt shows the two scripts' joint effect as its own. */
  lemma StrayScriptIsClaimed(w: World)
    requires MaySend(w, Initial(), 0) && MaySend(w, Initial(), 1) && w.Key(0) != w.Key(1) && SceneAfter(w, [0, 1]).Scene?
    ensures var s := After(w, [Start(0), Acquire(0), ReadBefore(0), Fail(0), Start(1), Acquire(1), ReadBefore(1),
                               Runs(0), Runs(1), Replies(1), ReadAfter(1)]);
            && At(s, 1).Done? && At(s, 1).answer.Own? && At(s, 1).answer.receipt.status == Completed
            && At(s, 1).answer.receipt.delta
               == SceneDelta(FinalizedObjects(w, w.start), FinalizedObjects(w, w.requests(1).script(w.requests(0).script(w.start))))
            && At(s, 0) == Done(Own(Receipt(0, w.Fingerprint(0), Unknown, NO_DELTA)))
  {
    hide Run, SceneAfter, SceneDelta, FinalizedObjects;
    var turn := [Runs(0), Runs(1), Replies(1), ReadAfter(1)];
    var second := [Start(1), Acquire(1), ReadBefore(1)] + turn;
    var sending := SendingNow(w, Initial(), 0);
    ReachSend(w, Initial(), 0, [Fail(0)] + second);
    RunOne(w, sending, Fail(0), second);
    var lost := Step(w, sending, Fail(0));
    ReachSend(w, lost, 1, turn);
    TurnWithStray(w, SendingNow(w, lost, 1), SceneAfter(w, []).objects);
    TwoScripts(w);
    assert [Start(0), Acquire(0), ReadBefore(0)] + ([Fail(0)] + second)
        == [Start(0), Acquire(0), ReadBefore(0), Fail(0), Start(1), Acquire(1), ReadBefore(1), Runs(0), Runs(1), Replies(1), ReadAfter(1)];
  }

  /** From caller 1's send on: the lost script runs, then its own, then its reply and its after-scene come. */
  lemma TurnWithStray(w: World, s: State, before: seq<SceneObject>)
    requires At(s, 1) == Sending(before) && s.sends == [0, 1] && s.ran == [] && SceneAfter(w, [0, 1]).Scene?
    ensures Run(w, s, [Runs(0), Runs(1), Replies(1), ReadAfter(1)])
         == Settle(w, s.(ran := [0, 1]), 1, Completed, SceneDelta(before, SceneAfter(w, [0, 1]).objects))
  {
    hide Run, SceneAfter, SceneDelta;
    assert [] + [0] == [0] && [0] + [1] == [0, 1];
    var s1, s2 := s.(ran := [0]), s.(ran := [0, 1]);
    var s3 := Move(s2, 1, ReadingAfter(before));
    RunOne(w, s, Runs(0), [Runs(1)] + ([Replies(1)] + ([ReadAfter(1)] + [])));
    RunOne(w, s1, Runs(1), [Replies(1)] + ([ReadAfter(1)] + []));
    RunOne(w, s2, Replies(1), [ReadAfter(1)] + []);
    RunOne(w, s3, ReadAfter(1), []);
    var r := Receipt(1, w.Fingerprint(1), Completed, SceneDelta(before, SceneAfter(w, [0, 1]).objects));
    assert s3.callers[1 := Done(Own(r))] == s.callers[1 := Done(Own(r))];
    RunNone(w, Step(w, s3, ReadAfter(1)));
    assert [Runs(0)] + ([Runs(1)] + ([Replies(1)] + ([ReadAfter(1)] + []))) == [Runs(0), Runs(1), Replies(1), ReadAfter(1)];
  }

  lemma TwoScripts(w: World)
    requires SceneAfter(w, []).Scene? && SceneAfter(w, [0, 1]).Scene?
    ensures SceneAfter(w, []).objects == FinalizedObjects(w, w.start)
    ensures SceneAfter(w, [0, 1]).objects == FinalizedObjects(w, w.requests(1).script(w.requests(0).script(w.start)))
  {
    hide FinalizeScene;
    assert [0, 1][..1] == [0] && [0][..0] == [];
    assert DocAfter(w, [0]) == w.requests(0).script(w.start);
  }
}
