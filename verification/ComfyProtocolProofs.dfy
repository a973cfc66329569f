/** Single submission, stable prompt ids, and when a ComfyUI receipt's status can move. */
module ComfyProtocolProofs {
  import opened Wrappers
  import opened ComfyProtocol

  function After(req: Requests, schedule: seq<Event>): State {
    Run(req, Initial(), schedule)
  }

  lemma InvAfter(req: Requests, schedule: seq<Event>)
    ensures Inv(req, After(req, schedule)) && LogOk(req, After(req, schedule))
  {
    InitialInv(req);
    RunKeepsInv(req, Initial(), schedule);
  }

  // ---------------------------------------------------------------- one submission per key

  /** Two submissions under one key came from two callers, and the earlier one was cancelled. */
  lemma SecondSubmissionNeedsCancellation(req: Requests, schedule: seq<Event>, i: nat, j: nat)
    requires var s := After(req, schedule); i < j < |s.queued| && req(s.queued[i]).key == req(s.queued[j]).key
    ensures var s := After(req, schedule); s.queued[i] != s.queued[j] && At(s, s.queued[i]) == Cancelled
  {
    InvAfter(req, schedule);
    var s := After(req, schedule);
    InvCaller(req, s, s.queued[i]);
  }

  predicate IsCancel(e: Event) {
    e.Cancel?
  }

  lemma StepCancels(req: Requests, s: State, e: Event, c: Caller)
    requires !IsCancel(e) && At(s, c) != Cancelled
    ensures At(Step(req, s, e), c) != Cancelled
  {}

  lemma {:induction false} OnlyCancelCancels(req: Requests, s: State, schedule: seq<Event>, c: Caller)
    requires forall e :: e in schedule ==> !IsCancel(e)
    requires At(s, c) != Cancelled
    ensures At(Run(req, s, schedule), c) != Cancelled
    decreases |schedule|
  {
    hide Step;
    if schedule != [] {
      assert schedule[0] in schedule;
      StepCancels(req, s, schedule[0], c);
      OnlyCancelCancels(req, Step(req, s, schedule[0]), schedule[1..], c);
    }
  }

  /** Without cancellation a key is queued at most once, whatever the server and the transport do. */
  lemma AtMostOneSubmission(req: Requests, schedule: seq<Event>, i: nat, j: nat)
    requires forall e :: e in schedule ==> !IsCancel(e)
    requires var s := After(req, schedule);
             i < |s.queued| && j < |s.queued| && req(s.queued[i]).key == req(s.queued[j]).key
    ensures i == j
  {
    hide Step, Run;
    var s := After(req, schedule);
    OnlyCancelCancels(req, Initial(), schedule, s.queued[i]);
    OnlyCancelCancels(req, Initial(), schedule, s.queued[j]);
    if i < j { SecondSubmissionNeedsCancellation(req, schedule, i, j); }
    else if j < i { SecondSubmissionNeedsCancellation(req, schedule, j, i); }
  }

  /** Callers that look a receipt up, or were answered from one, never submitted. */
  lemma ReconcilersNeverSubmit(req: Requests, schedule: seq<Event>, c: Caller)
    requires var pc := At(After(req, schedule), c); pc.Reconciling? || (pc.Done? && !pc.answer.Own?)
    ensures c !in After(req, schedule).queued
  {
    InvAfter(req, schedule);
    InvCaller(req, After(req, schedule), c);
  }

  // ---------------------------------------------------------------- the recorded submission never changes

  predicate KeptRun(s: State, s': State, key: string) {
    key in s.receipts ==> key in s'.receipts && SameRun(s.receipts[key], s'.receipts[key])
  }

  lemma StepKeepsRun(req: Requests, s: State, e: Event, key: string)
    requires Inv(req, s)
    ensures KeptRun(s, Step(req, s, e), key)
  {
    InvCaller(req, s, e.c);
  }

  /** Once a key is bound, its owner, its fingerprint and its prompt id stay for good. */
  lemma {:induction false} PromptIsSticky(req: Requests, s: State, schedule: seq<Event>, key: string)
    requires Inv(req, s) && LogOk(req, s)
    ensures KeptRun(s, Run(req, s, schedule), key)
    decreases |schedule|
  {
    hide Step, Inv, LogOk;
    if schedule != [] {
      var s1 := Step(req, s, schedule[0]);
      StepKeepsInv(req, s, schedule[0]);
      StepKeepsLog(req, s, schedule[0]);
      StepKeepsRun(req, s, schedule[0], key);
      PromptIsSticky(req, s1, schedule[1..], key);
    }
  }

  /** A lookup reports what it found: completed exactly for a saved image, failed exactly for a failed workflow, the same
      submission throughout, and nothing stored when the transport raises. */
  lemma LookupReports(req: Requests, s: State, c: Caller, outcome: Outcome)
    requires Inv(req, s) && At(s, c).Reconciling?
    ensures var s', key := Step(req, s, Reconciled(c, outcome)), req(c).key;
            && (outcome == TransportRaises ==> s'.receipts == s.receipts && At(s', c) == Done(Raised))
            && (outcome != TransportRaises ==>
                  && key in s'.receipts && SameRun(s'.receipts[key], At(s, c).prior)
                  && (s'.receipts[key].status == Completed <==> outcome == Materialized)
                  && (s'.receipts[key].status == Failed <==> outcome == WorkflowFailed)
                  && (outcome == Materialized ==> s'.receipts[key].output == Some(req(c).destination)))
  {
    InvCaller(req, s, c);
  }

  // ---------------------------------------------------------------- sequential callers only advance the status

  /** No two calls of one key are under way, and a lookup still holds the current receipt. */
  ghost predicate OneAtATime(req: Requests, s: State) {
    && (forall c, d :: Active(At(s, c)) && Active(At(s, d)) && req(c).key == req(d).key ==> c == d)
    && (forall c :: At(s, c).Reconciling? ==> req(c).key in s.receipts && s.receipts[req(c).key] == At(s, c).prior)
  }

  /** A call of a key begins only when no other call of it is under way. */
  ghost predicate MayStart(req: Requests, s: State, e: Event) {
    e.Start? && At(s, e.c) == Idle ==> forall d :: Active(At(s, d)) ==> req(d).key != req(e.c).key
  }

  ghost predicate Sequential(req: Requests, s: State, schedule: seq<Event>)
    decreases |schedule|
  {
    schedule == [] || (MayStart(req, s, schedule[0]) && Sequential(req, Step(req, s, schedule[0]), schedule[1..]))
  }

  /** Settled receipts stay as they are; an unknown one may change its status once. */
  predicate Advanced(s: State, s': State, key: string) {
    key in s.receipts ==>
      && key in s'.receipts && SameRun(s.receipts[key], s'.receipts[key])
      && (s.receipts[key].status != Unknown ==> s'.receipts[key] == s.receipts[key])
  }

  lemma OneStepAdvances(req: Requests, s: State, e: Event, key: string)
    requires Inv(req, s) && OneAtATime(req, s)
    ensures Advanced(s, Step(req, s, e), key)
  {
    InvCaller(req, s, e.c);
  }

  /** The event touches no other caller, and no receipt but that of its own key. */
  lemma StepIsLocal(req: Requests, s: State, e: Event, d: Caller, key: string)
    ensures d != e.c ==> At(Step(req, s, e), d) == At(s, d)
    ensures key != req(e.c).key ==>
              var s' := Step(req, s, e);
              (key in s'.receipts <==> key in s.receipts) && (key in s.receipts ==> s'.receipts[key] == s.receipts[key])
  {}

  lemma StepActivity(req: Requests, s: State, e: Event)
    ensures Active(At(Step(req, s, e), e.c)) ==> Active(At(s, e.c)) || (e.Start? && At(s, e.c) == Idle)
    ensures var pc := At(Step(req, s, e), e.c);
            pc.Reconciling? && At(s, e.c) != pc ==> req(e.c).key in s.receipts && pc.prior == s.receipts[req(e.c).key]
    ensures At(Step(req, s, e), e.c) == At(s, e.c) || At(Step(req, s, e), e.c).Reconciling? ==> Step(req, s, e).receipts == s.receipts
    ensures !Active(At(s, e.c)) && !(e.Start? && At(s, e.c) == Idle) ==> Step(req, s, e).receipts == s.receipts
  {
    if e.Start? && At(s, e.c) == Idle && req(e.c).key in s.receipts {
      assert s.receipts[req(e.c).key := s.receipts[req(e.c).key]] == s.receipts;
    }
    if e.Acquire? && req(e.c).key in s.receipts {
      assert s.receipts[req(e.c).key := s.receipts[req(e.c).key]] == s.receipts;
    }
  }

  lemma StepKeepsOneAtATime(req: Requests, s: State, e: Event)
    requires Inv(req, s) && OneAtATime(req, s) && MayStart(req, s, e)
    ensures OneAtATime(req, Step(req, s, e))
  {
    hide Step, Inv;
    var s' := Step(req, s, e);
    StepActivity(req, s, e);
    forall c, d | Active(At(s', c)) && Active(At(s', d)) && req(c).key == req(d).key ensures c == d {
      StepIsLocal(req, s, e, c, "");
      StepIsLocal(req, s, e, d, "");
    }
    forall c | At(s', c).Reconciling? ensures req(c).key in s'.receipts && s'.receipts[req(c).key] == At(s', c).prior {
      StepIsLocal(req, s, e, c, req(c).key);
    }
  }

  /** Under sequential replays a status moves only from unknown to unknown, completed or failed. */
  lemma {:induction false} SequentialRunsAdvance(req: Requests, s: State, schedule: seq<Event>, key: string)
    requires Inv(req, s) && LogOk(req, s) && OneAtATime(req, s) && Sequential(req, s, schedule)
    ensures Advanced(s, Run(req, s, schedule), key)
    ensures OneAtATime(req, Run(req, s, schedule))
    decreases |schedule|
  {
    hide Step, Inv, LogOk, OneAtATime, MayStart;
    if schedule != [] {
      var s1 := Step(req, s, schedule[0]);
      StepKeepsInv(req, s, schedule[0]);
      StepKeepsLog(req, s, schedule[0]);
      OneStepAdvances(req, s, schedule[0], key);
      StepKeepsOneAtATime(req, s, schedule[0]);
      SequentialRunsAdvance(req, s1, schedule[1..], key);
    }
  }

  /** Exactly when an event undoes a settled receipt: a lookup of its key, begun while the receipt was still unknown, reports
      something else. The status falls back to unknown exactly when that report is `still running`. */
  lemma RegressionIsStaleLookup(req: Requests, s: State, e: Event, key: string)
    requires Inv(req, s) && key in s.receipts && s.receipts[key].status != Unknown
    ensures key in Step(req, s, e).receipts
    ensures var lookup := e.Reconciled? && At(s, e.c).Reconciling? && req(e.c).key == key && e.outcome != TransportRaises;
            var after := Step(req, s, e).receipts[key];
            && (after != s.receipts[key] <==> lookup && Updated(At(s, e.c).prior, e.outcome, req(e.c).destination) != s.receipts[key])
            && (after.status == Unknown <==> lookup && e.outcome == StillRunning)
  {
    InvCaller(req, s, e.c);
  }

  // ---------------------------------------------------------------- what concurrency can do

  lemma RunOne(req: Requests, s: State, e: Event, rest: seq<Event>)
    ensures Run(req, s, [e] + rest) == Run(req, Step(req, s, e), rest)
  {
    hide Step;
    assert ([e] + rest)[1..] == rest;
  }

  /** Only callers that waited for the lock are affected: a replay decided at the first check is of the same payload. */
  lemma EarlyReplaysMatch(req: Requests, schedule: seq<Event>, c: Caller)
    requires var pc := At(After(req, schedule), c); pc.Done? && pc.answer.Replayed? && !pc.answer.late
    ensures At(After(req, schedule), c).answer.receipt.fingerprint == req(c).fingerprint
  {
    InvAfter(req, schedule);
    InvCaller(req, After(req, schedule), c);
  }

  /** Whoever is answered from a bound key gets the receipt of the caller that queued the key's prompt: of that caller's
      payload, and so of another one than its own exactly when the two requests differ, which takes a wait for the lock. */
  lemma ReplaysQuoteTheOwner(req: Requests, schedule: seq<Event>, c: Caller)
    requires var pc := At(After(req, schedule), c); pc.Done? && pc.answer.Replayed?
    ensures var answer := At(After(req, schedule), c).answer; var r := answer.receipt;
            && c != r.owner && req(r.owner).key == req(c).key && r.fingerprint == req(r.owner).fingerprint
            && (r.fingerprint != req(c).fingerprint ==> answer.late)
  {
    hide Run;
    InvAfter(req, schedule);
    var s := After(req, schedule);
    InvCaller(req, s, c);
    assert KeyOk(req, s, req(c).key);
    InvCaller(req, s, s.receipts[req(c).key].owner);
  }

  /** Caller 0 has queued its prompt and then waited it out (`Completed`) or lost sight of it (`Unknown`). */
  function Queued(req: Requests, s: State, prompt: nat, status: Status): State {
    var r := Receipt(0, req(0).fingerprint, status, Some(prompt), if status == Completed then Some(req(0).destination) else None);
    State(s.callers[0 := Done(Own(r))], map[req(0).key := r], None, [0])
  }

  predicate ReadyToQueue(s: State) {
    At(s, 0) == WantLock && s.receipts == map[] && s.lock == None && s.queued == []
  }

  lemma QueueSteps(req: Requests, s: State, prompt: nat, end: Event)
    requires ReadyToQueue(s) && (end == Finish(0) || end == Fail(0))
    ensures Step(req, Step(req, Step(req, Step(req, s, Acquire(0)), Submit(0)), Accepted(0, prompt)), end)
         == Queued(req, s, prompt, if end.Finish? then Completed else Unknown)
  {
    var polling := Step(req, Step(req, Step(req, s, Acquire(0)), Submit(0)), Accepted(0, prompt));
    assert polling == State(s.callers[0 := Preparing][0 := Queueing][0 := Polling(prompt)], map[], Some(0), [0]);
    var done := Queued(req, s, prompt, if end.Finish? then Completed else Unknown).callers[0];
    assert polling.callers[0 := done] == s.callers[0 := done];
  }

  lemma OwnerQueues(req: Requests, s: State, prompt: nat, end: Event, rest: seq<Event>)
    requires ReadyToQueue(s) && (end == Finish(0) || end == Fail(0))
    ensures Run(req, s, [Acquire(0), Submit(0), Accepted(0, prompt), end] + rest)
         == Run(req, Queued(req, s, prompt, if end.Finish? then Completed else Unknown), rest)
  {
    hide Run, Step, Queued, ReadyToQueue;
    QueueSteps(req, s, prompt, end);
    var s1 := Step(req, s, Acquire(0));
    var s2 := Step(req, s1, Submit(0));
    RunOne(req, s, Acquire(0), [Submit(0)] + ([Accepted(0, prompt)] + ([end] + rest)));
    RunOne(req, s1, Submit(0), [Accepted(0, prompt)] + ([end] + rest));
    RunOne(req, s2, Accepted(0, prompt), [end] + rest);
    RunOne(req, Step(req, s2, Accepted(0, prompt)), end, rest);
    assert [Acquire(0)] + ([Submit(0)] + ([Accepted(0, prompt)] + ([end] + rest))) == [Acquire(0), Submit(0), Accepted(0, prompt), end] + rest;
  }

  /** Callers 0 and 1 both find their key free; caller 0 is the first to get the lock. */
  lemma BothWait(req: Requests, prompt: nat, end: Event, rest: seq<Event>)
    requires req(0).valid && req(1).valid && (end == Finish(0) || end == Fail(0))
    ensures After(req, [Start(0, false), Start(1, false), Acquire(0), Submit(0), Accepted(0, prompt), end] + rest)
         == Run(req, Queued(req, State(map[0 := WantLock, 1 := WantLock], map[], None, []), prompt,
                            if end.Finish? then Completed else Unknown), rest)
  {
    hide Run, Queued;
    var queueing := [Acquire(0), Submit(0), Accepted(0, prompt), end] + rest;
    var s1 := Step(req, Initial(), Start(0, false));
    RunOne(req, Initial(), Start(0, false), [Start(1, false)] + queueing);
    RunOne(req, s1, Start(1, false), queueing);
    OwnerQueues(req, State(map[0 := WantLock, 1 := WantLock], map[], None, []), prompt, end, rest);
    assert [Start(0, false)] + ([Start(1, false)] + queueing)
        == [Start(0, false), Start(1, false), Acquire(0), Submit(0), Accepted(0, prompt), end] + rest;
  }

  lemma RunNone(req: Requests, s: State)
    ensures Run(req, s, []) == s
  {}

  /** Callers 0 and 1 share a key with different payloads. Caller 1 finds the key free, waits for the lock while caller 0
      queues its prompt, and then compares no fingerprints: it is answered with caller 0's receipt as its own replay. */
  lemma LateCallerGetsForeignReceipt(req: Requests, prompt: nat)
    requires req(0).valid && req(1).valid && req(0).key == req(1).key && req(0).fingerprint != req(1).fingerprint
    ensures var s := After(req, [Start(0, false), Start(1, false), Acquire(0), Submit(0), Accepted(0, prompt), Finish(0), Acquire(1)]);
            && At(s, 1).Done? && At(s, 1).answer.Replayed? && At(s, 1).answer.receipt.owner == 0
            && At(s, 1).answer.receipt.fingerprint != req(1).fingerprint && s.queued == [0]
  {
    hide Run;
    BothWait(req, prompt, Finish(0), [Acquire(1)]);
    var queued := Queued(req, State(map[0 := WantLock, 1 := WantLock], map[], None, []), prompt, Completed);
    RunOne(req, queued, Acquire(1), []);
    RunNone(req, Step(req, queued, Acquire(1)));
    assert [Acquire(1)] + [] == [Acquire(1)];
    assert [Start(0, false), Start(1, false), Acquire(0), Submit(0), Accepted(0, prompt), Finish(0)] + [Acquire(1)]
        == [Start(0, false), Start(1, false), Acquire(0), Submit(0), Accepted(0, prompt), Finish(0), Acquire(1)];
  }

  /** If caller 0 lost sight of its prompt, caller 1 looks that prompt up and saves the other payload's image as its own. */
  lemma LateCallerSavesForeignImage(req: Requests, prompt: nat)
    requires req(0).valid && req(1).valid && req(0).key == req(1).key && req(0).fingerprint != req(1).fingerprint
    ensures var s := After(req, [Start(0, false), Start(1, false), Acquire(0), Submit(0), Accepted(0, prompt), Fail(0), Acquire(1),
                                 Reconciled(1, Materialized)]);
            && req(0).key in s.receipts && s.queued == [0]
            && s.receipts[req(0).key] == Receipt(0, req(0).fingerprint, Completed, Some(prompt), Some(req(1).destination))
  {
    hide Run;
    BothWait(req, prompt, Fail(0), [Acquire(1), Reconciled(1, Materialized)]);
    var queued := Queued(req, State(map[0 := WantLock, 1 := WantLock], map[], None, []), prompt, Unknown);
    var looking := Step(req, queued, Acquire(1));
    RunOne(req, queued, Acquire(1), [Reconciled(1, Materialized)]);
    RunOne(req, looking, Reconciled(1, Materialized), []);
    RunNone(req, Step(req, looking, Reconciled(1, Materialized)));
    assert [Acquire(1)] + [Reconciled(1, Materialized)] == [Acquire(1), Reconciled(1, Materialized)];
    assert [Reconciled(1, Materialized)] + [] == [Reconciled(1, Materialized)];
    assert [Start(0, false), Start(1, false), Acquire(0), Submit(0), Accepted(0, prompt), Fail(0)] + [Acquire(1), Reconciled(1, Materialized)]
        == [Start(0, false), Start(1, false), Acquire(0), Submit(0), Accepted(0, prompt), Fail(0), Acquire(1), Reconciled(1, Materialized)];
  }

  /** One payload, three callers: the first has lost sight of its prompt, and the other two are looking it up. */
  function Overlapping(req: Requests, prompt: nat): State {
    var r := Receipt(0, req(0).fingerprint, Unknown, Some(prompt), None);
    State(map[0 := Done(Own(r)), 1 := Reconciling(r, false), 2 := Reconciling(r, false)], map[req(0).key := r], None, [0])
  }

  lemma ReachesOverlapping(req: Requests, prompt: nat, rest: seq<Event>)
    requires req(0).valid && req(1) == req(0) && req(2) == req(0)
    ensures After(req, [Start(0, false), Acquire(0), Submit(0), Accepted(0, prompt), Fail(0), Start(1, false), Start(2, false)] + rest)
         == Run(req, Overlapping(req, prompt), rest)
  {
    hide Run;
    var lookups := [Start(1, false)] + ([Start(2, false)] + rest);
    var s1 := Step(req, Initial(), Start(0, false));
    var s5 := Queued(req, s1, prompt, Unknown);
    var s6 := Step(req, s5, Start(1, false));
    RunOne(req, Initial(), Start(0, false), [Acquire(0), Submit(0), Accepted(0, prompt), Fail(0)] + lookups);
    OwnerQueues(req, s1, prompt, Fail(0), lookups);
    RunOne(req, s5, Start(1, false), [Start(2, false)] + rest);
    RunOne(req, s6, Start(2, false), rest);
    assert s5.callers == map[0 := Overlapping(req, prompt).callers[0]];
    assert Step(req, s6, Start(2, false)).callers == Overlapping(req, prompt).callers;
    assert [Start(0, false)] + ([Acquire(0), Submit(0), Accepted(0, prompt), Fail(0)] + lookups)
        == [Start(0, false), Acquire(0), Submit(0), Accepted(0, prompt), Fail(0), Start(1, false), Start(2, false)] + rest;
  }

  /** Of two overlapping lookups the later one saves the finished image, and the earlier one then puts unknown back. */
  lemma OverlappingLookupsRegress(req: Requests, prompt: nat)
    requires req(0).valid && req(1) == req(0) && req(2) == req(0)
    ensures var lookups := [Start(0, false), Acquire(0), Submit(0), Accepted(0, prompt), Fail(0), Start(1, false), Start(2, false)];
            var saved := After(req, lookups + [Reconciled(2, Materialized)]);
            var undone := After(req, lookups + [Reconciled(2, Materialized), Reconciled(1, StillRunning)]);
            && req(0).key in saved.receipts && saved.receipts[req(0).key].status == Completed
            && req(0).key in undone.receipts && undone.receipts[req(0).key].status == Unknown
  {
    hide Run;
    var saves, puts := Reconciled(2, Materialized), Reconciled(1, StillRunning);
    ReachesOverlapping(req, prompt, [saves]);
    ReachesOverlapping(req, prompt, [saves, puts]);
    var s := Overlapping(req, prompt);
    var saved := Step(req, s, saves);
    RunOne(req, s, saves, []);
    RunOne(req, s, saves, [puts]);
    RunOne(req, saved, puts, []);
    RunNone(req, saved);
    RunNone(req, Step(req, saved, puts));
    assert [saves] + [] == [saves] && [puts] + [] == [puts] && [saves] + [puts] == [saves, puts];
  }

  // ---------------------------------------------------------------- what an owner is answered

  lemma {:induction false} RunSnoc(req: Requests, s: State, events: seq<Event>, e: Event)
    ensures Run(req, s, events + [e]) == Step(req, Run(req, s, events), e)
    decreases |events|
  {
    hide Step;
    if events == [] {
      assert events + [e] == [e] && [e][1..] == [];
    } else {
      assert (events + [e])[0] == events[0] && (events + [e])[1..] == events[1..] + [e];
      RunSnoc(req, Step(req, s, events[0]), events[1..], e);
    }
  }

  /** The receipt says what came of the caller's submission: nothing is known to be queued, so it failed; a prompt is queued
      and its fate is unknown; or the accepted prompt was finished and its image saved. */
  predicate EndsAs(req: Requests, c: Caller, pc: Pc, e: Event, r: Receipt) {
    var failed := Receipt(c, req(c).fingerprint, Failed, None, None);
    && e.c == c
    && match pc
       case Preparing => e.Fail? && r == failed
       case Queueing =>
         || (e.Fail? && r == failed)
         || (e.Rejected? && e.refused.None? && r == failed)
         || (e.Rejected? && e.refused.Some? && r == Receipt(c, req(c).fingerprint, Unknown, e.refused, None))
       case Polling(prompt) =>
         || (e.Fail? && r == Receipt(c, req(c).fingerprint, Unknown, Some(prompt), None))
         || (e.Finish? && r == Receipt(c, req(c).fingerprint, Completed, Some(prompt), Some(req(c).destination)))
       case _ => false
  }

  lemma OwnStep(req: Requests, s: State, e: Event, c: Caller)
    requires At(Step(req, s, e), c).Done? && At(Step(req, s, e), c).answer.Own?
    ensures At(s, c) == At(Step(req, s, e), c) || EndsAs(req, c, At(s, c), e, At(Step(req, s, e), c).answer.receipt)
  {}

  lemma AcceptStep(req: Requests, s: State, e: Event, c: Caller, prompt: nat)
    requires At(Step(req, s, e), c) == Polling(prompt)
    ensures At(s, c) == Polling(prompt) || (At(s, c) == Queueing && e == Accepted(c, prompt))
  {}

  /** A caller polls for the prompt that the server accepted from it. */
  lemma {:induction false} PollsAccepted(req: Requests, schedule: seq<Event>, c: Caller, prompt: nat)
    requires At(After(req, schedule), c) == Polling(prompt)
    ensures Accepted(c, prompt) in schedule
    decreases |schedule|
  {
    hide Step, Run;
    if schedule == [] {
      RunNone(req, Initial());
    } else {
      var init, e := schedule[..|schedule| - 1], schedule[|schedule| - 1];
      assert schedule == init + [e];
      RunSnoc(req, Initial(), init, e);
      AcceptStep(req, After(req, init), e, c, prompt);
      if At(After(req, init), c) == Polling(prompt) { PollsAccepted(req, init, c, prompt); }
    }
  }

  /** Under every schedule an owner's answer is the receipt of what came of its one submission. */
  lemma {:induction false} OwnerIsTold(req: Requests, schedule: seq<Event>, c: Caller)
    requires At(After(req, schedule), c).Done? && At(After(req, schedule), c).answer.Own?
    ensures exists n: nat :: n < |schedule|
              && EndsAs(req, c, At(After(req, schedule[..n]), c), schedule[n], At(After(req, schedule), c).answer.receipt)
    decreases |schedule|
  {
    hide Step, Run, EndsAs;
    if schedule == [] {
      RunNone(req, Initial());
    } else {
      var init, e := schedule[..|schedule| - 1], schedule[|schedule| - 1];
      var r := At(After(req, schedule), c).answer.receipt;
      assert schedule == init + [e];
      RunSnoc(req, Initial(), init, e);
      OwnStep(req, After(req, init), e, c);
      if At(After(req, init), c) == At(After(req, schedule), c) {
        OwnerIsTold(req, init, c);
        var n: nat :| n < |init| && EndsAs(req, c, At(After(req, init[..n]), c), init[n], r);
        assert schedule[..n] == init[..n] && schedule[n] == init[n];
      } else {
        assert EndsAs(req, c, At(After(req, schedule[..|init|]), c), schedule[|init|], r);
      }
    }
  }

  /** So an owner's answer is `failed` exactly without a prompt id; `completed` exactly if its accepted prompt was finished
      and its image saved, and then it names its own output path; and otherwise `unknown`, with the prompt id to look up. */
  lemma OwnStatusMeans(req: Requests, schedule: seq<Event>, c: Caller)
    requires At(After(req, schedule), c).Done? && At(After(req, schedule), c).answer.Own?
    ensures var r := At(After(req, schedule), c).answer.receipt;
            && r.owner == c && r.fingerprint == req(c).fingerprint
            && (r.status == Failed <==> r.prompt.None?)
            && (r.status == Completed ==> r.output == Some(req(c).destination) && Finish(c) in schedule && Accepted(c, r.prompt.value) in schedule)
            && (r.status != Completed ==> r.output.None?)
            && (r.status == Unknown ==> Fail(c) in schedule || Rejected(c, r.prompt) in schedule)
  {
    hide Step, Run;
    OwnerIsTold(req, schedule, c);
    var r := At(After(req, schedule), c).answer.receipt;
    var n: nat :| n < |schedule| && EndsAs(req, c, At(After(req, schedule[..n]), c), schedule[n], r);
    assert schedule[n] in schedule;
    if r.status == Completed { PollsAccepted(req, schedule[..n], c, r.prompt.value); }
  }

  // ---------------------------------------------------------------- why a call raises

  lemma StepRaises(req: Requests, s: State, e: Event, c: Caller)
    requires At(s, c) != Done(Raised) && At(Step(req, s, e), c) == Done(Raised)
    ensures (e.Start? && e.c == c && (!req(c).valid || (e.outputExists && req(c).key !in s.receipts))) || e == Reconciled(c, TransportRaises)
  {}

  /** A call only raises for an invalid request, an output path that is taken, or a lookup that fails. */
  lemma {:induction false} RaisedHasReason(req: Requests, schedule: seq<Event>, c: Caller)
    requires At(After(req, schedule), c) == Done(Raised)
    ensures !req(c).valid || Start(c, true) in schedule || Reconciled(c, TransportRaises) in schedule
    decreases |schedule|
  {
    hide Step, Run;
    if schedule == [] {
      RunNone(req, Initial());
    } else {
      var init, e := schedule[..|schedule| - 1], schedule[|schedule| - 1];
      assert schedule == init + [e];
      RunSnoc(req, Initial(), init, e);
      if At(After(req, init), c) == Done(Raised) { RaisedHasReason(req, init, c); } else { StepRaises(req, After(req, init), e, c); }
    }
  }
}
