/**
 The ComfyUI gateway: one submission under a lock, then reconciliation by prompt id outside it.
 Code between two awaits is one event; a schedule is any sequence of events, task cancellations included.
 */
module ComfyProtocol {
  import opened Wrappers

  type Caller = nat

  datatype Request = Request(key: string, fingerprint: nat, valid: bool, destination: nat)

  datatype Status = Completed | Unknown | Failed

  datatype Receipt = Receipt(owner: Caller, fingerprint: nat, status: Status, prompt: Option<nat>, output: Option<nat>)

  datatype Answer = Own(receipt: Receipt) | Replayed(receipt: Receipt, late: bool) | Blocked | Raised

  /** `late` reconcilers found the receipt only after taking the lock, and hold it. */
  datatype Pc =
    | Idle | Reconciling(prior: Receipt, late: bool) | WantLock | Preparing | Queueing | Polling(prompt: nat)
    | Done(answer: Answer) | Cancelled

  datatype State = State(callers: map<Caller, Pc>, receipts: map<string, Receipt>, lock: Option<Caller>, queued: seq<Caller>)

  datatype Outcome = StillRunning | WorkflowFailed | Materialized | TransportRaises

  datatype Event =
    | Start(c: Caller, outputExists: bool) | Acquire(c: Caller) | Submit(c: Caller) | Accepted(c: Caller, prompt: nat)
    | Rejected(c: Caller, refused: Option<nat>) | Finish(c: Caller) | Fail(c: Caller)
    | Reconciled(c: Caller, outcome: Outcome) | Cancel(c: Caller)

  type Requests = Caller -> Request

  function At(s: State, c: Caller): Pc {
    if c in s.callers then s.callers[c] else Idle
  }

  function Initial(): State {
    State(map[], map[], None, [])
  }

  predicate Critical(pc: Pc) {
    pc.Preparing? || pc.Queueing? || pc.Polling? || (pc.Reconciling? && pc.late)
  }

  predicate Active(pc: Pc) {
    Critical(pc) || pc.WantLock? || pc.Reconciling?
  }

  function Move(s: State, c: Caller, pc: Pc): State {
    s.(callers := s.callers[c := pc])
  }

  function Store(req: Requests, s: State, c: Caller, receipt: Receipt, answer: Answer): State {
    Move(s, c, Done(answer)).(receipts := s.receipts[req(c).key := receipt])
  }

  function Unlock(s: State, c: Caller): State {
    if s.lock == Some(c) then s.(lock := None) else s
  }

  /** A bound key: settled receipts are returned at once, unknown ones with a prompt id are looked up. */
  function Replay(req: Requests, s: State, c: Caller, late: bool): State
    requires req(c).key in s.receipts
  {
    var prior := s.receipts[req(c).key];
    if prior.status == Unknown && prior.prompt.Some? then
      Move(s, c, Reconciling(prior, late)).(lock := if late then Some(c) else s.lock)
    else Store(req, s, c, prior, Replayed(prior, late))
  }

  /** What a lookup makes of the receipt it started from. */
  function Updated(prior: Receipt, outcome: Outcome, destination: nat): Receipt {
    match outcome
    case WorkflowFailed => prior.(status := Failed)
    case Materialized => prior.(status := Completed, output := Some(destination))
    case _ => prior
  }

  function Settle(req: Requests, s: State, c: Caller, status: Status, prompt: Option<nat>): State {
    var output := if status == Completed then Some(req(c).destination) else None;
    var receipt := Receipt(c, req(c).fingerprint, status, prompt, output);
    Store(req, s, c, receipt, Own(receipt)).(lock := None)
  }

  function Begin(req: Requests, s: State, c: Caller, outputExists: bool): State {
    if !req(c).valid then Move(s, c, Done(Raised))
    else if req(c).key in s.receipts then
      if s.receipts[req(c).key].fingerprint != req(c).fingerprint then Move(s, c, Done(Blocked)) else Replay(req, s, c, false)
    else if outputExists then Move(s, c, Done(Raised))
    else Move(s, c, WantLock)
  }

  /** One event; an event that is not enabled changes nothing. */
  function Step(req: Requests, s: State, e: Event): State {
    var c := e.c;
    match e
    case Start(_, outputExists) => if At(s, c) == Idle then Begin(req, s, c, outputExists) else s
    case Acquire(_) =>
      if At(s, c) != WantLock || s.lock.Some? then s
      else if req(c).key in s.receipts then Replay(req, s, c, true)
      else Move(s, c, Preparing).(lock := Some(c))
    case Submit(_) => if At(s, c) == Preparing then Move(s, c, Queueing).(queued := s.queued + [c]) else s
    case Accepted(_, prompt) => if At(s, c) == Queueing then Move(s, c, Polling(prompt)) else s
    case Rejected(_, refused) =>
      if At(s, c) != Queueing then s else Settle(req, s, c, if refused.Some? then Unknown else Failed, refused)
    case Finish(_) => if At(s, c).Polling? then Settle(req, s, c, Completed, Some(At(s, c).prompt)) else s
    case Fail(_) =>
      if At(s, c).Polling? then Settle(req, s, c, Unknown, Some(At(s, c).prompt))
      else if At(s, c) == Preparing || At(s, c) == Queueing then Settle(req, s, c, Failed, None)
      else s
    case Reconciled(_, outcome) =>
      if !At(s, c).Reconciling? then s
      else if outcome == TransportRaises then Unlock(Move(s, c, Done(Raised)), c)
      else
        var r := Updated(At(s, c).prior, outcome, req(c).destination);
        Unlock(Store(req, s, c, r, Replayed(r, At(s, c).late)), c)
    case Cancel(_) => if Active(At(s, c)) then Unlock(Move(s, c, Cancelled), c) else s
  }

  function Run(req: Requests, s: State, schedule: seq<Event>): State
    decreases |schedule|
  {
    if schedule == [] then s else Run(req, Step(req, s, schedule[0]), schedule[1..])
  }

  // ---------------------------------------------------------------- the invariant

  /** Two receipts of the same submission: only the status and the output path may differ. */
  predicate SameRun(r: Receipt, r': Receipt) {
    r.owner == r'.owner && r.fingerprint == r'.fingerprint && r.prompt == r'.prompt
  }

  predicate Bound(req: Requests, s: State, c: Caller, r: Receipt) {
    req(c).key in s.receipts && SameRun(r, s.receipts[req(c).key])
  }

  ghost predicate QueuedAtMostOnce(s: State, c: Caller) {
    forall i, j :: 0 <= i < |s.queued| && 0 <= j < |s.queued| && s.queued[i] == c && s.queued[j] == c ==> i == j
  }

  ghost predicate AnswerOk(req: Requests, s: State, c: Caller, answer: Answer) {
    match answer
    case Own(r) => r.owner == c && r.fingerprint == req(c).fingerprint && Bound(req, s, c, r) && QueuedAtMostOnce(s, c)
    case Replayed(r, late) => c !in s.queued && Bound(req, s, c, r) && (!late ==> r.fingerprint == req(c).fingerprint)
    case Blocked => c !in s.queued && req(c).key in s.receipts && s.receipts[req(c).key].fingerprint != req(c).fingerprint
    case Raised => c !in s.queued
  }

  ghost predicate CallerOk(req: Requests, s: State, c: Caller) {
    && (s.lock == Some(c) <==> Critical(At(s, c)))
    && match At(s, c)
       case Idle => c !in s.queued
       case WantLock => c !in s.queued
       case Preparing => c !in s.queued && req(c).key !in s.receipts
       case Queueing => c in s.queued && QueuedAtMostOnce(s, c) && req(c).key !in s.receipts
       case Polling(_) => c in s.queued && QueuedAtMostOnce(s, c) && req(c).key !in s.receipts
       case Reconciling(prior, late) =>
         c !in s.queued && Bound(req, s, c, prior) && prior.status == Unknown && (!late ==> prior.fingerprint == req(c).fingerprint)
       case Done(answer) => AnswerOk(req, s, c, answer)
       case Cancelled => QueuedAtMostOnce(s, c)
  }

  predicate KeyOk(req: Requests, s: State, key: string) {
    key in s.receipts ==>
      var r := s.receipts[key];
      req(r.owner).key == key && At(s, r.owner).Done? && At(s, r.owner).answer.Own?
  }

  ghost predicate Inv(req: Requests, s: State) {
    (forall c :: CallerOk(req, s, c)) && (forall key :: KeyOk(req, s, key))
  }

  /** Of two submissions under one key, the earlier caller was cancelled. */
  ghost predicate LogOk(req: Requests, s: State) {
    forall i, j :: 0 <= i < j < |s.queued| && req(s.queued[i]).key == req(s.queued[j]).key ==> At(s, s.queued[i]) == Cancelled
  }

  lemma InitialInv(req: Requests)
    ensures Inv(req, Initial()) && LogOk(req, Initial())
  {}

  lemma InvCaller(req: Requests, s: State, c: Caller)
    requires Inv(req, s)
    ensures CallerOk(req, s, c)
  {}

  /** `c` moves, perhaps taking or giving up the lock; receipts and log stay. */
  lemma MoveKeepsInv(req: Requests, s: State, c: Caller, s': State)
    requires Inv(req, s) && !At(s, c).Done?
    requires s' == Move(s, c, At(s', c)).(lock := s'.lock)
    requires s'.lock == s.lock || (s'.lock == Some(c) && s.lock == None) || (s'.lock == None && s.lock == Some(c))
    requires CallerOk(req, s', c)
    ensures Inv(req, s')
  {
    forall d ensures CallerOk(req, s', d) { assert CallerOk(req, s, d); }
    forall key ensures KeyOk(req, s', key) { assert KeyOk(req, s, key); }
  }

  /** `c` stores a receipt of the run its key is already bound to, or binds a free key itself, and finishes. */
  lemma StoreKeepsInv(req: Requests, s: State, c: Caller, r: Receipt, answer: Answer, lock: Option<Caller>)
    requires Inv(req, s) && !At(s, c).Done?
    requires req(c).key in s.receipts ==> SameRun(r, s.receipts[req(c).key])
    requires req(c).key !in s.receipts ==> r.owner == c && answer.Own? && Critical(At(s, c))
    requires lock == if s.lock == Some(c) then None else s.lock
    requires AnswerOk(req, Store(req, s, c, r, answer), c, answer)
    ensures Inv(req, Store(req, s, c, r, answer).(lock := lock))
  {
    var s' := Store(req, s, c, r, answer).(lock := lock);
    assert CallerOk(req, s, c);
    forall d ensures CallerOk(req, s', d) { assert CallerOk(req, s, d); }
    forall key ensures KeyOk(req, s', key) { assert KeyOk(req, s, key); }
  }

  lemma SubmitKeepsInv(req: Requests, s: State, c: Caller)
    requires Inv(req, s) && At(s, c) == Preparing
    ensures Inv(req, Step(req, s, Submit(c)))
  {
    var s' := Step(req, s, Submit(c));
    assert CallerOk(req, s, c);
    assert s'.queued[|s.queued|] == c;
    forall d ensures CallerOk(req, s', d) {
      assert CallerOk(req, s, d);
      if d != c { assert d in s.queued <==> d in s'.queued; }
    }
    forall key ensures KeyOk(req, s', key) { assert KeyOk(req, s, key); }
  }

  lemma ReplayKeepsInv(req: Requests, s: State, c: Caller, late: bool)
    requires Inv(req, s) && (if late then At(s, c) == WantLock && s.lock == None else At(s, c) == Idle)
    requires req(c).key in s.receipts && (!late ==> s.receipts[req(c).key].fingerprint == req(c).fingerprint)
    ensures Inv(req, Replay(req, s, c, late))
  {
    hide Inv, KeyOk;
    InvCaller(req, s, c);
    var prior := s.receipts[req(c).key];
    if prior.status == Unknown && prior.prompt.Some? {
      MoveKeepsInv(req, s, c, Replay(req, s, c, late));
    } else {
      StoreKeepsInv(req, s, c, prior, Replayed(prior, late), s.lock);
    }
  }

  lemma SettleKeepsInv(req: Requests, s: State, c: Caller, status: Status, prompt: Option<nat>)
    requires Inv(req, s) && (At(s, c).Preparing? || At(s, c).Queueing? || At(s, c).Polling?)
    ensures Inv(req, Settle(req, s, c, status, prompt))
  {
    hide Inv, KeyOk;
    InvCaller(req, s, c);
    var output := if status == Completed then Some(req(c).destination) else None;
    var receipt := Receipt(c, req(c).fingerprint, status, prompt, output);
    StoreKeepsInv(req, s, c, receipt, Own(receipt), None);
  }

  lemma StartKeepsInv(req: Requests, s: State, c: Caller, outputExists: bool)
    requires Inv(req, s)
    ensures Inv(req, Step(req, s, Start(c, outputExists)))
  {
    hide Inv, KeyOk, Replay;
    InvCaller(req, s, c);
    var s' := Step(req, s, Start(c, outputExists));
    if At(s, c) == Idle {
      if req(c).valid && req(c).key in s.receipts && s.receipts[req(c).key].fingerprint == req(c).fingerprint {
        ReplayKeepsInv(req, s, c, false);
      } else {
        MoveKeepsInv(req, s, c, s');
      }
    }
  }

  lemma AcquireKeepsInv(req: Requests, s: State, c: Caller)
    requires Inv(req, s)
    ensures Inv(req, Step(req, s, Acquire(c)))
  {
    hide Inv, KeyOk, Replay;
    InvCaller(req, s, c);
    if At(s, c) == WantLock && s.lock == None {
      if req(c).key in s.receipts { ReplayKeepsInv(req, s, c, true); }
      else { MoveKeepsInv(req, s, c, Step(req, s, Acquire(c))); }
    }
  }

  lemma ReconciledKeepsInv(req: Requests, s: State, c: Caller, outcome: Outcome)
    requires Inv(req, s)
    ensures Inv(req, Step(req, s, Reconciled(c, outcome)))
  {
    hide Inv, KeyOk;
    InvCaller(req, s, c);
    if At(s, c).Reconciling? {
      var s' := Step(req, s, Reconciled(c, outcome));
      if outcome == TransportRaises {
        MoveKeepsInv(req, s, c, s');
      } else {
        var r := Updated(At(s, c).prior, outcome, req(c).destination);
        StoreKeepsInv(req, s, c, r, Replayed(r, At(s, c).late), s'.lock);
        assert s' == Store(req, s, c, r, Replayed(r, At(s, c).late)).(lock := s'.lock);
      }
    }
  }

  lemma QuietKeepsInv(req: Requests, s: State, e: Event)
    requires Inv(req, s) && (e.Accepted? || e.Cancel?)
    ensures Inv(req, Step(req, s, e))
  {
    hide Inv, KeyOk;
    InvCaller(req, s, e.c);
    if Step(req, s, e) != s { MoveKeepsInv(req, s, e.c, Step(req, s, e)); }
  }

  lemma StepKeepsInv(req: Requests, s: State, e: Event)
    requires Inv(req, s)
    ensures Inv(req, Step(req, s, e))
  {
    hide Inv, Settle, Begin, Replay, Store, Unlock;
    var c := e.c;
    match e
    case Start(_, outputExists) => StartKeepsInv(req, s, c, outputExists);
    case Acquire(_) => AcquireKeepsInv(req, s, c);
    case Submit(_) => if At(s, c) == Preparing { SubmitKeepsInv(req, s, c); }
    case Accepted(_, _) => QuietKeepsInv(req, s, e);
    case Rejected(_, refused) => if At(s, c) == Queueing { SettleKeepsInv(req, s, c, if refused.Some? then Unknown else Failed, refused); }
    case Finish(_) => if At(s, c).Polling? { SettleKeepsInv(req, s, c, Completed, Some(At(s, c).prompt)); }
    case Fail(_) =>
      if At(s, c).Polling? { SettleKeepsInv(req, s, c, Unknown, Some(At(s, c).prompt)); }
      else if At(s, c) == Preparing || At(s, c) == Queueing { SettleKeepsInv(req, s, c, Failed, None); }
    case Reconciled(_, outcome) => ReconciledKeepsInv(req, s, c, outcome);
    case Cancel(_) => QuietKeepsInv(req, s, e);
  }

  lemma StepKeepsLog(req: Requests, s: State, e: Event)
    requires Inv(req, s) && LogOk(req, s)
    ensures LogOk(req, Step(req, s, e))
  {
    hide SameRun, KeyOk;
    var s' := Step(req, s, e);
    forall i, j | 0 <= i < j < |s'.queued| && req(s'.queued[i]).key == req(s'.queued[j]).key
      ensures At(s', s'.queued[i]) == Cancelled
    {
      InvCaller(req, s, e.c);
      InvCaller(req, s, s.queued[i]);
      if j < |s.queued| { assert At(s, s.queued[i]) == Cancelled; }
    }
  }

  lemma {:induction false} RunKeepsInv(req: Requests, s: State, schedule: seq<Event>)
    requires Inv(req, s) && LogOk(req, s)
    ensures Inv(req, Run(req, s, schedule)) && LogOk(req, Run(req, s, schedule))
    decreases |schedule|
  {
    hide Step, Inv, LogOk;
    if schedule != [] {
      StepKeepsInv(req, s, schedule[0]);
      StepKeepsLog(req, s, schedule[0]);
      RunKeepsInv(req, Step(req, s, schedule[0]), schedule[1..]);
    }
  }
}
