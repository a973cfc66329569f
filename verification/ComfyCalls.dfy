/** The ComfyUI gateway object: one uninterrupted call takes exactly the protocol's steps. */
module ComfyCalls {
  import opened Wrappers
  import opened ComfyProtocol

  datatype Poll = Running | Finished | Errored | Breaks

  datatype QueueReply = Accepts(prompt: nat) | Refuses(refused: Option<nat>) | NoReply

  /** What server and file system do during one call. `polls` are the history reads before the deadline. */
  datatype Server = Server(outputExists: bool, lookup: Outcome, ready: bool, queue: QueueReply, polls: seq<Poll>, saves: bool)

  /** Some poll reports the finished workflow, all earlier ones that it still runs, and its one image can be saved. */
  predicate Delivers(t: Server) {
    t.saves && exists i :: 0 <= i < |t.polls| && t.polls[i] == Finished && forall j :: 0 <= j < i ==> t.polls[j] == Running
  }

  function QueueEvent(c: Caller, t: Server): Event {
    match t.queue
    case Accepts(prompt) => Accepted(c, prompt)
    case Refuses(refused) => Rejected(c, refused)
    case NoReply => Event.Fail(c)
  }

  function EventsOf(c: Caller, t: Server): seq<Event> {
    [Start(c, t.outputExists), Acquire(c), Reconciled(c, t.lookup), if t.ready then Submit(c) else Event.Fail(c), QueueEvent(c, t),
     if Delivers(t) then Event.Finish(c) else Event.Fail(c)]
  }

  lemma RunOne(req: Requests, s: State, e: Event, rest: seq<Event>)
    ensures Run(req, s, [e] + rest) == Run(req, Step(req, s, e), rest)
  {
    hide Step;
    assert ([e] + rest)[1..] == rest;
  }

  /** The state after the first n events. */
  function StateAt(req: Requests, s: State, events: seq<Event>, n: nat): State
    requires n <= |events|
  {
    if n == 0 then s else Step(req, StateAt(req, s, events, n - 1), events[n - 1])
  }

  lemma {:induction false} RunIsStateAt(req: Requests, s: State, events: seq<Event>, n: nat)
    requires n <= |events|
    ensures Run(req, s, events) == Run(req, StateAt(req, s, events, n), events[n..])
  {
    hide Step, Run;
    if n == 0 {
      assert events[0..] == events;
    } else {
      RunIsStateAt(req, s, events, n - 1);
      RunOne(req, StateAt(req, s, events, n - 1), events[n - 1], events[n..]);
      assert events[n - 1..] == [events[n - 1]] + events[n..];
    }
  }

  /** A finished call takes no further step. */
  lemma DoneStays(req: Requests, s: State, e: Event)
    requires At(s, e.c).Done?
    ensures Step(req, s, e) == s
  {}

  /** So once it is done, the rest of its events change nothing. */
  lemma {:induction false} DoneForGood(req: Requests, s: State, events: seq<Event>, c: Caller, m: nat, n: nat)
    requires m <= n <= |events| && At(StateAt(req, s, events, m), c).Done? && forall e :: e in events ==> e.c == c
    ensures StateAt(req, s, events, n) == StateAt(req, s, events, m)
    decreases n
  {
    hide Step;
    if m < n {
      DoneForGood(req, s, events, c, m, n - 1);
      DoneStays(req, StateAt(req, s, events, n - 1), events[n - 1]);
    }
  }

  /** Where the submission goes from the lock: it settles at once, or is queued and settles by the server's reply. */
  function Submitted(req: Requests, s: State, c: Caller, t: Server): State {
    if !t.ready then ComfyProtocol.Settle(req, s, c, Failed, None)
    else
      var queueing := Move(s, c, Queueing).(queued := s.queued + [c]);
      match t.queue
      case NoReply => ComfyProtocol.Settle(req, queueing, c, Failed, None)
      case Refuses(refused) => ComfyProtocol.Settle(req, queueing, c, if refused.Some? then Unknown else Failed, refused)
      case Accepts(prompt) =>
        ComfyProtocol.Settle(req, Move(queueing, c, Polling(prompt)), c, if Delivers(t) then Completed else Unknown, Some(prompt))
  }

  lemma SettledStays(req: Requests, s: State, c: Caller, status: Status, prompt: Option<nat>, e: Event)
    requires e.c == c
    ensures Step(req, ComfyProtocol.Settle(req, s, c, status, prompt), e) == ComfyProtocol.Settle(req, s, c, status, prompt)
  {
    hide Step;
    DoneStays(req, ComfyProtocol.Settle(req, s, c, status, prompt), e);
  }

  lemma SubmissionRuns(req: Requests, s: State, c: Caller, t: Server)
    requires At(s, c) == Preparing
    ensures Step(req, Step(req, Step(req, s, EventsOf(c, t)[3]), EventsOf(c, t)[4]), EventsOf(c, t)[5]) == Submitted(req, s, c, t)
  {
    hide Step, ComfyProtocol.Settle, Delivers;
    var first, second, last := EventsOf(c, t)[3], EventsOf(c, t)[4], EventsOf(c, t)[5];
    if !t.ready {
      PreparingSteps(req, s, c);
      SettledStays(req, s, c, Failed, None, second);
      SettledStays(req, s, c, Failed, None, last);
    } else {
      PreparingSteps(req, s, c);
      var queueing := Move(s, c, Queueing).(queued := s.queued + [c]);
      QueueingSteps(req, queueing, c, t);
      match t.queue
      case NoReply => SettledStays(req, queueing, c, Failed, None, last);
      case Refuses(refused) => SettledStays(req, queueing, c, if refused.Some? then Unknown else Failed, refused, last);
      case Accepts(prompt) => PollingSteps(req, Move(queueing, c, Polling(prompt)), c, prompt);
    }
  }

  lemma PreparingSteps(req: Requests, s: State, c: Caller)
    requires At(s, c) == Preparing
    ensures Step(req, s, Event.Fail(c)) == ComfyProtocol.Settle(req, s, c, Failed, None)
    ensures Step(req, s, Submit(c)) == Move(s, c, Queueing).(queued := s.queued + [c])
  {}

  lemma QueueingSteps(req: Requests, s: State, c: Caller, t: Server)
    requires At(s, c) == Queueing
    ensures Step(req, s, QueueEvent(c, t)) ==
              match t.queue
              case NoReply => ComfyProtocol.Settle(req, s, c, Failed, None)
              case Refuses(refused) => ComfyProtocol.Settle(req, s, c, if refused.Some? then Unknown else Failed, refused)
              case Accepts(prompt) => Move(s, c, Polling(prompt))
  {
    hide ComfyProtocol.Settle;
  }

  lemma PollingSteps(req: Requests, s: State, c: Caller, prompt: nat)
    requires At(s, c) == Polling(prompt)
    ensures Step(req, s, Event.Finish(c)) == ComfyProtocol.Settle(req, s, c, Completed, Some(prompt))
    ensures Step(req, s, Event.Fail(c)) == ComfyProtocol.Settle(req, s, c, Unknown, Some(prompt))
  {
    hide ComfyProtocol.Settle;
  }

  /** The answer from a bound key: a receipt that is not unknown, or names no prompt, as it is; any other after a lookup. */
  function LookedUp(prior: Receipt, lookup: Outcome, destination: nat, late: bool): Answer {
    if prior.status != Unknown || prior.prompt.None? then Replayed(prior, late)
    else
      match lookup
      case StillRunning => Replayed(prior, late)
      case WorkflowFailed => Replayed(Receipt(prior.owner, prior.fingerprint, Failed, prior.prompt, prior.output), late)
      case Materialized => Replayed(Receipt(prior.owner, prior.fingerprint, Completed, prior.prompt, Some(destination)), late)
      case TransportRaises => Raised
  }

  /** What the server makes of a submission. */
  function Generated(c: Caller, r: Request, t: Server): Receipt {
    var failed := Receipt(c, r.fingerprint, Failed, None, None);
    if !t.ready then failed
    else
      match t.queue
      case NoReply => failed
      case Refuses(refused) => if refused.None? then failed else Receipt(c, r.fingerprint, Unknown, refused, None)
      case Accepts(prompt) =>
        if Delivers(t) then Receipt(c, r.fingerprint, Completed, Some(prompt), Some(r.destination))
        else Receipt(c, r.fingerprint, Unknown, Some(prompt), None)
  }

  class ComfyUIGateway {
    const requests: Requests
    var callers: map<Caller, Pc>
    var receipts: map<string, Receipt>
    var lock: Option<Caller>
    var queued: seq<Caller>

    constructor (requests: Requests)
      ensures this.requests == requests && View() == Initial()
    {
      this.requests := requests;
      callers, receipts, lock, queued := map[], map[], None, [];
    }

    ghost function View(): State
      reads this
    {
      State(callers, receipts, lock, queued)
    }

    /** The history loop: it ends at the first report that the workflow finished or failed, or at the deadline. */
    static method PollUntilDone(t: Server) returns (delivered: bool)
      ensures delivered <==> Delivers(t)
    {
      for n := 0 to |t.polls|
        invariant forall j :: 0 <= j < n ==> t.polls[j] == Running
      {
        match t.polls[n]
        case Running =>
        case Finished => return t.saves;
        case _ => return false;
      }
      return false;
    }

    /** The owner's receipt is stored and the lock given up. */
    method Settle(c: Caller, status: Status, prompt: Option<nat>) returns (answer: Answer)
      modifies this`callers, this`receipts, this`lock
      ensures answer == Own(Receipt(c, requests(c).fingerprint, status, prompt, if status == Completed then Some(requests(c).destination) else None))
      ensures receipts == old(receipts)[requests(c).key := answer.receipt] && lock == None
      ensures View() == ComfyProtocol.Settle(requests, old(View()), c, status, prompt) && At(View(), c) == Done(answer)
    {
      var receipt := Receipt(c, requests(c).fingerprint, status, prompt, if status == Completed then Some(requests(c).destination) else None);
      answer := Own(receipt);
      callers, receipts, lock := callers[c := Done(answer)], receipts[requests(c).key := receipt], None;
    }

    /** Looks an unknown receipt up and stores what came of it; settled receipts are stored back unchanged. */
    method Reconcile(c: Caller, late: bool, lookup: Outcome) returns (answer: Answer)
      requires requests(c).key in receipts && lock == None
      modifies this
      ensures View() == Step(requests, Replay(requests, old(View()), c, late), Reconciled(c, lookup)) && At(View(), c) == Done(answer)
      ensures var prior := old(receipts)[requests(c).key];
              && answer == LookedUp(prior, lookup, requests(c).destination, late)
              && receipts == (if answer.Raised? then old(receipts) else old(receipts)[requests(c).key := answer.receipt])
              && queued == old(queued)
    {
      hide Step, Replay;
      LookupSteps(requests, View(), c, late, lookup);
      var prior := receipts[requests(c).key];
      answer := Raised;
      if prior.status == Unknown && prior.prompt.Some? && lookup == TransportRaises {
        callers := callers[c := Done(answer)];
      } else {
        if prior.status == Unknown && prior.prompt.Some? { prior := Updated(prior, lookup, requests(c).destination); }
        answer := Replayed(prior, late);
        callers, receipts := callers[c := Done(answer)], receipts[requests(c).key := prior];
      }
    }

    /** The submission under the lock. */
    method Generate(c: Caller, t: Server) returns (answer: Answer)
      requires At(View(), c) == Preparing && lock == Some(c)
      modifies this
      ensures var s1 := Step(requests, old(View()), EventsOf(c, t)[3]);
              var s2 := Step(requests, s1, EventsOf(c, t)[4]);
              View() == Step(requests, s2, EventsOf(c, t)[5]) && At(View(), c) == Done(answer)
      ensures answer == Own(Generated(c, requests(c), t)) && receipts == old(receipts)[requests(c).key := answer.receipt]
      ensures queued == (if t.ready then old(queued) + [c] else old(queued)) && lock == None
    {
      hide ComfyProtocol.Settle, Delivers, Step, EventsOf;
      SubmissionRuns(requests, View(), c, t);
      if !t.ready {
        answer := Settle(c, Failed, None);
        return;
      }
      queued, callers := queued + [c], callers[c := Queueing];
      match t.queue
      case NoReply => answer := Settle(c, Failed, None);
      case Refuses(refused) => answer := Settle(c, if refused.Some? then Unknown else Failed, refused);
      case Accepts(prompt) =>
        callers := callers[c := Polling(prompt)];
        var delivered := PollUntilDone(t);
        answer := Settle(c, if delivered then Completed else Unknown, Some(prompt));
    }

    /** One call that no other call interrupts is one run of the protocol. */
    method Stylize(c: Caller, t: Server) returns (answer: Answer)
      requires At(View(), c) == Idle && lock == None
      modifies this
      ensures View() == Run(requests, old(View()), EventsOf(c, t)) && At(View(), c) == Done(answer)
      ensures var r := requests(c);
              if !r.valid || (r.key !in old(receipts) && t.outputExists) then
                answer == Raised && receipts == old(receipts) && queued == old(queued)
              else if r.key !in old(receipts) then
                && answer == Own(Generated(c, r, t)) && receipts == old(receipts)[r.key := answer.receipt]
                && queued == (if t.ready then old(queued) + [c] else old(queued))
              else if old(receipts)[r.key].fingerprint != r.fingerprint then
                answer == Blocked && receipts == old(receipts) && queued == old(queued)
              else
                && answer == LookedUp(old(receipts)[r.key], t.lookup, r.destination, false)
                && receipts == (if answer.Raised? then old(receipts) else old(receipts)[r.key := answer.receipt])
                && queued == old(queued)
    {
      hide Step, Run, Generated, Begin, Replay, ComfyProtocol.Settle, Delivers, EventsOf;
      ghost var s := View();
      var r := requests(c);
      StartCases(requests, s, c, t.outputExists);
      CallSplits(requests, s, c, t);
      ReplaysNeverQueue(requests, s, c, t);
      if !r.valid || (r.key !in receipts && t.outputExists) {
        answer, callers := Raised, callers[c := Done(Raised)];
      } else if r.key in receipts && receipts[r.key].fingerprint != r.fingerprint {
        answer, callers := Blocked, callers[c := Done(Blocked)];
      } else if r.key in receipts {
        answer := Reconcile(c, false, t.lookup);
      } else {
        callers, lock := callers[c := WantLock][c := Preparing], Some(c);
        assert View() == Move(Move(s, c, WantLock), c, Preparing).(lock := Some(c));
        answer := Generate(c, t);
      }
    }
  }

  /** The run of a call, by how the call begins. */
  lemma CallSplits(req: Requests, s: State, c: Caller, t: Server)
    requires At(s, c) == Idle && s.lock == None
    ensures var s1, end := Step(req, s, Start(c, t.outputExists)), Run(req, s, EventsOf(c, t));
            && (At(s1, c).Done? ==> end == s1)
            && (req(c).key in s.receipts && s1 == Replay(req, s, c, false) ==> end == Step(req, s1, Reconciled(c, t.lookup)))
            && (req(c).key !in s.receipts && s1 == Move(s, c, WantLock) ==>
                  end == Step(req, Step(req, Step(req, Move(s1, c, Preparing).(lock := Some(c)), EventsOf(c, t)[3]), EventsOf(c, t)[4]), EventsOf(c, t)[5]))
  {
    hide Step, Run, Begin, Replay, Delivers;
    var events := EventsOf(c, t);
    RunIsStateAt(req, s, events, 6);
    RunNone(req, StateAt(req, s, events, 6), events[6..]);
    UnfoldStates(req, s, events);
    var s1 := Step(req, s, Start(c, t.outputExists));
    if s1 == Move(s, c, WantLock) && req(c).key !in s.receipts {
      FreshSkipsTheLookup(req, s, c, t.lookup);
    }
    if req(c).key in s.receipts && s1 == Replay(req, s, c, false) {
      ReplaySkipsTheLock(req, s, c);
      LookupEnds(req, s, c, t.lookup);
      DoneForGood(req, s, events, c, 3, 6);
    }
    if At(s1, c).Done? {
      DoneForGood(req, s, events, c, 1, 6);
    }
  }

  lemma RunNone(req: Requests, s: State, events: seq<Event>)
    requires events == []
    ensures Run(req, s, events) == s
  {}

  lemma UnfoldStates(req: Requests, s: State, events: seq<Event>)
    requires |events| == 6
    ensures StateAt(req, s, events, 1) == Step(req, s, events[0])
    ensures StateAt(req, s, events, 3) == Step(req, Step(req, Step(req, s, events[0]), events[1]), events[2])
    ensures StateAt(req, s, events, 6)
         == Step(req, Step(req, Step(req, StateAt(req, s, events, 3), events[3]), events[4]), events[5])
  {
    hide Step;
    assert StateAt(req, s, events, 0) == s;
    assert StateAt(req, s, events, 2) == Step(req, StateAt(req, s, events, 1), events[1]);
    assert StateAt(req, s, events, 4) == Step(req, StateAt(req, s, events, 3), events[3]);
    assert StateAt(req, s, events, 5) == Step(req, StateAt(req, s, events, 4), events[4]);
  }

  lemma StartCases(req: Requests, s: State, c: Caller, outputExists: bool)
    requires At(s, c) == Idle
    ensures var r, s' := req(c), Step(req, s, Start(c, outputExists));
            if !r.valid || (r.key !in s.receipts && outputExists) then s' == Move(s, c, Done(Raised))
            else if r.key !in s.receipts then s' == Move(s, c, WantLock)
            else if s.receipts[r.key].fingerprint != r.fingerprint then s' == Move(s, c, Done(Blocked))
            else s' == Replay(req, s, c, false)
  {}

  lemma ReplaySkipsTheLock(req: Requests, s: State, c: Caller)
    requires req(c).key in s.receipts
    ensures Step(req, Replay(req, s, c, false), Acquire(c)) == Replay(req, s, c, false)
  {}

  lemma FreshSkipsTheLookup(req: Requests, s: State, c: Caller, lookup: Outcome)
    requires req(c).key !in s.receipts && s.lock == None
    ensures var s1 := Move(s, c, WantLock);
            Step(req, Step(req, s1, Acquire(c)), Reconciled(c, lookup)) == Move(s1, c, Preparing).(lock := Some(c))
  {}

  /** A call of a bound key adds nothing to the queue. */
  lemma ReplaysNeverQueue(req: Requests, s: State, c: Caller, t: Server)
    requires At(s, c) == Idle && s.lock == None
    ensures req(c).key in s.receipts ==> Run(req, s, EventsOf(c, t)).queued == s.queued
  {
    hide Step, Run, EventsOf, Replay;
    if req(c).key in s.receipts {
      StartCases(req, s, c, t.outputExists);
      CallSplits(req, s, c, t);
      LookupEnds(req, s, c, t.lookup);
    }
  }

  /** A lookup from a free lock, in one go. */
  lemma LookupSteps(req: Requests, s: State, c: Caller, late: bool, lookup: Outcome)
    requires req(c).key in s.receipts && s.lock == None
    ensures var prior := s.receipts[req(c).key];
            Step(req, Replay(req, s, c, late), Reconciled(c, lookup)) ==
              if prior.status == Unknown && prior.prompt.Some? && lookup == TransportRaises then Move(s, c, Done(Raised))
              else
                var r := if prior.status == Unknown && prior.prompt.Some? then Updated(prior, lookup, req(c).destination) else prior;
                s.(callers := s.callers[c := Done(Replayed(r, late))], receipts := s.receipts[req(c).key := r])
  {
    hide Updated;
    var s' := Step(req, Replay(req, s, c, late), Reconciled(c, lookup));
    var between := At(Replay(req, s, c, late), c);
    assert s.callers[c := between][c := At(s', c)] == s.callers[c := At(s', c)];
  }

  lemma LookupEnds(req: Requests, s: State, c: Caller, lookup: Outcome)
    requires req(c).key in s.receipts
    ensures var s' := Step(req, Replay(req, s, c, false), Reconciled(c, lookup)); At(s', c).Done? && s'.queued == s.queued
  {}
}
