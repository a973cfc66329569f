/** At most one execution per key for the script client, across restarts of the sidecar. */
module RhinoClientProofs {
  import opened Wrappers
  import opened RhinoClient

  lemma InitialInv(w: World)
    ensures Inv(w, Initial())
  {}

  lemma InvCaller(w: World, s: State, c: Caller)
    requires Inv(w, s)
    ensures CallerOk(w, s, c)
  {}

  /** Dropping pending scripts keeps the order of the rest. */
  lemma DropKeepsOrder(w: World, blind: set<Caller>, ran: seq<Caller>, pending: seq<Caller>, n: nat)
    requires n <= |pending| && Ordered(w, blind, ran + pending)
    ensures Ordered(w, blind, ran + pending[n..])
    ensures forall c :: c in ran + pending[n..] ==> c in ran + pending
  {
    var t, t' := ran + pending, ran + pending[n..];
    forall i | 0 <= i < |t'| ensures t'[i] == t[if i < |ran| then i else i + n] {}
  }

  /** The pending scripts vanish. */
  lemma ClearKeepsInv(w: World, s: State)
    requires Inv(w, s)
    ensures Inv(w, s.(pending := []))
  {
    var s' := s.(pending := []);
    DropKeepsOrder(w, s.blind, s.executions, s.pending, |s.pending|);
    assert s.pending[|s.pending|..] == [];
    forall c ensures CallerOk(w, s', c) { assert CallerOk(w, s, c); }
    forall key ensures KeyOk(w, s', key) { assert KeyOk(w, s, key); }
  }

  /** `c` moves; keys, document and network stay. */
  lemma MoveKeepsInv(w: World, s: State, c: Caller, pc: Pc)
    requires Inv(w, s) && CallerOk(w, Move(s, c, pc), c)
    ensures Inv(w, Move(s, c, pc))
  {
    var s' := Move(s, c, pc);
    assert Trace(s') == Trace(s);
    forall d ensures CallerOk(w, s', d) { assert CallerOk(w, s, d); }
    forall key ensures KeyOk(w, s', key) { assert KeyOk(w, s, key); }
  }

  lemma BlindKeepsInv(w: World, s: State, c: Caller)
    requires Inv(w, s) && At(s, c) == Checking
    ensures Inv(w, Move(s, c, Armed).(blind := s.blind + {c}))
  {
    var s' := Move(s, c, Armed).(blind := s.blind + {c});
    assert Trace(s') == Trace(s);
    forall d ensures CallerOk(w, s', d) { assert CallerOk(w, s, d); }
    forall key ensures KeyOk(w, s', key) { assert KeyOk(w, s, key); }
  }

  lemma OwnKeepsInv(w: World, s: State, c: Caller)
    requires Inv(w, s) && At(s, c) == Idle && w.requests(c).key != "" && w.requests(c).key !in s.recent && w.requests(c).key !in s.inflight
    ensures Inv(w, Move(s, c, Checking).(inflight := s.inflight[w.requests(c).key := c]))
  {
    var s' := Move(s, c, Checking).(inflight := s.inflight[w.requests(c).key := c]);
    assert Trace(s') == Trace(s);
    assert CallerOk(w, s, c);
    forall d ensures CallerOk(w, s', d) { assert CallerOk(w, s, d); }
    forall key ensures KeyOk(w, s', key) { assert KeyOk(w, s, key); }
  }

  /** The caller being served answers, freeing its key and perhaps remembering a receipt under it. */
  lemma LeaveKeepsInv(w: World, s: State, c: Caller, answer: Answer, recent: map<string, Receipt>)
    requires Inv(w, s) && Serving(At(s, c)) && AnswerOk(w, s, c, answer)
    requires recent == s.recent
          || (w.requests(c).key != "" && Carries(answer) && recent == s.recent[w.requests(c).key := answer.receipt])
    ensures Inv(w, Leave(w, s, c, answer).(recent := recent))
  {
    var s' := Leave(w, s, c, answer).(recent := recent);
    assert Trace(s') == Trace(s);
    assert CallerOk(w, s, c);
    forall d ensures CallerOk(w, s', d) { assert CallerOk(w, s, d); }
    forall key ensures KeyOk(w, s', key) { assert KeyOk(w, s, key); }
  }

  lemma SendKeepsInv(w: World, s: State, c: Caller)
    requires Inv(w, s) && At(s, c) == Armed
    ensures Inv(w, Move(s, c, Sent).(pending := s.pending + [c]))
  {
    var s' := Move(s, c, Sent).(pending := s.pending + [c]);
    assert Trace(s') == Trace(s) + [c];
    assert CallerOk(w, s, c);
    assert Ordered(w, s'.blind, Trace(s'));
    forall d ensures CallerOk(w, s', d) { assert CallerOk(w, s, d); }
    forall key ensures KeyOk(w, s', key) { assert KeyOk(w, s, key); }
  }

  lemma ServeKeepsCaller(w: World, s: State, n: nat, d: Caller)
    requires Inv(w, s) && n < |s.pending|
    ensures CallerOk(w, Serve(w, s, n), d)
  {
    hide Ordered, KeyOk, ExecutionsPersist;
    var s' := Serve(w, s, n);
    assert CallerOk(w, s, d);
    assert Trace(s') == s.executions + s.pending[n..];
    assert forall c :: c in Trace(s') ==> c in Trace(s);
    if At(s, d).Done? && Carries(At(s, d).answer) { TruthKept(w, s, s', w.requests(d).key, At(s, d).answer.receipt); }
  }

  lemma ServeKeepsKey(w: World, s: State, n: nat, key: string)
    requires Inv(w, s) && n < |s.pending|
    ensures KeyOk(w, Serve(w, s, n), key)
  {
    hide Ordered, CallerOk, DocAfter, ReportOf, ReportAt;
    var s' := Serve(w, s, n);
    assert KeyOk(w, s, key);
    ReportExists(w, s'.executions, s.pending[n]);
    if key in s.recent { TruthKept(w, s, s', key, s.recent[key]); }
    if key in s.persisted { TruthKept(w, s, s', key, s.persisted[key]); }
    assert s'.executions[|s.executions|] == s.pending[n];
  }

  lemma ServeKeepsInv(w: World, s: State, n: nat)
    requires Inv(w, s) && n < |s.pending|
    ensures Inv(w, Serve(w, s, n))
  {
    hide CallerOk, KeyOk;
    var s' := Serve(w, s, n);
    DropKeepsOrder(w, s.blind, s.executions, s.pending, n);
    assert Trace(s') == s.executions + s.pending[n..];
    forall d ensures CallerOk(w, s', d) { ServeKeepsCaller(w, s, n, d); }
    forall key ensures KeyOk(w, s', key) { ServeKeepsKey(w, s, n, key); }
  }

  lemma TruthKept(w: World, s: State, s': State, key: string, r: Receipt)
    requires Truthful(w, s, key, r) && s.executions <= s'.executions
    ensures Truthful(w, s', key, r)
  {
    if r.report.Some? {
      assert r.owner in s'.executions;
      ReportStays(w, s.executions, s'.executions, r.owner);
    }
  }

  /** A script's report does not change when more scripts run. */
  lemma {:induction false} ReportStays(w: World, ran: seq<Caller>, more: seq<Caller>, c: Caller)
    requires c in ran && ran <= more
    ensures ReportAt(w, more, c) == ReportAt(w, ran, c)
    decreases |more|
  {
    hide DocAfter, ReportOf;
    if |more| > |ran| {
      assert ran <= more[..|more| - 1];
      ReportStays(w, ran, more[..|more| - 1], c);
    } else {
      assert more == ran;
    }
  }

  lemma {:induction false} ReportExists(w: World, ran: seq<Caller>, c: Caller)
    ensures ReportAt(w, ran, c).Some? <==> c in ran
  {
    hide DocAfter, ReportOf;
    if ran != [] {
      ReportExists(w, ran[..|ran| - 1], c);
      assert ran == ran[..|ran| - 1] + [ran[|ran| - 1]];
    }
  }

  /** After a served read that finds no receipt, no script of the key has run and none is pending. */
  lemma ArmKeepsInv(w: World, s: State, c: Caller)
    requires Inv(w, s) && At(s, c) == Checking && s.pending == [] && w.requests(c).key !in s.persisted
    ensures Inv(w, Move(s, c, Armed))
  {
    assert CallerOk(w, s, c);
    assert Trace(s) == s.executions;
    MoveKeepsInv(w, s, c, Armed);
  }

  lemma CheckKeepsInv(w: World, s: State, c: Caller)
    requires Inv(w, s) && At(s, c) == Checking
    ensures Inv(w, Check(w, s, c))
  {
    hide Inv;
    var key, s1 := w.requests(c).key, s.(pending := []);
    ClearKeepsInv(w, s);
    if key !in s.persisted { ArmKeepsInv(w, s1, c); }
    else {
      var r := s.persisted[key];
      assert KeyOk(w, s1, key) by { InvKey(w, s1, key); }
      InvCaller(w, s, c);
      if r.fingerprint == w.requests(c).fingerprint { LeaveKeepsInv(w, s1, c, Replayed(r), s.recent[key := r]); }
      else { LeaveKeepsInv(w, s1, c, Conflict(r), s.recent); }
    }
  }

  lemma InvKey(w: World, s: State, key: string)
    requires Inv(w, s)
    ensures KeyOk(w, s, key)
  {}

  lemma FinishKeepsInv(w: World, s: State, c: Caller, receipt: Receipt)
    requires Inv(w, s) && Serving(At(s, c)) && Truthful(w, s, w.requests(c).key, receipt)
    ensures Inv(w, Finish(w, s, c, receipt))
  {
    hide Inv;
    LeaveKeepsInv(w, s, c, Ran(receipt), if w.requests(c).key == "" then s.recent else s.recent[w.requests(c).key := receipt]);
  }

  lemma RecheckKeepsInv(w: World, s: State, c: Caller)
    requires Inv(w, s) && At(s, c) == Rechecking
    ensures Inv(w, Recheck(w, s, c))
  {
    hide Inv;
    ClearKeepsInv(w, s);
    var s1 := s.(pending := []);
    InvKey(w, s1, w.requests(c).key);
    FinishKeepsInv(w, s1, c, if w.requests(c).key != "" && w.requests(c).key in s.persisted then s.persisted[w.requests(c).key] else Unread(w, c));
  }

  lemma RebootKeepsInv(w: World, s: State)
    requires Inv(w, s)
    ensures Inv(w, Reboot(s))
  {
    var s' := Reboot(s);
    assert Trace(s') == Trace(s);
    forall d ensures CallerOk(w, s', d) { assert CallerOk(w, s, d); }
    forall key ensures KeyOk(w, s', key) { assert KeyOk(w, s, key); }
  }

  lemma StartKeepsInv(w: World, s: State, c: Caller)
    requires Inv(w, s) && At(s, c) == Idle
    ensures Inv(w, Begin(w, s, c))
  {
    hide Inv;
    InvCaller(w, s, c);
    InvKey(w, s, w.requests(c).key);
    var r := w.requests(c);
    if r.key != "" && r.key in s.recent { MoveKeepsInv(w, s, c, Done(AnswerFrom(s.recent[r.key], r.fingerprint))); }
    else if r.key != "" && r.key in s.inflight {
      InflightKey(w, s, r.key);
      MoveKeepsInv(w, s, c, Awaiting(s.inflight[r.key]));
    }
    else if r.immediate { MoveKeepsInv(w, s, c, Done(Immediate)); }
    else if r.key == "" { MoveKeepsInv(w, s, c, Armed); }
    else { OwnKeepsInv(w, s, c); }
  }

  lemma InflightKey(w: World, s: State, key: string)
    requires Inv(w, s) && key in s.inflight
    ensures w.requests(s.inflight[key]).key == key
  {
    assert KeyOk(w, s, key);
  }

  lemma WakeKeepsInv(w: World, s: State, c: Caller)
    requires Inv(w, s)
    ensures Inv(w, Step(w, s, Wake(c)))
  {
    hide Inv, KeyOk;
    InvCaller(w, s, c);
    if At(s, c).Awaiting? && At(s, At(s, c).owner).Done? {
      var owner := At(s, c).owner;
      InvCaller(w, s, owner);
      match At(s, owner).answer
      case Ran(r) => MoveKeepsInv(w, s, c, Done(AnswerFrom(r, w.requests(c).fingerprint)));
      case Replayed(r) => MoveKeepsInv(w, s, c, Done(AnswerFrom(r, w.requests(c).fingerprint)));
      case Conflict(r) => MoveKeepsInv(w, s, c, Done(Conflict(r)));
      case Immediate =>
      case Raised => MoveKeepsInv(w, s, c, Done(Raised));
    }
  }

  lemma QuietKeepsInv(w: World, s: State, e: Event)
    requires Inv(w, s) && (e.Reply? || e.Lost? || e.Fail?)
    ensures Inv(w, Step(w, s, e))
  {
    hide Inv, KeyOk;
    InvCaller(w, s, e.c);
    if e.Reply? && At(s, e.c) == Sent && e.c in s.executions { FinishKeepsInv(w, s, e.c, ReceiptOf(w, s.executions, e.c)); }
    else if e.Lost? && At(s, e.c) == Sent { MoveKeepsInv(w, s, e.c, Rechecking); }
    else if e.Fail? && Serving(At(s, e.c)) { LeaveKeepsInv(w, s, e.c, Raised, s.recent); }
    else if e.Fail? && At(s, e.c).Awaiting? { MoveKeepsInv(w, s, e.c, Done(Raised)); }
  }

  lemma StepKeepsInv(w: World, s: State, e: Event)
    requires Inv(w, s)
    ensures Inv(w, Step(w, s, e))
  {
    hide Inv, Begin, Check, Recheck, Serve, Reboot, Finish, Leave;
    match e
    case Start(c) => if At(s, c) == Idle { StartKeepsInv(w, s, c); }
    case ReadServed(c) => if At(s, c) == Checking { CheckKeepsInv(w, s, c); }
    case ReadFailed(c) => if At(s, c) == Checking { BlindKeepsInv(w, s, c); }
    case Send(c) => if At(s, c) == Armed { SendKeepsInv(w, s, c); }
    case RecheckServed(c) => if At(s, c) == Rechecking { RecheckKeepsInv(w, s, c); }
    case RecheckFailed(c) => if At(s, c) == Rechecking { FinishKeepsInv(w, s, c, Unread(w, c)); }
    case Wake(c) => WakeKeepsInv(w, s, c);
    case ServeScript(n) => if n < |s.pending| { ServeKeepsInv(w, s, n); }
    case OtherRequest => ClearKeepsInv(w, s);
    case Restart => RebootKeepsInv(w, s);
    case _ => QuietKeepsInv(w, s, e);
  }

  lemma {:induction false} RunKeepsInv(w: World, s: State, schedule: seq<Event>)
    requires Inv(w, s)
    ensures Inv(w, Run(w, s, schedule))
    decreases |schedule|
  {
    hide Step, Inv;
    if schedule != [] {
      StepKeepsInv(w, s, schedule[0]);
      RunKeepsInv(w, Step(w, s, schedule[0]), schedule[1..]);
    }
  }

  // ---------------------------------------------------------------- what every run keeps

  function After(w: World, schedule: seq<Event>): State {
    Run(w, Initial(), schedule)
  }

  lemma InvAfter(w: World, schedule: seq<Event>)
    ensures Inv(w, After(w, schedule))
  {
    InitialInv(w);
    RunKeepsInv(w, Initial(), schedule);
  }

  /** Across any number of restarts: of two executions under one key the later one came from another call, whose
      recovery read had failed. */
  lemma SecondExecutionIsBlind(w: World, schedule: seq<Event>, i: nat, j: nat)
    requires var s := After(w, schedule); i < j < |s.executions| && SameKey(w, s.executions[i], s.executions[j])
    ensures var s := After(w, schedule); s.executions[i] != s.executions[j] && s.executions[j] in s.blind
  {
    InvAfter(w, schedule);
    var s := After(w, schedule);
    assert Trace(s)[i] == s.executions[i] && Trace(s)[j] == s.executions[j];
  }

  lemma StepBlinds(w: World, s: State, e: Event, c: Caller)
    requires c !in s.blind && e != ReadFailed(c)
    ensures c !in Step(w, s, e).blind
  {}

  lemma {:induction false} OnlyFailedReadsBlind(w: World, s: State, schedule: seq<Event>, c: Caller)
    requires c !in s.blind && ReadFailed(c) !in schedule
    ensures c !in Run(w, s, schedule).blind
    decreases |schedule|
  {
    hide Step;
    if schedule != [] {
      assert schedule[0] in schedule;
      StepBlinds(w, s, schedule[0], c);
      OnlyFailedReadsBlind(w, Step(w, s, schedule[0]), schedule[1..], c);
    }
  }

  /** A key whose recovery reads all reach Rhino runs its script at most once, over all restarts and lost replies. */
  lemma AtMostOneExecution(w: World, schedule: seq<Event>, i: nat, j: nat)
    requires var s := After(w, schedule);
             i < |s.executions| && j < |s.executions| && SameKey(w, s.executions[i], s.executions[j])
    requires forall e :: e in schedule && e.ReadFailed? ==> w.requests(e.c).key != w.requests(After(w, schedule).executions[i]).key
    ensures i == j
  {
    hide Step, Run;
    var s := After(w, schedule);
    OnlyFailedReadsBlind(w, Initial(), schedule, s.executions[i]);
    OnlyFailedReadsBlind(w, Initial(), schedule, s.executions[j]);
    if i < j { SecondExecutionIsBlind(w, schedule, i, j); }
    else if j < i { SecondExecutionIsBlind(w, schedule, j, i); }
  }

  /** Every known receipt ever returned for a key, in any life of the sidecar, is that of a script of the key that ran. */
  lemma KnownReceiptsRan(w: World, schedule: seq<Event>, c: Caller)
    requires var pc := At(After(w, schedule), c); pc.Done? && Carries(pc.answer) && pc.answer.receipt.report.Some?
    ensures var s := After(w, schedule); var r := At(s, c).answer.receipt;
            r.owner in s.executions && w.requests(r.owner).key == w.requests(c).key && r == ReceiptOf(w, s.executions, r.owner)
  {
    InvAfter(w, schedule);
    InvCaller(w, After(w, schedule), c);
  }

  /** The i-th script's report, when no script runs twice: what that script did to the document it found. */
  lemma {:induction false} ReportAtIndex(w: World, ran: seq<Caller>, i: nat)
    requires i < |ran| && forall j, l :: 0 <= j < l < |ran| ==> ran[j] != ran[l]
    ensures ReportAt(w, ran, ran[i]) == Some(ReportOf(w.requests(ran[i]).script(DocAfter(w, ran[..i])), DocAfter(w, ran[..i])))
    ensures DocAfter(w, ran[..i + 1]) == Left(w.requests(ran[i]).script(DocAfter(w, ran[..i])), DocAfter(w, ran[..i]))
  {
    hide ReportOf;
    var init := ran[..|ran| - 1];
    if i < |init| {
      ReportAtIndex(w, init, i);
      assert ran[i] in init && init[..i] == ran[..i] && init[..i + 1] == ran[..i + 1];
    } else {
      assert ran[..i + 1] == ran && ran[..i] == init;
    }
  }

  /** The documents before, between and after the scripts that ran. A script that raised is undone if its undo was recorded
      and works; otherwise what it did stays. */
  predicate Documents(w: World, ran: seq<Caller>, docs: seq<Doc>) {
    && |docs| == |ran| + 1 && docs[0] == w.start
    && forall i :: 0 <= i < |ran| ==>
         var effect := w.requests(ran[i]).script(docs[i]);
         docs[i + 1] == if effect.raised && effect.recorded && effect.undoes then docs[i] else effect.doc
  }

  /** The report of the i-th script: the ids that came and went with it, whether it raised, and whether it was undone. */
  ghost predicate ReportsRun(w: World, ran: seq<Caller>, docs: seq<Doc>, i: nat, report: Report)
    requires i < |ran| && |docs| == |ran| + 1
  {
    var effect := w.requests(ran[i]).script(docs[i]);
    && (forall id :: id in report.created <==> id in docs[i + 1] && id !in docs[i])
    && (forall id :: id in report.deleted <==> id in docs[i] && id !in docs[i + 1])
    && (report.failed <==> effect.raised) && (report.rolledBack <==> effect.raised && effect.recorded && effect.undoes)
  }

  /** The receipt's script is the i-th that ran, under the caller's key, and its report is that of this run. */
  ghost predicate OfRun(w: World, s: State, docs: seq<Doc>, c: Caller, r: Receipt, i: nat)
    requires |docs| == |s.executions| + 1
  {
    && i < |s.executions| && s.executions[i] == r.owner && w.requests(r.owner).key == w.requests(c).key
    && r.report.Some? && ReportsRun(w, s.executions, docs, i, r.report.value)
  }

  /** Under every schedule there is one history of the document, told by the scripts that ran, and every receipt whose fate is
      known reports the one run of a script of its key in it, whoever else was calling. */
  lemma KnownReceiptsShowTheirRun(w: World, schedule: seq<Event>) returns (docs: seq<Doc>)
    ensures var s := After(w, schedule);
            && Documents(w, s.executions, docs)
            && forall c :: At(s, c).Done? && Carries(At(s, c).answer) && At(s, c).answer.receipt.report.Some? ==>
                 exists i: nat :: OfRun(w, s, docs, c, At(s, c).answer.receipt, i)
  {
    hide Run, ReportAt, ReportOf, DocAfter, ReportsRun, Documents;
    InvAfter(w, schedule);
    var s := After(w, schedule);
    RanOnce(w, s);
    docs := History(w, s.executions);
    HistoryIsTold(w, s.executions);
    forall c | At(s, c).Done? && Carries(At(s, c).answer) && At(s, c).answer.receipt.report.Some?
      ensures exists i: nat :: OfRun(w, s, docs, c, At(s, c).answer.receipt, i)
    {
      KnownReceiptsRan(w, schedule, c);
      var i: nat :| i < |s.executions| && s.executions[i] == At(s, c).answer.receipt.owner;
      ReportAtIndex(w, s.executions, i);
      OneRun(w, s.executions, i);
      assert OfRun(w, s, docs, c, At(s, c).answer.receipt, i);
    }
  }

  function History(w: World, ran: seq<Caller>): seq<Doc> {
    seq(|ran| + 1, i requires 0 <= i < |ran| + 1 => DocAfter(w, ran[..i]))
  }

  lemma HistoryIsTold(w: World, ran: seq<Caller>)
    ensures Documents(w, ran, History(w, ran))
  {
    forall i | 0 <= i < |ran|
      ensures DocAfter(w, ran[..i + 1]) == Left(w.requests(ran[i]).script(DocAfter(w, ran[..i])), DocAfter(w, ran[..i]))
    {
      assert ran[..i + 1][..i] == ran[..i];
    }
  }

  lemma RanOnce(w: World, s: State)
    requires Inv(w, s)
    ensures forall i, j :: 0 <= i < j < |s.executions| ==> s.executions[i] != s.executions[j]
  {
    assert forall i :: 0 <= i < |s.executions| ==> Trace(s)[i] == s.executions[i];
  }

  lemma OneRun(w: World, ran: seq<Caller>, i: nat)
    requires i < |ran|
    requires DocAfter(w, ran[..i + 1]) == Left(w.requests(ran[i]).script(DocAfter(w, ran[..i])), DocAfter(w, ran[..i]))
    ensures ReportsRun(w, ran, History(w, ran), i, ReportOf(w.requests(ran[i]).script(DocAfter(w, ran[..i])), DocAfter(w, ran[..i])))
  {
    hide DocAfter;
  }

  /** A replayed receipt is always one of the caller's own payload. */
  lemma ReplaysMatch(w: World, schedule: seq<Event>, c: Caller)
    requires var pc := At(After(w, schedule), c); pc.Done? && pc.answer.Replayed?
    ensures At(After(w, schedule), c).answer.receipt.fingerprint == w.requests(c).fingerprint
  {
    InvAfter(w, schedule);
    InvCaller(w, After(w, schedule), c);
  }

  /** So two calls of such a key that both learn a fate learn the same one. */
  lemma KnownReceiptsAgree(w: World, schedule: seq<Event>, a: Caller, b: Caller)
    requires SameKey(w, a, b)
    requires var s := After(w, schedule);
             && At(s, a).Done? && Carries(At(s, a).answer) && At(s, a).answer.receipt.report.Some?
             && At(s, b).Done? && Carries(At(s, b).answer) && At(s, b).answer.receipt.report.Some?
    requires forall e :: e in schedule && e.ReadFailed? ==> w.requests(e.c).key != w.requests(a).key
    ensures var s := After(w, schedule); At(s, a).answer.receipt == At(s, b).answer.receipt
  {
    hide Step, Run;
    var s := After(w, schedule);
    KnownReceiptsRan(w, schedule, a);
    KnownReceiptsRan(w, schedule, b);
    var i :| 0 <= i < |s.executions| && s.executions[i] == At(s, a).answer.receipt.owner;
    var j :| 0 <= j < |s.executions| && s.executions[j] == At(s, b).answer.receipt.owner;
    AtMostOneExecution(w, schedule, i, j);
  }

  /** A remembered receipt, even an unknown one, answers its key until the sidecar restarts: calling again with the
      same key does not reconcile it, although the receipt's own text says so. */
  lemma {:induction false} MemoryIsSticky(w: World, s: State, schedule: seq<Event>, key: string)
    requires Inv(w, s) && key in s.recent && Restart !in schedule
    ensures var s' := Run(w, s, schedule); key in s'.recent && s'.recent[key] == s.recent[key]
    decreases |schedule|
  {
    hide Step, Inv;
    if schedule != [] {
      assert schedule[0] in schedule;
      StepKeepsInv(w, s, schedule[0]);
      StepKeepsMemory(w, s, schedule[0], key);
      MemoryIsSticky(w, Step(w, s, schedule[0]), schedule[1..], key);
    }
  }

  lemma StepKeepsMemory(w: World, s: State, e: Event, key: string)
    requires Inv(w, s) && key in s.recent && e != Restart
    ensures var s' := Step(w, s, e); key in s'.recent && s'.recent[key] == s.recent[key]
  {
    hide Ordered, ExecutionsPersist;
    InvKey(w, s, key);
    if e.ReadServed? || e.RecheckServed? || e.Reply? || e.RecheckFailed? { InvCaller(w, s, e.c); }
  }

  // ---------------------------------------------------------------- the bound is tight

  lemma RunOne(w: World, s: State, e: Event, rest: seq<Event>)
    ensures Run(w, s, [e] + rest) == Run(w, Step(w, s, e), rest)
  {
    hide Step;
    assert ([e] + rest)[1..] == rest;
  }

  function BlindCall(w: World, s: State, c: Caller): State {
    Step(w, Step(w, Step(w, Step(w, s, Start(c)), ReadFailed(c)), Send(c)), ServeScript(0))
  }

  lemma RunBlindCall(w: World, s: State, c: Caller, rest: seq<Event>)
    ensures Run(w, s, [Start(c), ReadFailed(c), Send(c), ServeScript(0)] + rest) == Run(w, BlindCall(w, s, c), rest)
  {
    hide Step, Run;
    var last := [ServeScript(0)] + rest;
    RunOne(w, s, Start(c), [ReadFailed(c)] + ([Send(c)] + last));
    RunOne(w, Step(w, s, Start(c)), ReadFailed(c), [Send(c)] + last);
    RunOne(w, Step(w, Step(w, s, Start(c)), ReadFailed(c)), Send(c), last);
    RunOne(w, Step(w, Step(w, Step(w, s, Start(c)), ReadFailed(c)), Send(c)), ServeScript(0), rest);
    assert [Start(c)] + ([ReadFailed(c)] + ([Send(c)] + last)) == [Start(c), ReadFailed(c), Send(c), ServeScript(0)] + rest;
  }

  /** A call whose recovery read fails goes on to send its script. */
  lemma BlindCallRuns(w: World, s: State, c: Caller)
    requires !w.requests(c).immediate && w.requests(c).key != "" && c !in s.callers && s.pending == []
    requires w.requests(c).key !in s.recent && w.requests(c).key !in s.inflight
    ensures var s' := BlindCall(w, s, c);
            s'.executions == s.executions + [c] && s'.pending == [] && s'.callers.Keys == s.callers.Keys + {c}
  {
    hide Serve;
    var s2 := Step(w, Step(w, s, Start(c)), ReadFailed(c));
    assert At(s2, c) == Armed && s2.pending == [] && s2.executions == s.executions;
    ServeOnly(w, Step(w, s2, Send(c)), c);
  }

  lemma ServeOnly(w: World, s: State, c: Caller)
    requires s.pending == [c]
    ensures var s' := Step(w, s, ServeScript(0)); s'.executions == s.executions + [c] && s'.pending == [] && s'.callers == s.callers
  {}

  lemma RebootForgets(w: World, s: State)
    ensures var s' := Step(w, s, Restart);
            s'.callers.Keys == s.callers.Keys && s'.recent == map[] && s'.inflight == map[]
            && s'.executions == s.executions && s'.pending == s.pending
  {}

  lemma RunNone(w: World, s: State)
    ensures Run(w, s, []) == s
  {}

  /** The condition is exact: a restart and recovery reads that do not reach Rhino run the script twice. */
  lemma RestartWithFailedReadRunsTwice(w: World)
    requires w.requests(0) == w.requests(1) && !w.requests(0).immediate && w.requests(0).key != ""
    ensures exists schedule :: After(w, schedule).executions == [0, 1]
  {
    hide Run, Step, BlindCall;
    var again := [Start(1), ReadFailed(1), Send(1), ServeScript(0)] + [];
    var schedule := [Start(0), ReadFailed(0), Send(0), ServeScript(0)] + ([Restart] + again);
    RunBlindCall(w, Initial(), 0, [Restart] + again);
    BlindCallRuns(w, Initial(), 0);
    var s := BlindCall(w, Initial(), 0);
    RunOne(w, s, Restart, again);
    RebootForgets(w, s);
    var s' := Step(w, s, Restart);
    RunBlindCall(w, s', 1, []);
    BlindCallRuns(w, s', 1);
    RunNone(w, BlindCall(w, s', 1));
    assert After(w, schedule).executions == [] + [0] + [1];
  }

  // ---------------------------------------------------------------- why a call raises

  lemma {:induction false} RunSnoc(w: World, s: State, events: seq<Event>, e: Event)
    ensures Run(w, s, events + [e]) == Step(w, Run(w, s, events), e)
    decreases |events|
  {
    hide Step;
    if events == [] {
      assert events + [e] == [e] && [e][1..] == [];
    } else {
      assert (events + [e])[0] == events[0] && (events + [e])[1..] == events[1..] + [e];
      RunSnoc(w, Step(w, s, events[0]), events[1..], e);
    }
  }

  /** A call of `c` or of its key failed. */
  ghost predicate KeyFailed(w: World, schedule: seq<Event>, c: Caller) {
    exists d :: Fail(d) in schedule && (d == c || SameKey(w, c, d))
  }

  ghost predicate AllHaveReason(w: World, s: State, schedule: seq<Event>) {
    forall c :: At(s, c) == Done(Raised) ==> KeyFailed(w, schedule, c)
  }

  lemma StepRaises(w: World, s: State, e: Event, c: Caller)
    requires Inv(w, s) && At(s, c) != Done(Raised) && At(Step(w, s, e), c) == Done(Raised)
    ensures e == Fail(c) || (At(s, c).Awaiting? && SameKey(w, c, At(s, c).owner) && At(s, At(s, c).owner) == Done(Raised))
  {
    hide ReceiptOf, Inv, Begin, Check, Recheck, Serve, Leave, Finish;
    InvCaller(w, s, c);
    match e
    case Start(d) => BeginNeverRaises(w, s, d, c);
    case ReadServed(d) => CheckNeverRaises(w, s, d, c);
    case RecheckServed(d) => RecheckNeverRaises(w, s, d, c);
    case ServeScript(n) => if n < |s.pending| { ServeIsQuiet(w, s, n, c); }
    case Reply(d) => EndAnswers(w, s, d, c, Immediate, ReceiptOf(w, s.executions, d));
    case RecheckFailed(d) => EndAnswers(w, s, d, c, Immediate, Unread(w, d));
    case Fail(d) => EndAnswers(w, s, d, c, Raised, Unread(w, d));
    case _ =>
  }

  /** How a caller stands when it leaves or finishes. */
  lemma EndAnswers(w: World, s: State, d: Caller, c: Caller, answer: Answer, receipt: Receipt)
    ensures At(Leave(w, s, d, answer), c) == if c == d then Done(answer) else At(s, c)
    ensures At(Finish(w, s, d, receipt), c) == if c == d then Done(Ran(receipt)) else At(s, c)
  {}

  lemma BeginNeverRaises(w: World, s: State, d: Caller, c: Caller)
    requires At(s, c) != Done(Raised)
    ensures At(Begin(w, s, d), c) != Done(Raised)
  {}

  lemma CheckNeverRaises(w: World, s: State, d: Caller, c: Caller)
    requires At(s, c) != Done(Raised)
    ensures At(Check(w, s, d), c) != Done(Raised)
  {
    hide Leave;
    var key := w.requests(d).key;
    if key in s.persisted {
      EndAnswers(w, s.(pending := []), d, c, Replayed(s.persisted[key]), s.persisted[key]);
      EndAnswers(w, s.(pending := []), d, c, Conflict(s.persisted[key]), s.persisted[key]);
    }
  }

  lemma RecheckNeverRaises(w: World, s: State, d: Caller, c: Caller)
    requires At(s, c) != Done(Raised)
    ensures At(Recheck(w, s, d), c) != Done(Raised)
  {
    hide Finish;
    var key := w.requests(d).key;
    EndAnswers(w, s.(pending := []), d, c, Immediate, if key != "" && key in s.persisted then s.persisted[key] else Unread(w, d));
  }

  lemma ServeIsQuiet(w: World, s: State, n: nat, c: Caller)
    requires n < |s.pending|
    ensures At(Serve(w, s, n), c) == At(s, c)
  {
    hide ReceiptOf;
  }

  lemma {:induction false} RaisedHaveReason(w: World, schedule: seq<Event>)
    ensures AllHaveReason(w, After(w, schedule), schedule)
    decreases |schedule|
  {
    hide Step, Run, Inv;
    if schedule == [] {
      RunNone(w, Initial());
    } else {
      var init, e := schedule[..|schedule| - 1], schedule[|schedule| - 1];
      assert schedule == init + [e];
      RunSnoc(w, Initial(), init, e);
      RaisedHaveReason(w, init);
      InvAfter(w, init);
      var s := After(w, init);
      forall c: Caller | At(After(w, schedule), c) == Done(Raised) ensures KeyFailed(w, schedule, c) {
        if At(s, c) != Done(Raised) { StepRaises(w, s, e, c); }
        if e == Fail(c) {
          assert Fail(c) in schedule;
        } else {
          var source := if At(s, c) == Done(Raised) then c else At(s, c).owner;
          assert KeyFailed(w, init, source);
          var d :| Fail(d) in init && (d == source || SameKey(w, source, d));
          assert Fail(d) in schedule;
        }
      }
    }
  }

  /** A call only raises when it fails itself or waited for one of its key that did. */
  lemma RaisedHasReason(w: World, schedule: seq<Event>, c: Caller)
    requires At(After(w, schedule), c) == Done(Raised)
    ensures exists d :: Fail(d) in schedule && (d == c || SameKey(w, c, d))
  {
    hide Run;
    RaisedHaveReason(w, schedule);
    assert KeyFailed(w, schedule, c);
  }

  /** Only a call whose request says so is answered without touching Rhino. */
  lemma {:induction false} ImmediateHasReason(w: World, s: State, schedule: seq<Event>, c: Caller)
    requires At(s, c) == Done(Immediate) ==> w.requests(c).immediate
    ensures At(Run(w, s, schedule), c) == Done(Immediate) ==> w.requests(c).immediate
    decreases |schedule|
  {
    hide Step;
    if schedule != [] {
      if At(s, c) != Done(Immediate) && At(Step(w, s, schedule[0]), c) == Done(Immediate) { StepIsImmediate(w, s, schedule[0], c); }
      ImmediateHasReason(w, Step(w, s, schedule[0]), schedule[1..], c);
    }
  }

  lemma StepIsImmediate(w: World, s: State, e: Event, c: Caller)
    requires At(s, c) != Done(Immediate) && At(Step(w, s, e), c) == Done(Immediate)
    ensures w.requests(c).immediate
  {
    hide ReceiptOf, Begin, Check, Recheck, Serve, Leave, Finish;
    match e
    case Start(d) => BeginIsImmediate(w, s, d, c);
    case ReadServed(d) => RecoveryAnswers(w, s, d, c);
    case RecheckServed(d) => RecoveryAnswers(w, s, d, c);
    case ServeScript(n) => if n < |s.pending| { ServeIsQuiet(w, s, n, c); }
    case Reply(d) => EndAnswers(w, s, d, c, Raised, ReceiptOf(w, s.executions, d));
    case RecheckFailed(d) => EndAnswers(w, s, d, c, Raised, Unread(w, d));
    case Fail(d) => EndAnswers(w, s, d, c, Raised, Unread(w, d));
    case _ =>
  }

  lemma BeginIsImmediate(w: World, s: State, d: Caller, c: Caller)
    requires At(s, c) != Done(Immediate)
    ensures At(Begin(w, s, d), c) == Done(Immediate) ==> c == d && w.requests(c).immediate
  {}

  lemma RecoveryAnswers(w: World, s: State, d: Caller, c: Caller)
    requires At(s, c) != Done(Immediate)
    ensures At(Check(w, s, d), c) != Done(Immediate) && At(Recheck(w, s, d), c) != Done(Immediate)
  {
    hide Leave, Finish, ReceiptOf;
    var key := w.requests(d).key;
    if key in s.persisted {
      EndAnswers(w, s.(pending := []), d, c, Replayed(s.persisted[key]), s.persisted[key]);
      EndAnswers(w, s.(pending := []), d, c, Conflict(s.persisted[key]), s.persisted[key]);
    }
    EndAnswers(w, s.(pending := []), d, c, Raised, if key != "" && key in s.persisted then s.persisted[key] else Unread(w, d));
  }

  // ---------------------------------------------------------------- waiting calls

  predicate Attends(pc: Pc) {
    Serving(pc) || pc.Done?
  }

  /** Every key in the in-flight table is being served, and every waiter's owner is served or has been answered. */
  ghost predicate Attended(s: State) {
    && (forall key :: key in s.inflight ==> Serving(At(s, s.inflight[key])))
    && (forall c: Caller :: At(s, c).Awaiting? ==> Attends(At(s, At(s, c).owner)))
  }

  /** Only `c` moves, and what it owed to its waiters it still owes them or has been answered. */
  ghost predicate MovesOnly(s: State, s': State, c: Caller) {
    && (forall d: Caller :: d != c ==> At(s', d) == At(s, d))
    && (Attends(At(s, c)) ==> Attends(At(s', c)))
    && (forall key :: key in s'.inflight ==>
          if s'.inflight[key] == c then Serving(At(s', c)) else key in s.inflight && s.inflight[key] == s'.inflight[key])
    && (At(s', c).Awaiting? ==> At(s', c) == At(s, c) || exists key :: key in s.inflight && s.inflight[key] == At(s', c).owner)
  }

  lemma MoveKeepsAttended(w: World, s: State, s': State, c: Caller)
    requires Attended(s) && MovesOnly(s, s', c)
    ensures Attended(s')
  {
    forall d: Caller | At(s', d).Awaiting? ensures Attends(At(s', At(s', d).owner)) {
      if d != c || At(s', c) == At(s, c) {
        assert Attends(At(s, At(s, d).owner));
      } else {
        var key :| key in s.inflight && s.inflight[key] == At(s', c).owner;
      }
    }
  }

  lemma LeaveMovesOnly(w: World, s: State, c: Caller, answer: Answer)
    requires forall key :: key in s.inflight && s.inflight[key] == c ==> key == w.requests(c).key
    ensures MovesOnly(s, Leave(w, s, c, answer), c)
  {}

  lemma FinishMovesOnly(w: World, s: State, c: Caller, receipt: Receipt)
    requires forall key :: key in s.inflight && s.inflight[key] == c ==> key == w.requests(c).key
    ensures MovesOnly(s, Finish(w, s, c, receipt), c)
  {
    hide Leave, MovesOnly;
    LeaveMovesOnly(w, s, c, Ran(receipt));
    SameMoves(s, Leave(w, s, c, Ran(receipt)), Finish(w, s, c, receipt), c);
  }

  lemma SameMoves(s: State, s': State, s'': State, c: Caller)
    requires MovesOnly(s, s', c) && s''.callers == s'.callers && s''.inflight == s'.inflight
    ensures MovesOnly(s, s'', c)
  {}

  lemma BeginMovesOnly(w: World, s: State, c: Caller)
    requires At(s, c) == Idle && forall key :: key in s.inflight && s.inflight[key] == c ==> key == w.requests(c).key
    requires Attended(s)
    ensures MovesOnly(s, Begin(w, s, c), c)
  {}

  lemma CheckMovesOnly(w: World, s: State, c: Caller)
    requires At(s, c) == Checking && forall key :: key in s.inflight && s.inflight[key] == c ==> key == w.requests(c).key
    ensures MovesOnly(s, Check(w, s, c), c)
  {
    hide Leave, MovesOnly;
    var key, s1 := w.requests(c).key, s.(pending := []);
    if key !in s.persisted {
      ServingMovesOnly(s, Move(s1, c, Armed), c, Armed);
    } else {
      var prior := s.persisted[key];
      LeaveMovesOnly(w, s, c, Replayed(prior));
      LeaveMovesOnly(w, s, c, Conflict(prior));
      LeaveForgets(w, s, s1, c, Replayed(prior));
      LeaveForgets(w, s, s1, c, Conflict(prior));
      SameMoves(s, Leave(w, s, c, Replayed(prior)), Leave(w, s1, c, Replayed(prior)).(recent := s.recent[key := prior]), c);
      SameMoves(s, Leave(w, s, c, Conflict(prior)), Leave(w, s1, c, Conflict(prior)), c);
    }
  }

  lemma LeaveForgets(w: World, s: State, s1: State, c: Caller, answer: Answer)
    requires s1.callers == s.callers && s1.inflight == s.inflight
    ensures Leave(w, s1, c, answer).callers == Leave(w, s, c, answer).callers
    ensures Leave(w, s1, c, answer).inflight == Leave(w, s, c, answer).inflight
  {}

  /** A served caller moves on. */
  lemma ServingMovesOnly(s: State, s': State, c: Caller, pc: Pc)
    requires Serving(At(s, c)) && Serving(pc) && s'.callers == s.callers[c := pc] && s'.inflight == s.inflight
    ensures MovesOnly(s, s', c)
  {}

  lemma OwnKey(w: World, s: State, c: Caller)
    requires Inv(w, s)
    ensures forall key :: key in s.inflight && s.inflight[key] == c ==> key == w.requests(c).key
  {
    forall key | key in s.inflight && s.inflight[key] == c ensures key == w.requests(c).key { assert KeyOk(w, s, key); }
  }

  lemma RecheckMovesOnly(w: World, s: State, c: Caller)
    requires forall key :: key in s.inflight && s.inflight[key] == c ==> key == w.requests(c).key
    ensures MovesOnly(s, Recheck(w, s, c), c)
  {
    hide Finish, MovesOnly;
    var key, s1 := w.requests(c).key, s.(pending := []);
    FinishMovesOnly(w, s1, c, if key != "" && key in s.persisted then s.persisted[key] else Unread(w, c));
    MovesFrom(s, s1, Recheck(w, s, c), c);
  }

  lemma MovesFrom(s: State, s1: State, s': State, c: Caller)
    requires MovesOnly(s1, s', c) && s1.callers == s.callers && s1.inflight == s.inflight
    ensures MovesOnly(s, s', c)
  {}

  lemma DoneMovesOnly(s: State, c: Caller, answer: Answer)
    requires Attended(s) && At(s, c).Awaiting?
    ensures MovesOnly(s, Move(s, c, Done(answer)), c)
  {}

  lemma StepKeepsAttended(w: World, s: State, e: Event)
    requires Inv(w, s) && Attended(s)
    ensures Attended(Step(w, s, e))
  {
    hide Inv, Attended, MovesOnly, Begin, Check, Recheck, Finish, Leave, ReceiptOf, Serve;
    match e
    case Start(c) => if At(s, c) == Idle { OwnKey(w, s, c); BeginMovesOnly(w, s, c); MoveKeepsAttended(w, s, Begin(w, s, c), c); }
    case ReadServed(c) => if At(s, c) == Checking { OwnKey(w, s, c); CheckMovesOnly(w, s, c); MoveKeepsAttended(w, s, Check(w, s, c), c); }
    case ReadFailed(c) =>
      if At(s, c) == Checking { ServingMovesOnly(s, Step(w, s, e), c, Armed); MoveKeepsAttended(w, s, Step(w, s, e), c); }
    case Send(c) => if At(s, c) == Armed { ServingMovesOnly(s, Step(w, s, e), c, Sent); MoveKeepsAttended(w, s, Step(w, s, e), c); }
    case Reply(c) =>
      OwnKey(w, s, c);
      FinishMovesOnly(w, s, c, ReceiptOf(w, s.executions, c));
      MoveKeepsAttended(w, s, Finish(w, s, c, ReceiptOf(w, s.executions, c)), c);
    case Lost(c) => if At(s, c) == Sent { ServingMovesOnly(s, Step(w, s, e), c, Rechecking); MoveKeepsAttended(w, s, Step(w, s, e), c); }
    case RecheckServed(c) => OwnKey(w, s, c); RecheckMovesOnly(w, s, c); MoveKeepsAttended(w, s, Recheck(w, s, c), c);
    case RecheckFailed(c) =>
      OwnKey(w, s, c);
      FinishMovesOnly(w, s, c, Unread(w, c));
      MoveKeepsAttended(w, s, Finish(w, s, c, Unread(w, c)), c);
    case Fail(c) =>
      OwnKey(w, s, c);
      LeaveMovesOnly(w, s, c, Raised);
      MoveKeepsAttended(w, s, Leave(w, s, c, Raised), c);
      if At(s, c).Awaiting? { DoneMovesOnly(s, c, Raised); MoveKeepsAttended(w, s, Move(s, c, Done(Raised)), c); }
    case Wake(c) => WakeKeepsAttended(w, s, c);
    case ServeScript(n) => if n < |s.pending| { SameAttended(s, Serve(w, s, n)) by { ServeKeepsCallers(w, s, n); } }
    case OtherRequest => SameAttended(s, s.(pending := []));
    case Restart => RebootAttends(s);
  }

  lemma WakeKeepsAttended(w: World, s: State, c: Caller)
    requires Attended(s)
    ensures Attended(Step(w, s, Wake(c)))
  {
    hide Attended, MovesOnly, Begin, Check, Recheck, Finish, Leave, ReceiptOf, Serve;
    var s' := Step(w, s, Wake(c));
    if s' != s {
      DoneMovesOnly(s, c, At(s', c).answer);
      MoveKeepsAttended(w, s, s', c);
    }
  }

  lemma ServeKeepsCallers(w: World, s: State, n: nat)
    requires n < |s.pending|
    ensures Serve(w, s, n).callers == s.callers && Serve(w, s, n).inflight == s.inflight
  {
    hide ReceiptOf;
  }

  lemma SameAttended(s: State, s': State)
    requires Attended(s) && s'.callers == s.callers && s'.inflight == s.inflight
    ensures Attended(s')
  {
    forall c: Caller | At(s', c).Awaiting? ensures Attends(At(s', At(s', c).owner)) { assert At(s, c).Awaiting?; }
  }

  lemma RebootAttends(s: State)
    ensures Attended(Reboot(s))
  {}

  lemma {:induction false} RunKeepsAttended(w: World, s: State, schedule: seq<Event>)
    requires Inv(w, s) && Attended(s)
    ensures Attended(Run(w, s, schedule))
    decreases |schedule|
  {
    hide Inv, Step, Attended;
    if schedule != [] {
      StepKeepsInv(w, s, schedule[0]);
      StepKeepsAttended(w, s, schedule[0]);
      RunKeepsAttended(w, Step(w, s, schedule[0]), schedule[1..]);
    }
  }

  /** No waiter is orphaned: its owner, a call of its key, is still served or has been answered, and once it has, waking the
      waiter ends it with the owner's receipt, as a replay exactly if the receipt has the waiter's fingerprint. */
  lemma WaitersAreServed(w: World, schedule: seq<Event>, c: Caller)
    requires At(After(w, schedule), c).Awaiting?
    ensures var s := After(w, schedule); var owner := At(s, c).owner;
            && SameKey(w, c, owner) && (Serving(At(s, owner)) || At(s, owner).Done?)
            && (At(s, owner).Done? && (At(s, owner).answer.Ran? || At(s, owner).answer.Replayed?) ==>
                  var r := At(s, owner).answer.receipt;
                  At(Step(w, s, Wake(c)), c) == Done(if r.fingerprint == w.requests(c).fingerprint then Replayed(r) else Conflict(r)))
            && (At(s, owner) == Done(Raised) ==> At(Step(w, s, Wake(c)), c) == Done(Raised))
  {
    hide Run, Inv, Begin, Check, Recheck, Finish, Leave, ReceiptOf, Serve;
    InvAfter(w, schedule);
    InitialInv(w);
    RunKeepsAttended(w, Initial(), schedule);
    InvCaller(w, After(w, schedule), c);
  }
}
