/** At-most-once and receipt truth under every schedule of the Rhino gateway's callers. */
module RhinoProtocolProofs {
  import opened Wrappers
  import opened Host
  import opened RhinoProtocol
  import Plugin
  import R = Receipts

  lemma InitialInv(w: World)
    ensures Inv(w, Initial(w)) && LogOk(w, Initial(w))
  {}

  lemma InvCaller(w: World, s: State, c: Caller)
    requires Inv(w, s)
    ensures CallerOk(w, s, c)
  {}

  lemma InvKey(w: World, s: State, key: string)
    requires Inv(w, s)
    ensures KeyOk(w, s, key)
  {}

  // ---------------------------------------------------------------- callers that move without a turn

  /** `c` moves, perhaps taking the free lock; keys, document and turns stay. */
  lemma MoveKeepsInv(w: World, s: State, c: Caller, s': State)
    requires Inv(w, s) && !At(s, c).Done? && (Owning(At(s, c)) ==> Owning(At(s', c)))
    requires s' == Move(s, c, At(s', c)).(lock := s'.lock) && (s'.lock == s.lock || (s.lock == None && s'.lock == Some(c)))
    requires CallerOk(w, s', c)
    ensures Inv(w, s')
  {
    hide Serial, ReportOk, NoTurn, OnlyTurn;
    SameTurns(w, s, s');
    forall d ensures CallerOk(w, s', d) { assert CallerOk(w, s, d); SameTurnsFor(w, s, s', d); }
    forall key ensures KeyOk(w, s', key) { assert KeyOk(w, s, key); }
  }

  lemma SameTurns(w: World, s: State, s': State)
    requires s'.turns == s.turns && s'.doc == s.doc
    ensures Serial(w, s') == Serial(w, s)
  {}

  lemma SameTurnsFor(w: World, s: State, s': State, d: Caller)
    requires s'.turns == s.turns
    ensures NoTurn(s', d) == NoTurn(s, d) && (forall i: nat :: OnlyTurn(s', d, i) == OnlyTurn(s, d, i))
    ensures forall report :: ReportOk(w, s', d, report) == ReportOk(w, s, d, report)
  {
    assert forall i: nat :: OnlyTurn(s', d, i) == OnlyTurn(s, d, i);
  }

  /** A caller becomes the owner of its free key. */
  lemma OwnKeepsInv(w: World, s: State, c: Caller)
    requires Inv(w, s) && At(s, c) == Idle && w.Key(c) != "" && w.Key(c) !in s.inflight && w.Key(c) !in s.receipts
    ensures Inv(w, Move(s, c, WantLock).(futures := s.futures[c := Pending], inflight := s.inflight[w.Key(c) := c]))
  {
    hide Serial, ReportOk, NoTurn, OnlyTurn;
    var s' := Move(s, c, WantLock).(futures := s.futures[c := Pending], inflight := s.inflight[w.Key(c) := c]);
    assert CallerOk(w, s, c) && KeyOk(w, s, w.Key(c));
    SameTurns(w, s, s');
    forall d ensures CallerOk(w, s', d) { assert CallerOk(w, s, d); SameTurnsFor(w, s, s', d); }
    forall key ensures KeyOk(w, s', key) { assert KeyOk(w, s, key); }
  }

  // ---------------------------------------------------------------- the end of an owner

  /** `c` may settle: its key is free or served by `c`, and the report is true of its turn. */
  ghost predicate MaySettle(w: World, s: State, c: Caller, report: Report) {
    && ReportOk(w, s, c, report)
    && (w.Key(c) != "" ==> w.Key(c) !in s.receipts && (w.Key(c) in s.inflight ==> s.inflight[w.Key(c)] == c))
    && (Owning(At(s, c)) || At(s, c) == Idle)
  }

  lemma SettleKeepsOther(w: World, s: State, c: Caller, report: Report, d: Caller)
    requires CallerOk(w, s, c) && CallerOk(w, s, d) && KeyOk(w, s, w.Key(c)) && d != c && MaySettle(w, s, c, report)
    ensures CallerOk(w, Settle(w, s, c, report), d)
  {
    hide ReportOk, NoTurn, OnlyTurn, WaiterOk;
    SameTurnsFor(w, s, Settle(w, s, c, report), d);
    if At(s, d).Awaiting? { SettleKeepsWaiter(w, s, c, report, d, At(s, d).owner); }
  }

  lemma SettleKeepsWaiter(w: World, s: State, c: Caller, report: Report, d: Caller, owner: Caller)
    requires KeyOk(w, s, w.Key(c)) && d != c && MaySettle(w, s, c, report) && WaiterOk(w, s, d, owner)
    ensures WaiterOk(w, Settle(w, s, c, report), d, owner)
  {
    hide ReportOk, NoTurn, OnlyTurn;
  }

  lemma AbandonKeepsOther(w: World, s: State, c: Caller, d: Caller)
    requires CallerOk(w, s, c) && CallerOk(w, s, d) && KeyOk(w, s, w.Key(c)) && d != c && Owning(At(s, c))
    ensures CallerOk(w, Abandon(w, s, c), d)
  {
    hide ReportOk, NoTurn, OnlyTurn;
    SameTurnsFor(w, s, Abandon(w, s, c), d);
  }

  lemma SettleKeepsKey(w: World, s: State, c: Caller, report: Report, key: string)
    requires CallerOk(w, s, c) && KeyOk(w, s, key) && KeyOk(w, s, w.Key(c)) && MaySettle(w, s, c, report)
    ensures KeyOk(w, Settle(w, s, c, report), key)
  {
    hide ReportOk, NoTurn, OnlyTurn;
  }

  lemma AbandonKeepsKey(w: World, s: State, c: Caller, key: string)
    requires CallerOk(w, s, c) && KeyOk(w, s, key) && KeyOk(w, s, w.Key(c)) && Owning(At(s, c))
    ensures KeyOk(w, Abandon(w, s, c), key)
  {
    hide ReportOk, NoTurn, OnlyTurn;
  }

  /** An owner, or a caller that finishes without an await, returns its receipt. */
  lemma SettleKeepsInv(w: World, s: State, c: Caller, report: Report)
    requires Inv(w, s) && MaySettle(w, s, c, report)
    ensures Inv(w, Settle(w, s, c, report))
  {
    hide CallerOk, KeyOk, MaySettle, Serial;
    var s' := Settle(w, s, c, report);
    assert CallerOk(w, s, c) && KeyOk(w, s, w.Key(c));
    SameTurns(w, s, s');
    SettleOwn(w, s, c, report);
    forall d ensures CallerOk(w, s', d) {
      assert CallerOk(w, s, d);
      if d != c { SettleKeepsOther(w, s, c, report, d); }
    }
    forall key ensures KeyOk(w, s', key) {
      assert KeyOk(w, s, key);
      SettleKeepsKey(w, s, c, report, key);
    }
  }

  lemma SettleOwn(w: World, s: State, c: Caller, report: Report)
    requires CallerOk(w, s, c) && MaySettle(w, s, c, report)
    ensures CallerOk(w, Settle(w, s, c, report), c)
  {
    SameTurnsFor(w, s, Settle(w, s, c, report), c);
  }

  lemma AbandonKeepsInv(w: World, s: State, c: Caller)
    requires Inv(w, s) && Owning(At(s, c))
    ensures Inv(w, Abandon(w, s, c))
  {
    hide CallerOk, KeyOk, Serial;
    var s' := Abandon(w, s, c);
    assert CallerOk(w, s, c) && KeyOk(w, s, w.Key(c));
    SameTurns(w, s, s');
    AbandonOwn(w, s, c);
    forall d ensures CallerOk(w, s', d) {
      assert CallerOk(w, s, d);
      if d != c { AbandonKeepsOther(w, s, c, d); }
    }
    forall key ensures KeyOk(w, s', key) {
      assert KeyOk(w, s, key);
      AbandonKeepsKey(w, s, c, key);
    }
  }

  lemma AbandonOwn(w: World, s: State, c: Caller)
    requires CallerOk(w, s, c) && Owning(At(s, c))
    ensures CallerOk(w, Abandon(w, s, c), c)
  {
    SameTurnsFor(w, s, Abandon(w, s, c), c);
  }

  // ---------------------------------------------------------------- turns

  /** The turns of the others are as they were. */
  predicate SameOtherwise(s: State, s': State, c: Caller) {
    && |s'.turns| >= |s.turns|
    && (forall i :: 0 <= i < |s.turns| ==> s'.turns[i].c == s.turns[i].c && (s.turns[i].c != c ==> s'.turns[i] == s.turns[i]))
    && (forall i :: |s.turns| <= i < |s'.turns| ==> s'.turns[i].c == c)
  }

  /** Only the holder's turn changes: nobody else's facts do. */
  lemma TurnKeepsOther(w: World, s: State, s': State, c: Caller, d: Caller)
    requires CallerOk(w, s, c) && CallerOk(w, s, d) && d != c && SameOtherwise(s, s', c) && Holding(At(s, c))
    requires s' == s.(callers := s'.callers, doc := s'.doc, turns := s'.turns) && At(s', d) == At(s, d)
    ensures CallerOk(w, s', d)
  {
    OtherTurns(s, s', c, d);
    forall report | ReportOk(w, s, d, report) ensures ReportOk(w, s', d, report) {
      if report.Executed? {
        var i: nat :| OnlyTurn(s, d, i) && Reports(w, s.turns[i], report.receipt);
        assert OnlyTurn(s', d, i) && s'.turns[i] == s.turns[i];
      }
    }
  }

  lemma OtherTurns(s: State, s': State, c: Caller, d: Caller)
    requires d != c && SameOtherwise(s, s', c)
    ensures NoTurn(s, d) ==> NoTurn(s', d)
    ensures forall i: nat :: OnlyTurn(s, d, i) ==> OnlyTurn(s', d, i)
  {}

  lemma BeginTurnKeepsInv(w: World, s: State, c: Caller)
    requires Inv(w, s) && At(s, c) == Locked
    ensures Inv(w, Move(s, c, Executing).(turns := s.turns + [NewTurn(c, s.doc)]))
  {
    hide Inv, Serial, TurnOk, WaiterOk, AnswerOk, ReportOk, KeyOk;
    var s' := Move(s, c, Executing).(turns := s.turns + [NewTurn(c, s.doc)]);
    InvCaller(w, s, c);
    InvSerial(w, s);
    BeginTurnSerial(w, s, c, s');
    assert SameOtherwise(s, s', c) && OnlyTurn(s', c, |s.turns|);
    forall d ensures CallerOk(w, s', d) {
      InvCaller(w, s, d);
      if d != c { TurnKeepsOther(w, s, s', c, d); }
    }
    forall key ensures KeyOk(w, s', key) { InvKey(w, s, key); KeyStaysHeld(w, s, c, s', key); }
    AllOk(w, s');
  }

  lemma KeyStaysHeld(w: World, s: State, c: Caller, s': State, key: string)
    requires KeyOk(w, s, key) && At(s, c) == Locked && s' == Move(s, c, Executing).(turns := s'.turns)
    ensures KeyOk(w, s', key)
  {}

  lemma AllOk(w: World, s: State)
    requires (forall c :: CallerOk(w, s, c)) && (forall key :: KeyOk(w, s, key)) && Serial(w, s)
    ensures Inv(w, s)
  {}

  lemma InvSerial(w: World, s: State)
    requires Inv(w, s)
    ensures Serial(w, s)
  {}

  lemma BeginTurnSerial(w: World, s: State, c: Caller, s': State)
    requires Serial(w, s) && s'.doc == s.doc && s'.turns == s.turns + [NewTurn(c, s.doc)]
    ensures Serial(w, s')
  {
    hide TurnOk, DocBefore;
    BeginningIsOk(w, c, s.doc);
    AppendedDocs(w, s.turns, NewTurn(c, s.doc));
    forall i | 0 <= i < |s'.turns| ensures s'.turns[i].before == DocBefore(w, s'.turns, i) && TurnOk(w, s'.turns[i]) {
      if i < |s.turns| { assert s'.turns[i] == s.turns[i]; }
    }
  }

  lemma AppendedDocs(w: World, turns: seq<Turn>, turn: Turn)
    ensures DocBefore(w, turns + [turn], |turns| + 1) == turn.left
    ensures forall i :: 0 <= i <= |turns| ==> DocBefore(w, turns + [turn], i) == DocBefore(w, turns, i)
  {}

  lemma BeginningIsOk(w: World, c: Caller, doc: Document)
    ensures TurnOk(w, NewTurn(c, doc))
  {
    hide R.SendAll;
  }

  /** One round of the loop changes the progress, not what the loop comes to. */
  lemma NextIsOnTheWay(w: World, turn: Turn, left: Document)
    requires TurnOk(w, turn)
    ensures TurnOk(w, turn.(progress := Next(w, turn.c, turn.progress), left := left))
  {
    hide R.SendOne;
  }

  /** The last turn changes: the holder's progress while it is at the document, or only what it left. */
  predicate MayChange(s: State, turn: Turn)
    requires s.turns != []
  {
    var last := LastTurn(s);
    && turn.c == last.c && turn.before == last.before
    && if At(s, last.c) == Executing then turn.left == DocOf(turn.progress) else turn == last.(left := turn.left)
  }

  lemma LatestKeepsInv(w: World, s: State, turn: Turn)
    requires Inv(w, s) && s.turns != [] && MayChange(s, turn) && TurnOk(w, turn)
    ensures Inv(w, Latest(s, turn))
  {
    hide TurnOk, Inv, Serial, CallerOk, KeyOk;
    InvSerial(w, s);
    var s' := Latest(s, turn);
    LatestSerial(w, s, turn);
    forall d ensures CallerOk(w, s', d) { LatestKeepsCaller(w, s, turn, d); }
    forall key ensures KeyOk(w, s', key) { InvKey(w, s, key); KeyStays(w, s, s', key); }
    AllOk(w, s');
  }

  lemma LatestKeepsCaller(w: World, s: State, turn: Turn, d: Caller)
    requires Inv(w, s) && s.turns != [] && MayChange(s, turn)
    ensures CallerOk(w, Latest(s, turn), d)
  {
    hide R.ReceiptOf, Inv, KeyOk, WaiterOk;
    var s', c := Latest(s, turn), LastTurn(s).c;
    InvCaller(w, s, c);
    InvCaller(w, s, d);
    if At(s, c) == Executing {
      assert SameOtherwise(s, s', c);
      if d == c { assert OnlyTurn(s', c, |s'.turns| - 1); } else { TurnKeepsOther(w, s, s', c, d); }
    } else {
      LeftAside(w, s, s', d);
    }
  }

  /** What a turn left to the next one is nobody's fact. */
  lemma LeftAside(w: World, s: State, s': State, d: Caller)
    requires CallerOk(w, s, d) && At(s, d) != Executing && s' == s.(doc := s'.doc, turns := s'.turns) && |s'.turns| == |s.turns|
    requires forall i :: 0 <= i < |s.turns| ==> s'.turns[i] == s.turns[i].(left := s'.turns[i].left)
    ensures CallerOk(w, s', d)
  {
    hide R.ReceiptOf;
    assert NoTurn(s', d) == NoTurn(s, d) && forall i: nat :: OnlyTurn(s', d, i) == OnlyTurn(s, d, i);
    forall report | ReportOk(w, s, d, report) ensures ReportOk(w, s', d, report) {
      if report.Executed? {
        var i: nat :| OnlyTurn(s, d, i) && Reports(w, s.turns[i], report.receipt);
        assert OnlyTurn(s', d, i) && Reports(w, s'.turns[i], report.receipt);
      }
    }
  }

  lemma KeyStays(w: World, s: State, s': State, key: string)
    requires KeyOk(w, s, key) && s' == s.(doc := s'.doc, turns := s'.turns)
    ensures KeyOk(w, s', key)
  {}

  lemma LatestSerial(w: World, s: State, turn: Turn)
    requires Serial(w, s) && s.turns != [] && turn.before == LastTurn(s).before && TurnOk(w, turn)
    ensures Serial(w, Latest(s, turn))
  {
    hide TurnOk;
    var s' := Latest(s, turn);
    forall i | 0 <= i < |s'.turns| ensures s'.turns[i].before == DocBefore(w, s'.turns, i) && TurnOk(w, s'.turns[i]) {
      if i < |s.turns| - 1 { assert s'.turns[i] == s.turns[i]; }
      assert i > 0 ==> s'.turns[i - 1] == s.turns[i - 1];
    }
  }

  /** Commands that are out are nobody's fact either. */
  lemma StraysAside(w: World, s: State, strays: set<Stray>)
    requires Inv(w, s)
    ensures Inv(w, s.(strays := strays))
  {
    hide R.SendAll, R.ReceiptOf, Serial, Reports;
    var s' := s.(strays := strays);
    SameTurns(w, s, s');
    forall d ensures CallerOk(w, s', d) { InvCaller(w, s, d); SameTurnsFor(w, s, s', d); StraysAsideFor(w, s, s', d); }
    forall key ensures KeyOk(w, s', key) { InvKey(w, s, key); }
  }

  lemma StraysAsideFor(w: World, s: State, s': State, d: Caller)
    requires CallerOk(w, s, d) && s' == s.(strays := s'.strays)
    ensures CallerOk(w, s', d)
  {
    hide ReportOk, NoTurn, OnlyTurn;
    SameTurnsFor(w, s, s', d);
  }

  lemma SendKeepsInv(w: World, s: State, c: Caller)
    requires Inv(w, s) && At(s, c) == Executing
    ensures HasTurn(s, c) && Inv(w, Step(w, s, Send(c)))
  {
    hide Next, R.SendAll, R.ReceiptOf, TurnOk, Inv, Serial, Unanswered;
    InvCaller(w, s, c);
    InvSerial(w, s);
    LastTurnFacts(w, s);
    var p := Next(w, c, LastTurn(s).progress);
    NextIsOnTheWay(w, LastTurn(s), DocOf(p));
    LatestKeepsInv(w, s, LastTurn(s).(progress := p, left := DocOf(p)));
    StraysAside(w, Progressed(s, p), s.strays + Unanswered(w, c, LastTurn(s).progress));
  }

  lemma LandKeepsInv(w: World, s: State, stray: Stray)
    requires Inv(w, s) && s.turns != []
    ensures Inv(w, Land(w, s, stray))
  {
    hide R.SendAll, R.ReceiptOf, TurnOk, Inv, Serial, Landed;
    InvSerial(w, s);
    LastTurnFacts(w, s);
    var last, doc := LastTurn(s), Landed(w, s.doc, stray);
    var turn := if At(s, last.c) == Executing then last.(progress := WithDoc(last.progress, doc), left := doc, clean := false)
                else last.(left := doc);
    DirtyIsOk(w, last, doc);
    LatestKeepsInv(w, s, turn);
    StraysAside(w, Latest(s, turn), s.strays - {stray});
  }

  lemma DirtyIsOk(w: World, turn: Turn, doc: Document)
    requires TurnOk(w, turn)
    ensures TurnOk(w, turn.(progress := WithDoc(turn.progress, doc), left := doc, clean := false)) && TurnOk(w, turn.(left := doc))
  {
    hide R.SendAll;
  }

  lemma LastTurnFacts(w: World, s: State)
    requires Serial(w, s) && s.turns != []
    ensures TurnOk(w, LastTurn(s)) && s.doc == LastTurn(s).left
  {
    hide TurnOk;
    assert s.turns[|s.turns| - 1] == LastTurn(s);
  }

  /** The holder's receipt compares the scenes of its two reads. */
  lemma FinishReport(w: World, s: State, c: Caller)
    requires Inv(w, s) && At(s, c) == Executing && HasTurn(s, c) && LastTurn(s).progress.Ended?
    ensures LastTurn(s).progress.ending.at <= |w.Commands(c)|
    ensures var turn := LastTurn(s);
            ReportOk(w, s, c, Executed(R.ReceiptOf(w.Commands(c), turn.progress.ending, w.scene(turn.before), w.scene(s.doc))))
  {
    hide R.SendAll, R.ReceiptOf, Serial, Inv;
    InvCaller(w, s, c);
    InvSerial(w, s);
    LastTurnFacts(w, s);
    assert OnlyTurn(s, c, |s.turns| - 1);
  }

  // ---------------------------------------------------------------- one event, every schedule

  lemma StartKeepsInv(w: World, s: State, c: Caller)
    requires Inv(w, s) && At(s, c) == Idle
    ensures Inv(w, RhinoProtocol.Begin(w, s, c))
  {
    hide Inv, WaiterOk, Settle;
    var r := w.requests(c);
    InvCaller(w, s, c);
    InvKey(w, s, r.key);
    if r.valid && r.immediate && !(r.key != "" && (r.key in s.receipts || r.key in s.inflight)) {
      SettleKeepsInv(w, s, c, Early);
    } else if r.valid && r.key != "" && r.key !in s.receipts && r.key !in s.inflight {
      OwnKeepsInv(w, s, c);
    } else {
      StartMoves(w, s, c);
      MoveKeepsInv(w, s, c, RhinoProtocol.Begin(w, s, c));
    }
  }

  /** A caller that only moves: an answer at once, a wait for the owner, or a keyless run. */
  lemma StartMoves(w: World, s: State, c: Caller)
    requires CallerOk(w, s, c) && KeyOk(w, s, w.Key(c)) && Inv(w, s) && At(s, c) == Idle
    requires var r := w.requests(c);
             !(r.valid && r.immediate && !(r.key != "" && (r.key in s.receipts || r.key in s.inflight)))
             && !(r.valid && r.key != "" && r.key !in s.receipts && r.key !in s.inflight)
    ensures var s' := RhinoProtocol.Begin(w, s, c); s' == Move(s, c, At(s', c)).(lock := s'.lock) && s'.lock == s.lock && CallerOk(w, s', c)
  {
    hide Inv, Serial, ReportOk, Settle;
    SameTurnsFor(w, s, RhinoProtocol.Begin(w, s, c), c);
  }

  lemma StepKeepsInv(w: World, s: State, e: Event)
    requires Inv(w, s)
    ensures Inv(w, Step(w, s, e))
  {
    hide Inv, Settle, Abandon, RhinoProtocol.Begin, Next, R.ReceiptOf, Serial, WaiterOk, ReportOk, Land, Out, Unanswered;
    var c := e.c;
    InvCaller(w, s, c);
    InvKey(w, s, w.Key(c));
    match e
    case Start(_) => if At(s, c) == Idle { StartKeepsInv(w, s, c); }
    case Acquire(_) => if At(s, c) == WantLock && s.lock == None { AcquireKeepsInv(w, s, c); }
    case Refuse(_) => if At(s, c) == Locked { RefuseKeepsInv(w, s, c, Incompatible); }
    case ReadBefore(_) =>
      if At(s, c) == Locked {
        if w.requests(c).expected.Some? && w.requests(c).expected.value != w.revision(w.scene(s.doc)) { RefuseKeepsInv(w, s, c, Stale); }
        else { BeginTurnKeepsInv(w, s, c); }
      }
    case Send(_) => if At(s, c) == Executing { SendKeepsInv(w, s, c); }
    case Finish(_) =>
      if At(s, c) == Executing && HasTurn(s, c) && LastTurn(s).progress.Ended? { FinishKeepsInv(w, s, c); }
    case Fail(_) =>
      if At(s, c) == Executing && HasTurn(s, c) { FailKeepsInv(w, s, c); }
      else if Owning(At(s, c)) { AbandonKeepsInv(w, s, c); }
      else if At(s, c).Awaiting? { AnswerKeepsInv(w, s, c, Raised); }
    case Wake(_) =>
      if At(s, c).Awaiting? && At(s, c).owner in s.futures && s.futures[At(s, c).owner] != Pending { WakeKeepsInv(w, s, c); }
    case Lands(_, stray) => if stray in s.strays && s.turns != [] { LandKeepsInv(w, s, stray); }
  }

  lemma FailKeepsInv(w: World, s: State, c: Caller)
    requires Inv(w, s) && At(s, c) == Executing && HasTurn(s, c)
    ensures Inv(w, Abandon(w, s, c).(strays := s.strays + Out(w, c, LastTurn(s).progress)))
  {
    hide Inv, Abandon, Out;
    AbandonKeepsInv(w, s, c);
    StraysAside(w, Abandon(w, s, c), s.strays + Out(w, c, LastTurn(s).progress));
  }

  lemma AcquireKeepsInv(w: World, s: State, c: Caller)
    requires Inv(w, s) && At(s, c) == WantLock && s.lock == None
    ensures Inv(w, Move(s, c, Locked).(lock := Some(c)))
  {
    hide Inv, Serial, ReportOk, KeyOk;
    InvCaller(w, s, c);
    MoveKeepsInv(w, s, c, Move(s, c, Locked).(lock := Some(c)));
  }

  lemma RefuseKeepsInv(w: World, s: State, c: Caller, report: Report)
    requires Inv(w, s) && At(s, c) == Locked && !report.Executed?
    ensures Inv(w, Settle(w, s, c, report))
  {
    hide Inv, Serial, Settle;
    InvCaller(w, s, c);
    InvKey(w, s, w.Key(c));
    SettleKeepsInv(w, s, c, report);
  }

  lemma FinishKeepsInv(w: World, s: State, c: Caller)
    requires Inv(w, s) && At(s, c) == Executing && HasTurn(s, c) && LastTurn(s).progress.Ended?
    ensures Inv(w, Step(w, s, Finish(c)))
  {
    hide Inv, Serial, Settle, ReportOk, R.ReceiptOf;
    InvCaller(w, s, c);
    InvKey(w, s, w.Key(c));
    FinishReport(w, s, c);
    var turn := LastTurn(s);
    SettleKeepsInv(w, s, c, Executed(R.ReceiptOf(w.Commands(c), turn.progress.ending, w.scene(turn.before), w.scene(s.doc))));
  }

  /** A waiter moves to its final answer. */
  lemma AnswerKeepsInv(w: World, s: State, c: Caller, answer: Answer)
    requires Inv(w, s) && At(s, c).Awaiting? && AnswerOk(w, s, c, answer) && !answer.Own?
    ensures Inv(w, Move(s, c, Done(answer)))
  {
    hide Inv, Serial, KeyOk, ReportOk, NoTurn, OnlyTurn;
    InvCaller(w, s, c);
    SameTurnsFor(w, s, Move(s, c, Done(answer)), c);
    MoveKeepsInv(w, s, c, Move(s, c, Done(answer)));
  }

  lemma WakeKeepsInv(w: World, s: State, c: Caller)
    requires Inv(w, s) && At(s, c).Awaiting? && At(s, c).owner in s.futures && s.futures[At(s, c).owner] != Pending
    ensures Inv(w, Step(w, s, Wake(c)))
  {
    hide Inv, Serial, KeyOk, ReportOk;
    InvCaller(w, s, c);
    var future := s.futures[At(s, c).owner];
    AnswerKeepsInv(w, s, c, if future.Resolved? then AnswerFrom(future.receipt, w.Fingerprint(c)) else Raised);
  }

  /** `s'` differs from `s` in no turn, in no stray command and in no other caller. */
  ghost predicate Quiet(s: State, s': State, c: Caller) {
    s'.turns == s.turns && s'.strays == s.strays && forall d :: d != c ==> At(s', d) == At(s, d)
  }

  lemma SettleIsQuiet(w: World, s: State, c: Caller, report: Report)
    ensures Quiet(s, Settle(w, s, c, report), c)
  {}

  lemma AbandonIsQuiet(w: World, s: State, c: Caller)
    ensures Quiet(s, Abandon(w, s, c), c)
  {}

  lemma BeginIsQuiet(w: World, s: State, c: Caller)
    ensures Quiet(s, RhinoProtocol.Begin(w, s, c), c)
  {
    hide Settle;
    SettleIsQuiet(w, s, c, Early);
  }

  /** Turns are only added, by a caller that holds the lock; answers are final. */
  lemma StepTurns(w: World, s: State, e: Event)
    ensures var s' := Step(w, s, e);
            && |s.turns| <= |s'.turns| <= |s.turns| + 1
            && (|s'.turns| > |s.turns| ==> At(s, e.c) == Locked && s'.turns[|s.turns|].c == e.c)
            && (forall i :: 0 <= i < |s.turns| ==> s'.turns[i].c == s.turns[i].c)
            && (forall d :: At(s, d).Done? ==> At(s', d) == At(s, d))
  {
    hide Next, R.ReceiptOf, Settle, Abandon, RhinoProtocol.Begin, Out, Unanswered, Landed;
    match e
    case Start(c) => BeginIsQuiet(w, s, c);
    case Refuse(c) => SettleIsQuiet(w, s, c, Incompatible);
    case ReadBefore(c) => SettleIsQuiet(w, s, c, Stale);
    case Finish(c) =>
      if HasTurn(s, c) && LastTurn(s).progress.Ended? && LastTurn(s).progress.ending.at <= |w.Commands(c)| {
        var turn := LastTurn(s);
        SettleIsQuiet(w, s, c, Executed(R.ReceiptOf(w.Commands(c), turn.progress.ending, w.scene(turn.before), w.scene(s.doc))));
      }
    case Fail(c) => AbandonIsQuiet(w, s, c);
    case _ =>
  }

  lemma StepKeepsLog(w: World, s: State, e: Event)
    requires Inv(w, s) && LogOk(w, s)
    ensures LogOk(w, Step(w, s, e))
  {
    hide Step, Inv;
    var s' := Step(w, s, e);
    StepTurns(w, s, e);
    forall i, j | 0 <= i < j < |s'.turns| && w.Key(s'.turns[i].c) == w.Key(s'.turns[j].c) != ""
      ensures At(s', s'.turns[i].c) == Done(Raised)
    {
      if j == |s.turns| { LateTurn(w, s, e.c, i); }
    }
  }

  /** When a caller begins its turn, every earlier holder of its key has ended by exception. */
  lemma LateTurn(w: World, s: State, c: Caller, i: nat)
    requires Inv(w, s) && At(s, c) == Locked && i < |s.turns| && w.Key(s.turns[i].c) == w.Key(c) != ""
    ensures At(s, s.turns[i].c) == Done(Raised)
  {
    hide Inv, Serial, ReportOk;
    InvCaller(w, s, c);
    InvCaller(w, s, s.turns[i].c);
    InvKey(w, s, w.Key(c));
  }

  lemma {:induction false} RunKeepsInv(w: World, s: State, schedule: seq<Event>)
    requires Inv(w, s) && LogOk(w, s)
    ensures Inv(w, Run(w, s, schedule)) && LogOk(w, Run(w, s, schedule))
    decreases |schedule|
  {
    hide Inv, Step, LogOk;
    if schedule != [] {
      StepKeepsInv(w, s, schedule[0]);
      StepKeepsLog(w, s, schedule[0]);
      RunKeepsInv(w, Step(w, s, schedule[0]), schedule[1..]);
    }
  }

  // ---------------------------------------------------------------- main results

  function After(w: World, schedule: seq<Event>): State {
    Run(w, Initial(w), schedule)
  }

  lemma InvAfter(w: World, schedule: seq<Event>)
    ensures Inv(w, After(w, schedule)) && LogOk(w, After(w, schedule))
  {
    InitialInv(w);
    RunKeepsInv(w, Initial(w), schedule);
  }

  predicate Returned(s: State, c: Caller) {
    At(s, c).Done? && At(s, c).answer.Own?
  }

  /** Under every schedule, callers sharing a key have at most one owner being served and at most one that returned,
      never both. */
  lemma AtMostOneOwner(w: World, schedule: seq<Event>, a: Caller, b: Caller)
    requires w.Key(a) == w.Key(b) != ""
    requires var s := After(w, schedule); (Owning(At(s, a)) || Returned(s, a)) && (Owning(At(s, b)) || Returned(s, b))
    ensures a == b
  {
    hide Run, Inv, Serial;
    InvAfter(w, schedule);
    var s := After(w, schedule);
    InvCaller(w, s, a);
    InvCaller(w, s, b);
    InvKey(w, s, w.Key(a));
  }

  /** Every other caller of a key that received an answer received the owner's receipt: replayed under the same
      fingerprint, as a conflict under a different one, and without a turn at the document. */
  lemma OthersQuoteTheOwner(w: World, schedule: seq<Event>, c: Caller)
    requires var s := After(w, schedule); At(s, c).Done? && (At(s, c).answer.Replayed? || At(s, c).answer.Conflict?)
    ensures var s := After(w, schedule); var receipt := At(s, c).answer.receipt;
            && w.Key(receipt.owner) == w.Key(c) != "" && At(s, receipt.owner) == Done(Own(receipt))
            && receipt.fingerprint == w.Fingerprint(receipt.owner)
            && (At(s, c).answer.Replayed? <==> w.Fingerprint(c) == w.Fingerprint(receipt.owner))
            && NoTurn(s, c)
  {
    hide Run, Inv, Serial;
    InvAfter(w, schedule);
    var s := After(w, schedule);
    InvCaller(w, s, c);
    InvKey(w, s, w.Key(c));
    InvCaller(w, s, s.receipts[w.Key(c)].owner);
  }

  /** Two turns at the document under one key belong to two callers, and the earlier one ended by exception: nothing else
      lets a key be written twice. */
  lemma SecondWriterNeedsFailure(w: World, schedule: seq<Event>, i: nat, j: nat)
    requires var s := After(w, schedule); i < j < |s.turns| && w.Key(s.turns[i].c) == w.Key(s.turns[j].c) != ""
    ensures var s := After(w, schedule); s.turns[i].c != s.turns[j].c && At(s, s.turns[i].c) == Done(Raised)
  {
    hide Run, Inv, Serial;
    InvAfter(w, schedule);
    InvCaller(w, After(w, schedule), After(w, schedule).turns[i].c);
  }

  /** No waiter is orphaned: its owner is still being served, or its future is settled and waking it ends it with the owner's
      receipt, or by exception if the owner's future broke. */
  lemma WaitersAreServed(w: World, schedule: seq<Event>, c: Caller)
    requires At(After(w, schedule), c).Awaiting?
    ensures var s := After(w, schedule); var owner := At(s, c).owner;
            && owner in s.futures && (s.futures[owner] != Pending || Owning(At(s, owner)))
            && (s.futures[owner].Resolved? ==>
                  var r := s.futures[owner].receipt;
                  At(Step(w, s, Wake(c)), c) == Done(if r.fingerprint == w.Fingerprint(c) then Replayed(r) else Conflict(r)))
            && (s.futures[owner] == Broken ==> At(Step(w, s, Wake(c)), c) == Done(Raised))
  {
    hide Run, Inv, Serial;
    InvAfter(w, schedule);
    InvCaller(w, After(w, schedule), c);
    InvKey(w, After(w, schedule), w.Key(c));
  }

  /** Under every schedule the document is the result of the turns taken one after another, each from the document its
      predecessor left, and every clean turn is on its way to what its commands come to alone. */
  lemma TurnsAreSerial(w: World, schedule: seq<Event>)
    ensures Serial(w, After(w, schedule))
  {
    hide Run;
    InvAfter(w, schedule);
  }

  /** The receipt a caller returns compares the two scene reads of its one turn, and if no stray command took effect in
      between it is the receipt of its own commands, run alone from the document of its before-read. */
  lemma ReceiptIsOwnEffect(w: World, schedule: seq<Event>, c: Caller)
    requires Returned(After(w, schedule), c) && At(After(w, schedule), c).answer.receipt.report.Executed?
    ensures var s := After(w, schedule); var receipt := At(s, c).answer.receipt.report.receipt;
            exists i: nat ::
              && OnlyTurn(s, c, i) && s.turns[i].before == DocBefore(w, s.turns, i) && Reports(w, s.turns[i], receipt)
              && (s.turns[i].clean ==>
                    s.turns[i].progress == Ended(w.Ending(c, s.turns[i].before)) && receipt == w.ReceiptOf(c, s.turns[i].before))
  {
    hide Run, Inv, R.SendAll, R.ReceiptOf;
    InvAfter(w, schedule);
    var s := After(w, schedule);
    InvCaller(w, s, c);
    InvSerial(w, s);
    var i: nat :| OnlyTurn(s, c, i) && Reports(w, s.turns[i], At(s, c).answer.receipt.report.receipt);
    assert TurnOk(w, s.turns[i]);
  }

  // ---------------------------------------------------------------- where stray commands come from

  /** A stray command is one whose reply its caller gave up on: the caller ended by exception, or its transport lost the
      reply of a command not yet applied. */
  ghost predicate StrayOk(w: World, s: State, stray: Stray) {
    && (exists i: nat :: i < |s.turns| && s.turns[i].c == stray.c)
    && stray.at < |w.Commands(stray.c)| && stray.name == w.Commands(stray.c)[stray.at].name
    && (At(s, stray.c) == Done(Raised) || w.fates(stray.c)(stray.at) == R.LostUnapplied)
  }

  ghost predicate StraysOk(w: World, s: State) {
    forall stray :: stray in s.strays ==> StrayOk(w, s, stray)
  }

  lemma StrayStays(w: World, s: State, s': State, stray: Stray)
    requires StrayOk(w, s, stray) && |s'.turns| >= |s.turns| && forall i :: 0 <= i < |s.turns| ==> s'.turns[i].c == s.turns[i].c
    requires forall d :: At(s, d).Done? ==> At(s', d) == At(s, d)
    ensures StrayOk(w, s', stray)
  {}

  lemma StepKeepsStrays(w: World, s: State, e: Event)
    requires StraysOk(w, s)
    ensures StraysOk(w, Step(w, s, e))
  {
    hide StrayOk, Step;
    var s' := Step(w, s, e);
    StepTurns(w, s, e);
    forall stray | stray in s'.strays ensures StrayOk(w, s', stray) {
      if stray in s.strays { StrayStays(w, s, s', stray); } else { NewStray(w, s, e, stray); }
    }
  }

  /** Commands become stray when a holder sends or fails. */
  lemma StraySource(w: World, s: State, e: Event, stray: Stray)
    requires stray in Step(w, s, e).strays && stray !in s.strays
    ensures (e.Send? || e.Fail?) && At(s, e.c) == Executing && HasTurn(s, e.c)
    ensures stray in if e.Send? then Unanswered(w, e.c, LastTurn(s).progress) else Out(w, e.c, LastTurn(s).progress)
  {
    hide Next, R.ReceiptOf, RhinoProtocol.Begin, Landed, Out, Unanswered, Settle;
    if e.Start? { BeginIsQuiet(w, s, e.c); }
    if e.Refuse? { SettleIsQuiet(w, s, e.c, Incompatible); }
    if e.ReadBefore? { SettleIsQuiet(w, s, e.c, Stale); }
    if e.Finish? && HasTurn(s, e.c) && LastTurn(s).progress.Ended? && LastTurn(s).progress.ending.at <= |w.Commands(e.c)| {
      var turn := LastTurn(s);
      SettleIsQuiet(w, s, e.c, Executed(R.ReceiptOf(w.Commands(e.c), turn.progress.ending, w.scene(turn.before), w.scene(s.doc))));
    }
  }

  lemma NewStray(w: World, s: State, e: Event, stray: Stray)
    requires stray in Step(w, s, e).strays && stray !in s.strays
    ensures StrayOk(w, Step(w, s, e), stray)
  {
    hide Step, Out, Unanswered;
    StraySource(w, s, e, stray);
    OutIs(w, e.c, LastTurn(s).progress, stray);
    StepTurns(w, s, e);
    assert Step(w, s, e).turns[|s.turns| - 1].c == stray.c;
    if e.Fail? { FailedIsRaised(w, s, e.c); }
  }

  lemma FailedIsRaised(w: World, s: State, c: Caller)
    requires At(s, c) == Executing
    ensures At(Step(w, s, Fail(c)), c) == Done(Raised)
  {
    hide Out;
  }

  lemma OutIs(w: World, c: Caller, p: Progress, stray: Stray)
    requires stray in Out(w, c, p) || stray in Unanswered(w, c, p)
    ensures stray.c == c && stray.at < |w.Commands(c)| && stray.name == w.Commands(c)[stray.at].name
    ensures stray !in Unanswered(w, c, p) || w.fates(c)(stray.at) == R.LostUnapplied
  {
    hide Plugin.ResolveParams;
  }

  lemma {:induction false} RunKeepsStrays(w: World, s: State, schedule: seq<Event>)
    requires StraysOk(w, s)
    ensures StraysOk(w, Run(w, s, schedule))
    decreases |schedule|
  {
    hide StraysOk, Step;
    if schedule != [] {
      StepKeepsStrays(w, s, schedule[0]);
      RunKeepsStrays(w, Step(w, s, schedule[0]), schedule[1..]);
    }
  }

  /** Under every schedule only commands that their callers gave up on can be stray. */
  lemma StraysWereGivenUp(w: World, schedule: seq<Event>, stray: Stray)
    requires stray in After(w, schedule).strays
    ensures StrayOk(w, After(w, schedule), stray)
  {
    hide Run, StrayOk;
    RunKeepsStrays(w, Initial(w), schedule);
  }

  ghost predicate AllClean(s: State) {
    forall i :: 0 <= i < |s.turns| ==> s.turns[i].clean
  }

  lemma {:induction false} OnlyLandingsDirty(w: World, s: State, schedule: seq<Event>)
    requires AllClean(s) && forall e :: e in schedule ==> !e.Lands?
    ensures AllClean(Run(w, s, schedule))
    decreases |schedule|
  {
    hide Step;
    if schedule != [] {
      assert schedule[0] in schedule;
      StepStaysClean(w, s, schedule[0]);
      OnlyLandingsDirty(w, Step(w, s, schedule[0]), schedule[1..]);
    }
  }

  lemma StepStaysClean(w: World, s: State, e: Event)
    requires AllClean(s) && !e.Lands?
    ensures AllClean(Step(w, s, e))
  {
    hide Next, R.ReceiptOf, Settle, Abandon, RhinoProtocol.Begin, Out, Unanswered;
    match e
    case Start(c) => BeginIsQuiet(w, s, c);
    case Refuse(c) => SettleIsQuiet(w, s, c, Incompatible);
    case ReadBefore(c) => SettleIsQuiet(w, s, c, Stale);
    case Finish(c) =>
      if HasTurn(s, c) && LastTurn(s).progress.Ended? && LastTurn(s).progress.ending.at <= |w.Commands(c)| {
        var turn := LastTurn(s);
        SettleIsQuiet(w, s, c, Executed(R.ReceiptOf(w.Commands(c), turn.progress.ending, w.scene(turn.before), w.scene(s.doc))));
      }
    case Fail(c) => AbandonIsQuiet(w, s, c);
    case _ =>
  }

  // ---------------------------------------------------------------- the expected revision

  /** The document has the revision that the call expects, if it expects any. */
  predicate IsExpected(w: World, c: Caller, doc: Document) {
    w.requests(c).expected == None || w.requests(c).expected == Some(w.revision(w.scene(doc)))
  }

  ghost predicate TurnsExpected(w: World, s: State) {
    forall i :: 0 <= i < |s.turns| ==> IsExpected(w, s.turns[i].c, s.turns[i].before)
  }

  predicate RefusedStale(s: State, c: Caller) {
    At(s, c).Done? && At(s, c).answer.Own? && At(s, c).answer.receipt.report == Stale
  }

  lemma StepKeepsExpected(w: World, s: State, e: Event)
    requires TurnsExpected(w, s)
    ensures TurnsExpected(w, Step(w, s, e))
  {
    hide Next, R.ReceiptOf, Settle, Abandon, RhinoProtocol.Begin, Out, Unanswered;
    match e
    case Start(c) => BeginIsQuiet(w, s, c);
    case Refuse(c) => SettleIsQuiet(w, s, c, Incompatible);
    case ReadBefore(c) => SettleIsQuiet(w, s, c, Stale);
    case Finish(c) =>
      if HasTurn(s, c) && LastTurn(s).progress.Ended? && LastTurn(s).progress.ending.at <= |w.Commands(c)| {
        var turn := LastTurn(s);
        SettleIsQuiet(w, s, c, Executed(R.ReceiptOf(w.Commands(c), turn.progress.ending, w.scene(turn.before), w.scene(s.doc))));
      }
    case Fail(c) => AbandonIsQuiet(w, s, c);
    case _ =>
  }

  lemma {:induction false} RunKeepsExpected(w: World, s: State, schedule: seq<Event>)
    requires TurnsExpected(w, s)
    ensures TurnsExpected(w, Run(w, s, schedule))
    decreases |schedule|
  {
    hide Step, TurnsExpected;
    if schedule != [] {
      StepKeepsExpected(w, s, schedule[0]);
      RunKeepsExpected(w, Step(w, s, schedule[0]), schedule[1..]);
    }
  }

  /** A call is refused as stale only by a before-read of another revision. */
  lemma StepRefuses(w: World, s: State, e: Event, c: Caller)
    requires !RefusedStale(s, c) && RefusedStale(Step(w, s, e), c)
    ensures e == ReadBefore(c) && !IsExpected(w, c, s.doc)
  {
    hide Next, R.ReceiptOf, Settle, Abandon, RhinoProtocol.Begin, Out, Unanswered, Landed;
    var d := e.c;
    AbandonIsQuiet(w, s, d);
    EndReports(w, s, d, Incompatible);
    match e
    case Start(_) =>
      BeginIsQuiet(w, s, d);
      BeginNeverRefuses(w, s, d);
    case ReadBefore(_) => EndReports(w, s, d, Stale);
    case Finish(_) =>
      if HasTurn(s, d) && LastTurn(s).progress.Ended? && LastTurn(s).progress.ending.at <= |w.Commands(d)| {
        var turn := LastTurn(s);
        EndReports(w, s, d, Executed(R.ReceiptOf(w.Commands(d), turn.progress.ending, w.scene(turn.before), w.scene(s.doc))));
      }
    case _ =>
  }

  /** How a caller stands when it has settled or given up. */
  lemma EndReports(w: World, s: State, c: Caller, report: Report)
    ensures At(Settle(w, s, c, report), c) == Done(Own(Receipt(c, w.Fingerprint(c), report))) && At(Abandon(w, s, c), c) == Done(Raised)
    ensures Quiet(s, Settle(w, s, c, report), c)
  {}

  lemma BeginNeverRefuses(w: World, s: State, c: Caller)
    ensures !RefusedStale(RhinoProtocol.Begin(w, s, c), c)
  {
    hide Settle;
    EndReports(w, s, c, Early);
  }

  lemma {:induction false} RunRefuses(w: World, s: State, schedule: seq<Event>, c: Caller) returns (n: nat)
    requires !RefusedStale(s, c)
    ensures n <= |schedule|
    ensures RefusedStale(Run(w, s, schedule), c) ==>
              n < |schedule| && schedule[n] == ReadBefore(c) && !IsExpected(w, c, Run(w, s, schedule[..n]).doc)
    decreases |schedule|
  {
    hide Step, RefusedStale, IsExpected;
    n := 0;
    if schedule != [] {
      var next := Step(w, s, schedule[0]);
      if RefusedStale(next, c) {
        StepRefuses(w, s, schedule[0], c);
        assert schedule[..0] == [];
      } else {
        n := RunRefuses(w, next, schedule[1..], c);
        n := n + 1;
        assert schedule[..n][1..] == schedule[1..][..n - 1];
      }
    }
  }

  /** On every schedule each turn began from a document of the revision its caller expected, and a call refused as stale read a
      document of another one. */
  lemma RevisionsDecide(w: World, schedule: seq<Event>, c: Caller) returns (n: nat)
    ensures var s := After(w, schedule);
            && (forall i :: 0 <= i < |s.turns| ==> IsExpected(w, s.turns[i].c, s.turns[i].before))
            && (RefusedStale(s, c) ==>
                  n < |schedule| && schedule[n] == ReadBefore(c) && !IsExpected(w, c, After(w, schedule[..n]).doc))
  {
    hide Run, IsExpected;
    RunKeepsExpected(w, Initial(w), schedule);
    n := RunRefuses(w, Initial(w), schedule, c);
  }

  // ---------------------------------------------------------------- why a call raises

  predicate SameKey(w: World, c: Caller, d: Caller) {
    d == c || (w.Key(c) != "" && w.Key(d) == w.Key(c))
  }

  /** An execution of `c` or of its key failed. */
  ghost predicate KeyFailed(w: World, schedule: seq<Event>, c: Caller) {
    exists d :: Event.Fail(d) in schedule && SameKey(w, c, d)
  }

  ghost predicate AllHaveReason(w: World, s: State, schedule: seq<Event>) {
    && (forall c :: At(s, c) == Done(Raised) ==> !w.requests(c).valid || KeyFailed(w, schedule, c))
    && (forall d :: BrokenFor(s, d) ==> Event.Fail(d) in schedule)
  }

  lemma StepRaises(w: World, s: State, e: Event, c: Caller)
    requires Inv(w, s) && At(s, c) != Done(Raised) && At(Step(w, s, e), c) == Done(Raised)
    ensures !w.requests(c).valid || e == Event.Fail(c)
            || (At(s, c).Awaiting? && SameKey(w, c, At(s, c).owner) && BrokenFor(s, At(s, c).owner))
  {
    hide Inv, Next, R.ReceiptOf, Settle, Abandon, RhinoProtocol.Begin, Out, Unanswered, Landed;
    var d := e.c;
    match e
    case Start(_) =>
      BeginIsQuiet(w, s, d);
      BeginRaises(w, s, d);
    case Wake(_) => WakeRaises(w, s, d, c);
    case Finish(_) =>
      if HasTurn(s, d) && LastTurn(s).progress.Ended? && LastTurn(s).progress.ending.at <= |w.Commands(d)| {
        var turn := LastTurn(s);
        EndReports(w, s, d, Executed(R.ReceiptOf(w.Commands(d), turn.progress.ending, w.scene(turn.before), w.scene(s.doc))));
      }
    case _ => OthersRaiseNone(w, s, e, c);
  }

  lemma WakeRaises(w: World, s: State, d: Caller, c: Caller)
    requires Inv(w, s) && At(s, c) != Done(Raised) && At(Step(w, s, Wake(d)), c) == Done(Raised)
    ensures At(s, c).Awaiting? && SameKey(w, c, At(s, c).owner) && BrokenFor(s, At(s, c).owner)
  {
    hide Inv, Next, R.ReceiptOf, Settle, Abandon, RhinoProtocol.Begin, Out, Unanswered, Landed;
    InvCaller(w, s, c);
  }

  /** No other event makes anybody raise but a failure. */
  lemma OthersRaiseNone(w: World, s: State, e: Event, c: Caller)
    requires e.Acquire? || e.Refuse? || e.ReadBefore? || e.Send? || e.Fail? || e.Lands?
    ensures At(s, c) != Done(Raised) && At(Step(w, s, e), c) == Done(Raised) ==> e == Event.Fail(c)
  {
    hide Next, R.ReceiptOf, Settle, Abandon, Out, Unanswered, Landed;
    AbandonIsQuiet(w, s, e.c);
    EndReports(w, s, e.c, Incompatible);
    EndReports(w, s, e.c, Stale);
  }

  lemma BeginRaises(w: World, s: State, c: Caller)
    ensures At(RhinoProtocol.Begin(w, s, c), c) == Done(Raised) <==> !w.requests(c).valid
  {
    hide Settle;
    EndReports(w, s, c, Early);
  }

  lemma StepBreaks(w: World, s: State, e: Event, d: Caller)
    requires BrokenFor(Step(w, s, e), d)
    ensures BrokenFor(s, d) || e == Event.Fail(d)
  {
    hide Next, R.ReceiptOf, Settle, Abandon, RhinoProtocol.Begin, Out, Unanswered, Landed;
    var c := e.c;
    SettleBreaksNone(w, s, c, Incompatible, d);
    AbandonBreaks(w, s, c, d);
    match e
    case Start(_) => BeginBreaksNone(w, s, c, d);
    case ReadBefore(_) => SettleBreaksNone(w, s, c, Stale, d);
    case Finish(_) =>
      if HasTurn(s, c) && LastTurn(s).progress.Ended? && LastTurn(s).progress.ending.at <= |w.Commands(c)| {
        var turn := LastTurn(s);
        SettleBreaksNone(w, s, c, Executed(R.ReceiptOf(w.Commands(c), turn.progress.ending, w.scene(turn.before), w.scene(s.doc))), d);
      }
    case _ => SameFutures(w, s, e, d);
  }

  predicate BrokenFor(s: State, d: Caller) {
    d in s.futures && s.futures[d] == Broken
  }

  lemma SettleBreaksNone(w: World, s: State, c: Caller, report: Report, d: Caller)
    ensures BrokenFor(Settle(w, s, c, report), d) ==> BrokenFor(s, d)
  {}

  lemma AbandonBreaks(w: World, s: State, c: Caller, d: Caller)
    ensures BrokenFor(Abandon(w, s, c), d) ==> BrokenFor(s, d) || d == c
  {}

  lemma BeginBreaksNone(w: World, s: State, c: Caller, d: Caller)
    ensures BrokenFor(RhinoProtocol.Begin(w, s, c), d) ==> BrokenFor(s, d)
  {
    hide Settle;
    SettleBreaksNone(w, s, c, Early, d);
  }

  /** The other events settle and break no future. */
  lemma SameFutures(w: World, s: State, e: Event, d: Caller)
    requires e.Acquire? || e.Refuse? || e.Send? || e.Fail? || e.Wake? || e.Lands?
    ensures BrokenFor(Step(w, s, e), d) ==> BrokenFor(s, d) || e == Event.Fail(d)
  {
    hide Next, R.ReceiptOf, Settle, Abandon, RhinoProtocol.Begin, Out, Unanswered, Landed;
    SettleBreaksNone(w, s, e.c, Incompatible, d);
    AbandonBreaks(w, s, e.c, d);
  }

  lemma {:induction false} RaisedHaveReason(w: World, schedule: seq<Event>)
    ensures AllHaveReason(w, After(w, schedule), schedule)
    decreases |schedule|
  {
    hide Step, Run, Inv, SameKey;
    if schedule == [] {
      assert After(w, []) == Initial(w) by { StartsInitial(w); }
    } else {
      var init, e := schedule[..|schedule| - 1], schedule[|schedule| - 1];
      assert schedule == init + [e];
      RunConcat(w, Initial(w), init, [e]);
      RunEvent(w, After(w, init), e);
      RaisedHaveReason(w, init);
      InvAfter(w, init);
      var s := After(w, init);
      forall d | BrokenFor(After(w, schedule), d) ensures Event.Fail(d) in schedule {
        StepBreaks(w, s, e, d);
      }
      forall c | At(After(w, schedule), c) == Done(Raised) && w.requests(c).valid ensures KeyFailed(w, schedule, c) {
        ReasonFor(w, init, e, c);
      }
    }
  }

  lemma ReasonFor(w: World, init: seq<Event>, e: Event, c: Caller)
    requires AllHaveReason(w, After(w, init), init) && Inv(w, After(w, init))
    requires At(Step(w, After(w, init), e), c) == Done(Raised) && w.requests(c).valid
    ensures KeyFailed(w, init + [e], c)
  {
    hide Step, Run, Inv;
    var s := After(w, init);
    if At(s, c) == Done(Raised) {
      var d :| Event.Fail(d) in init && SameKey(w, c, d);
      assert Event.Fail(d) in init + [e];
    } else {
      StepRaises(w, s, e, c);
      var d := if e == Event.Fail(c) then c else At(s, c).owner;
      assert Event.Fail(d) in init + [e];
    }
  }

  lemma StartsInitial(w: World)
    ensures After(w, []) == Initial(w)
  {}

  /** The caller settled with that report. */
  predicate Reported(s: State, c: Caller, report: Report) {
    At(s, c).Done? && At(s, c).answer.Own? && At(s, c).answer.receipt.report == report
  }

  lemma StepSettles(w: World, s: State, e: Event, c: Caller)
    ensures !Reported(s, c, Early) && Reported(Step(w, s, e), c, Early) ==> w.requests(c).immediate
    ensures !Reported(s, c, Incompatible) && Reported(Step(w, s, e), c, Incompatible) ==> e == Refuse(c)
  {
    hide Next, R.ReceiptOf, Settle, Abandon, RhinoProtocol.Begin, Out, Unanswered, Landed, Reported;
    var d := e.c;
    match e
    case Start(_) => BeginSettles(w, s, d, c);
    case Refuse(_) => EndSettles(w, s, d, Incompatible, c);
    case ReadBefore(_) => ReadSettlesNone(w, s, d, c);
    case Finish(_) =>
      if HasTurn(s, d) && LastTurn(s).progress.Ended? && LastTurn(s).progress.ending.at <= |w.Commands(d)| {
        var turn := LastTurn(s);
        EndSettles(w, s, d, Executed(R.ReceiptOf(w.Commands(d), turn.progress.ending, w.scene(turn.before), w.scene(s.doc))), c);
      }
    case _ =>
      OthersSettleNone(w, s, e, c, Early);
      OthersSettleNone(w, s, e, c, Incompatible);
  }

  /** A caller that settles reports what it settles with; nobody else does. */
  lemma EndSettles(w: World, s: State, d: Caller, report: Report, c: Caller)
    ensures forall other :: other != report && Reported(Settle(w, s, d, report), c, other) ==> Reported(s, c, other)
    ensures c != d ==> (Reported(Settle(w, s, d, report), c, report) <==> Reported(s, c, report))
  {}

  lemma ReadSettlesNone(w: World, s: State, d: Caller, c: Caller)
    ensures forall report :: report != Stale && Reported(Step(w, s, ReadBefore(d)), c, report) ==> Reported(s, c, report)
  {
    hide Settle;
    EndSettles(w, s, d, Stale, c);
  }

  /** No other event settles anybody. */
  lemma OthersSettleNone(w: World, s: State, e: Event, c: Caller, report: Report)
    requires e.Acquire? || e.Send? || e.Fail? || e.Wake? || e.Lands?
    ensures Reported(Step(w, s, e), c, report) ==> Reported(s, c, report)
  {
    hide Next, R.ReceiptOf, Settle, Abandon, RhinoProtocol.Begin, Out, Unanswered, Landed;
    AbandonIsQuiet(w, s, e.c);
    EndReports(w, s, e.c, Early);
  }

  lemma BeginSettles(w: World, s: State, d: Caller, c: Caller)
    ensures Reported(RhinoProtocol.Begin(w, s, d), c, Early) ==> Reported(s, c, Early) || w.requests(c).immediate
    ensures Reported(RhinoProtocol.Begin(w, s, d), c, Incompatible) ==> Reported(s, c, Incompatible)
  {
    hide Settle;
    EndSettles(w, s, d, Early, c);
  }

  /** Only a call whose request says so is answered before the lock, and only one that was refused for its capabilities reports
      that. */
  lemma {:induction false} ReportsHaveReason(w: World, schedule: seq<Event>, c: Caller)
    ensures Reported(After(w, schedule), c, Early) ==> w.requests(c).immediate
    ensures Reported(After(w, schedule), c, Incompatible) ==> Refuse(c) in schedule
    decreases |schedule|
  {
    hide Step, Run, Reported;
    if schedule == [] {
      NothingReported(w, c);
    } else {
      var init, e := schedule[..|schedule| - 1], schedule[|schedule| - 1];
      assert schedule == init + [e];
      RunConcat(w, Initial(w), init, [e]);
      RunEvent(w, After(w, init), e);
      ReportsHaveReason(w, init, c);
      StepSettles(w, After(w, init), e, c);
    }
  }

  lemma NothingReported(w: World, c: Caller)
    ensures forall report :: !Reported(After(w, []), c, report)
  {
    StartsInitial(w);
  }

  /** A call only raises for an invalid request, or when it fails itself or waited for one of its key that did. */
  lemma RaisedHasReason(w: World, schedule: seq<Event>, c: Caller)
    requires At(After(w, schedule), c) == Done(Raised)
    ensures !w.requests(c).valid || exists d :: Event.Fail(d) in schedule && (d == c || (w.Key(c) != "" && w.Key(d) == w.Key(c)))
  {
    hide Run;
    RaisedHaveReason(w, schedule);
    if w.requests(c).valid {
      var d :| Event.Fail(d) in schedule && SameKey(w, c, d);
    }
  }

  // ---------------------------------------------------------------- the sending loop

  lemma {:induction false} RunConcat(w: World, s: State, first: seq<Event>, second: seq<Event>)
    ensures Run(w, s, first + second) == Run(w, Run(w, s, first), second)
    decreases |first|
  {
    hide Step;
    if first == [] {
      assert first + second == second;
    } else {
      assert (first + second)[1..] == first[1..] + second;
      RunConcat(w, Step(w, s, first[0]), first[1..], second);
    }
  }

  lemma RunEvent(w: World, s: State, e: Event)
    ensures Run(w, s, [e]) == Step(w, s, e)
  {
    hide Step;
    assert [e][1..] == [];
  }

  lemma ProgressedTwice(s: State, p: Progress, q: Progress)
    requires s.turns != []
    ensures Progressed(Progressed(s, p), q) == Progressed(s, q)
  {
    var last, m := LastTurn(s), |s.turns| - 1;
    assert s.turns[m := last.(progress := p, left := DocOf(p))][m := last.(progress := q, left := DocOf(q))]
        == s.turns[m := last.(progress := q, left := DocOf(q))];
  }

  /** The holder's sending loop, one event a round, comes to what it comes to in one go. */
  lemma SendLoop(w: World, s: State, c: Caller) returns (events: seq<Event>, strays: set<Stray>)
    requires At(s, c) == Executing && HasTurn(s, c) && LastTurn(s).progress.Going? && LastTurn(s).progress.at <= |w.Commands(c)|
    ensures var p := LastTurn(s).progress;
            Run(w, s, events) == Progressed(s, Ended(R.SendAll(w.kernel, w.Commands(c), p.s, w.fates(c), p.at))).(strays := strays)
    decreases |w.Commands(c)| - LastTurn(s).progress.at
  {
    hide R.SendOne, Run, Unanswered;
    var p := LastTurn(s).progress;
    var next := Next(w, c, p);
    var s' := Step(w, s, Send(c));
    strays := s.strays + Unanswered(w, c, p);
    assert s' == Progressed(s, next).(strays := strays);
    RunEvent(w, s, Send(c));
    events := [Send(c)];
    if next.Going? {
      assert At(s', c) == Executing && HasTurn(s', c) && LastTurn(s').progress == next;
      var rest;
      rest, strays := SendLoop(w, s', c);
      RunConcat(w, s, events, rest);
      events := events + rest;
      ProgressedTwice(s, next, Ended(R.SendAll(w.kernel, w.Commands(c), next.s, w.fates(c), next.at)));
    }
  }

  // ---------------------------------------------------------------- the exceptions are real

  lemma RunOne(w: World, s: State, e: Event, rest: seq<Event>)
    ensures Run(w, s, [e] + rest) == Run(w, Step(w, s, e), rest)
  {
    hide Step;
    assert ([e] + rest)[1..] == rest;
  }

  /** The state once `c` has taken the lock, read the scene and sent a command. */
  function Sending(w: World, s: State, c: Caller): State {
    var begun := Going(Plugin.Begin(s.doc), 0);
    var p := Next(w, c, begun);
    State(s.callers[c := Executing], s.receipts, s.inflight[w.Key(c) := c], s.futures[c := Pending], Some(c),
          DocOf(p), s.turns + [NewTurn(c, s.doc).(progress := p, left := DocOf(p))], s.strays + Unanswered(w, c, begun))
  }

  predicate FreeFor(w: World, s: State, c: Caller) {
    && w.requests(c).valid && !w.requests(c).immediate && w.Key(c) != "" && w.requests(c).expected == None
    && At(s, c) == Idle && s.lock == None && w.Key(c) !in s.receipts && w.Key(c) !in s.inflight
  }

  lemma ToTheLock(w: World, s: State, c: Caller)
    requires FreeFor(w, s, c)
    ensures Step(w, Step(w, s, Start(c)), Acquire(c))
         == State(s.callers[c := Locked], s.receipts, s.inflight[w.Key(c) := c], s.futures[c := Pending], Some(c), s.doc, s.turns, s.strays)
  {
    hide Settle;
    assert s.callers[c := WantLock][c := Locked] == s.callers[c := Locked];
  }

  lemma FromTheLock(w: World, s: State, c: Caller)
    requires At(s, c) == Locked && w.requests(c).expected == None
    ensures Step(w, Step(w, s, ReadBefore(c)), Send(c))
         == var begun := Going(Plugin.Begin(s.doc), 0);
            var p := Next(w, c, begun);
            s.(callers := s.callers[c := Executing], doc := DocOf(p), strays := s.strays + Unanswered(w, c, begun),
               turns := s.turns + [NewTurn(c, s.doc).(progress := p, left := DocOf(p))])
  {
    hide Next, Settle, Unanswered;
    var turn, p := NewTurn(c, s.doc), Next(w, c, Going(Plugin.Begin(s.doc), 0));
    assert (s.turns + [turn])[|s.turns| := turn.(progress := p, left := DocOf(p))] == s.turns + [turn.(progress := p, left := DocOf(p))];
  }

  /** Caller `c` finds its key free, takes the lock, reads the scene and sends a command. */
  lemma OwnerSends(w: World, s: State, c: Caller, rest: seq<Event>)
    requires FreeFor(w, s, c)
    ensures Run(w, s, [Start(c), Acquire(c), ReadBefore(c), Send(c)] + rest) == Run(w, Sending(w, s, c), rest)
  {
    hide Run, Next, Step, Unanswered;
    ToTheLock(w, s, c);
    var s1 := Step(w, s, Start(c));
    var s2 := Step(w, s1, Acquire(c));
    FromTheLock(w, s2, c);
    var s3 := Step(w, s2, ReadBefore(c));
    assert s2.callers[c := Executing] == s.callers[c := Executing];
    RunOne(w, s, Start(c), [Acquire(c)] + ([ReadBefore(c)] + ([Send(c)] + rest)));
    RunOne(w, s1, Acquire(c), [ReadBefore(c)] + ([Send(c)] + rest));
    RunOne(w, s2, ReadBefore(c), [Send(c)] + rest);
    RunOne(w, s3, Send(c), rest);
    assert [Start(c)] + ([Acquire(c)] + ([ReadBefore(c)] + ([Send(c)] + rest))) == [Start(c), Acquire(c), ReadBefore(c), Send(c)] + rest;
  }

  lemma RunNone(w: World, s: State)
    ensures Run(w, s, []) == s
  {}

  /** An owner whose after-read fails frees its key, and the next caller of the key sends its command again. */
  lemma FailedOwnerFreesKey(w: World)
    requires w.requests(0) == w.requests(1) && w.requests(0).valid && !w.requests(0).immediate && w.Key(0) != ""
    requires w.requests(0).expected == None
    ensures exists schedule :: var s := After(w, schedule);
              && |s.turns| == 2 && s.turns[0].c == 0 && s.turns[1].c == 1 && At(s, 0) == Done(Raised) && At(s, 1) == Executing
              && s.turns[0].progress == Next(w, 0, Going(Plugin.Begin(w.start), 0))
              && s.turns[1].progress == Next(w, 1, Going(Plugin.Begin(DocOf(s.turns[0].progress)), 0))
  {
    hide Run, Step, Next, Unanswered;
    var second := [Start(1), Acquire(1), ReadBefore(1), Send(1)] + [];
    var schedule := [Start(0), Acquire(0), ReadBefore(0), Send(0)] + ([Fail(0)] + second);
    OwnerSends(w, Initial(w), 0, [Fail(0)] + second);
    var sent := Sending(w, Initial(w), 0);
    RunOne(w, sent, Fail(0), second);
    var failed := Step(w, sent, Fail(0));
    FailStep(w, sent);
    OwnerSends(w, failed, 1, []);
    RunNone(w, Sending(w, failed, 1));
    assert After(w, schedule).turns[0] == sent.turns[0];
  }

  lemma FailStep(w: World, s: State)
    requires At(s, 0) == Executing && s.lock == Some(0) && w.Key(0) != "" && s.receipts == map[] && s.inflight == map[w.Key(0) := 0]
    requires 1 !in s.callers
    ensures var s' := Step(w, s, Fail(0));
            && At(s', 0) == Done(Raised) && At(s', 1) == Idle && s'.lock == None && s'.receipts == map[] && s'.inflight == map[]
            && s'.doc == s.doc && s'.turns == s.turns
  {
    hide Out;
  }

  /** Caller `c` finds its key free, takes the lock and reads the scene. */
  lemma OwnerReads(w: World, s: State, c: Caller, rest: seq<Event>)
    requires FreeFor(w, s, c)
    ensures Run(w, s, [Start(c), Acquire(c), ReadBefore(c)] + rest) == Run(w, Reading(w, s, c), rest)
  {
    hide Run, Step;
    ToTheLock(w, s, c);
    var s1 := Step(w, s, Start(c));
    var s2 := Step(w, s1, Acquire(c));
    ReadStep(w, s2, c);
    assert s2.callers[c := Executing] == s.callers[c := Executing];
    RunOne(w, s, Start(c), [Acquire(c)] + ([ReadBefore(c)] + rest));
    RunOne(w, s1, Acquire(c), [ReadBefore(c)] + rest);
    RunOne(w, s2, ReadBefore(c), rest);
    assert [Start(c)] + ([Acquire(c)] + ([ReadBefore(c)] + rest)) == [Start(c), Acquire(c), ReadBefore(c)] + rest;
  }

  lemma ReadStep(w: World, s: State, c: Caller)
    requires At(s, c) == Locked && w.requests(c).expected == None
    ensures Step(w, s, ReadBefore(c)) == s.(callers := s.callers[c := Executing], turns := s.turns + [NewTurn(c, s.doc)])
  {
    hide Settle;
  }

  /** The state once `c` has taken the lock and read the scene. */
  function Reading(w: World, s: State, c: Caller): State {
    s.(callers := s.callers[c := Executing], inflight := s.inflight[w.Key(c) := c], futures := s.futures[c := Pending], lock := Some(c),
       turns := s.turns + [NewTurn(c, s.doc)])
  }

  /** The receipt that compares the document `before` with what the commands of `c` make of the document `found`. */
  function SpanningReceipt(w: World, c: Caller, before: Document, found: Document): R.Receipt {
    R.ReceiptOf(w.Commands(c), w.Ending(c, found), w.scene(before), w.scene(w.Ending(c, found).s.doc))
  }

  /** Caller 0 is cancelled while its first command is out; the command takes effect all the same, in the middle of caller
      1's turn, and caller 1's receipt shows it as its own. */
  lemma StrayCommandIsClaimed(w: World, stray: Stray) returns (schedule: seq<Event>)
    requires FreeFor(w, Initial(w), 0) && FreeFor(w, Initial(w), 1) && w.Key(0) != w.Key(1)
    requires stray in Out(w, 0, Going(Plugin.Begin(w.start), 0))
    ensures At(After(w, schedule), 1)
         == Done(Own(Receipt(1, w.Fingerprint(1), Executed(SpanningReceipt(w, 1, w.start, Landed(w, w.start, stray))))))
  {
    hide Run, Step, Out, SpanningReceipt, Landed, Settle;
    var given := [Start(0), Acquire(0), ReadBefore(0)] + ([Fail(0)] + ([Start(1), Acquire(1), ReadBefore(1)] + []));
    OwnerReads(w, Initial(w), 0, [Fail(0)] + ([Start(1), Acquire(1), ReadBefore(1)] + []));
    var reading := Reading(w, Initial(w), 0);
    RunOne(w, reading, Fail(0), [Start(1), Acquire(1), ReadBefore(1)] + []);
    var failed := Step(w, reading, Fail(0));
    FailWhileOut(w, reading, stray);
    OwnerReads(w, failed, 1, []);
    var second := Reading(w, failed, 1);
    RunNone(w, second);
    var landed := Step(w, second, Lands(1, stray));
    LandsInTurn(w, second, stray);
    RunEvent(w, second, Lands(1, stray));
    var sends, strays := SendLoop(w, landed, 1);
    RunConcat(w, landed, sends, [Finish(1)]);
    RunConcat(w, second, [Lands(1, stray)], sends + [Finish(1)]);
    RunConcat(w, Initial(w), given, [Lands(1, stray)] + (sends + [Finish(1)]));
    schedule := given + ([Lands(1, stray)] + (sends + [Finish(1)]));
    var ended := Run(w, landed, sends);
    RunEvent(w, ended, Finish(1));
    FinishSpans(w, landed, ended, Landed(w, w.start, stray));
  }

  lemma FailWhileOut(w: World, s: State, stray: Stray)
    requires At(s, 0) == Executing && HasTurn(s, 0) && s.lock == Some(0) && w.Key(0) != "" && s.receipts == map[] && s.inflight == map[w.Key(0) := 0]
    requires 1 !in s.callers && stray in Out(w, 0, LastTurn(s).progress)
    ensures var s' := Step(w, s, Fail(0));
            && At(s', 1) == Idle && s'.lock == None && s'.receipts == map[] && s'.inflight == map[] && s'.doc == s.doc && stray in s'.strays
  {
    hide Out;
  }

  lemma LandsInTurn(w: World, s: State, stray: Stray)
    requires s.turns != [] && LastTurn(s) == NewTurn(1, s.doc) && At(s, 1) == Executing && stray in s.strays
    ensures var s' := Step(w, s, Lands(1, stray));
            && At(s', 1) == Executing && s'.turns != [] && s'.receipts == s.receipts
            && LastTurn(s') == Turn(1, s.doc, Going(Plugin.Begin(Landed(w, s.doc, stray)), 0), Landed(w, s.doc, stray), false)
  {
    hide Landed;
  }

  lemma FinishSpans(w: World, s: State, ended: State, found: Document)
    requires At(s, 1) == Executing && s.turns != [] && LastTurn(s) == Turn(1, w.start, Going(Plugin.Begin(found), 0), found, false)
    requires ended == Progressed(s, Ended(w.Ending(1, found))).(strays := ended.strays)
    ensures At(Step(w, ended, Finish(1)), 1)
         == Done(Own(Receipt(1, w.Fingerprint(1), Executed(SpanningReceipt(w, 1, w.start, found)))))
  {
    hide R.SendAll, R.ReceiptOf;
  }
}
