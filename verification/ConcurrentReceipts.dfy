/** Receipt truth under every schedule: what one caller's receipt says about a document that other callers write to too. */
module ConcurrentReceipts {
  import opened Wrappers
  import opened Operations
  import opened Normalization
  import opened Mapping
  import opened Host
  import Plugin
  import Script
  import opened Agreement
  import opened BatchAgreement
  import opened AliasSafety
  import R = Receipts
  import opened ReceiptTruth
  import S = ReceiptStatus
  import opened RhinoProtocol
  import opened RhinoProtocolProofs

  /** Scene reads show the whole document. */
  ghost predicate CompleteReads(w: World, hash: R.Hash) {
    forall d :: w.scene(d) == R.SceneOf(hash, d)
  }

  // ---------------------------------------------------------------- the document over a schedule

  /** Every document that a turn found or left is valid, and no later one holds a new object but under a newly supplied id. */
  ghost predicate DocsOk(w: World, turns: seq<Turn>) {
    && (forall i :: 0 <= i <= |turns| ==> ValidDocument(w.kernel, DocBefore(w, turns, i)))
    && (forall i, j :: 0 <= i <= j <= |turns| ==> OnlyFresh(w.kernel, DocBefore(w, turns, i), DocBefore(w, turns, j)))
    && AllBetween(w, turns)
  }

  ghost predicate AllBetween(w: World, turns: seq<Turn>) {
    forall i :: 0 <= i < |turns| ==> Between(w, DocBefore(w, turns, i), turns[i])
  }

  /** The document at the end of the turn comes between the one it found and the one the next turn will find. */
  ghost predicate Between(w: World, before: Document, turn: Turn) {
    var end := DocOf(turn.progress);
    ValidDocument(w.kernel, end) && OnlyFresh(w.kernel, before, end) && OnlyFresh(w.kernel, end, turn.left)
  }

  lemma NextKeeps(w: World, c: Caller, p: Progress)
    requires ValidKernel(w.kernel) && ValidDocument(w.kernel, DocOf(p))
    ensures ValidDocument(w.kernel, DocOf(Next(w, c, p))) && OnlyFresh(w.kernel, DocOf(p), DocOf(Next(w, c, p)))
  {
    hide ValidKernel, ValidDocument, OnlyFresh, R.SendOne;
    OnlyFreshSame(w.kernel, DocOf(p));
    if p.Going? && p.at < |w.Commands(c)| {
      SendKeeps(w.kernel, p.s, w.Commands(c)[p.at], w.fates(c)(p.at));
    }
  }

  lemma SendKeeps(k: Kernel, s: Plugin.RunState, c: Command, fate: R.Fate)
    requires ValidKernel(k) && ValidDocument(k, s.doc)
    ensures ValidDocument(k, R.SendOne(k, s, c, fate).s.doc) && OnlyFresh(k, s.doc, R.SendOne(k, s, c, fate).s.doc)
  {
    hide ValidKernel, ValidDocument, OnlyFresh, Plugin.PluginCall, Plugin.ResolveParams, Plugin.ExtractIds;
    OnlyFreshSame(k, s.doc);
    if Plugin.ResolveParams(c.params, s.aliases).Ok? {
      PluginKeeps(k, s.doc, c.name, Plugin.ResolveParams(c.params, s.aliases).value);
    }
  }

  lemma LandedKeeps(w: World, doc: Document, stray: Stray)
    requires ValidKernel(w.kernel) && ValidDocument(w.kernel, doc)
    ensures ValidDocument(w.kernel, Landed(w, doc, stray)) && OnlyFresh(w.kernel, doc, Landed(w, doc, stray))
  {
    hide ValidKernel, ValidDocument, OnlyFresh, Plugin.PluginCall;
    OnlyFreshSame(w.kernel, doc);
    PluginKeeps(w.kernel, doc, stray.name, stray.params);
  }

  /** A new turn begins where the last one ended. */
  lemma NewTurnKeepsDocs(w: World, turns: seq<Turn>, c: Caller, doc: Document)
    requires DocsOk(w, turns) && doc == DocBefore(w, turns, |turns|)
    ensures DocsOk(w, turns + [NewTurn(c, doc)])
  {
    hide ValidDocument, OnlyFresh;
    var turns' := turns + [NewTurn(c, doc)];
    OnlyFreshSame(w.kernel, doc);
    assert forall i :: 0 <= i <= |turns| ==> DocBefore(w, turns', i) == DocBefore(w, turns, i);
    assert DocBefore(w, turns', |turns| + 1) == doc;
    assert forall i :: 0 <= i < |turns| ==> turns'[i] == turns[i];
  }

  /** The last turn's document moves on. */
  lemma LatestKeepsDocs(w: World, turns: seq<Turn>, turn: Turn)
    requires turns != [] && DocsOk(w, turns) && ValidDocument(w.kernel, turn.left)
    requires OnlyFresh(w.kernel, DocBefore(w, turns, |turns|), turn.left)
    requires Between(w, DocBefore(w, turns, |turns| - 1), turn)
    ensures DocsOk(w, turns[|turns| - 1 := turn])
  {
    hide ValidDocument, OnlyFresh, AllBetween, DocBefore;
    var n, turns' := |turns|, turns[|turns| - 1 := turn];
    LatestDocs(w, turns, turn);
    LatestBetween(w, turns, turn);
    forall i, j | 0 <= i <= j <= n ensures OnlyFresh(w.kernel, DocBefore(w, turns', i), DocBefore(w, turns', j)) {
      if j == n { LatestIsFresh(w, turns, turn, i); }
    }
  }

  lemma LatestDocs(w: World, turns: seq<Turn>, turn: Turn)
    requires turns != []
    ensures var turns' := turns[|turns| - 1 := turn];
            DocBefore(w, turns', |turns|) == turn.left && forall i :: 0 <= i < |turns| ==> DocBefore(w, turns', i) == DocBefore(w, turns, i)
  {}

  lemma LatestBetween(w: World, turns: seq<Turn>, turn: Turn)
    requires turns != [] && AllBetween(w, turns) && Between(w, DocBefore(w, turns, |turns| - 1), turn)
    ensures AllBetween(w, turns[|turns| - 1 := turn])
  {
    hide Between, DocBefore;
    LatestDocs(w, turns, turn);
    var turns' := turns[|turns| - 1 := turn];
    forall i | 0 <= i < |turns'| ensures Between(w, DocBefore(w, turns', i), turns'[i]) {
      if i < |turns| - 1 { assert turns'[i] == turns[i]; }
    }
  }

  lemma LatestIsFresh(w: World, turns: seq<Turn>, turn: Turn, i: nat)
    requires turns != [] && DocsOk(w, turns) && OnlyFresh(w.kernel, DocBefore(w, turns, |turns|), turn.left) && i <= |turns|
    ensures OnlyFresh(w.kernel, if i == |turns| then turn.left else DocBefore(w, turns, i), turn.left)
  {
    hide ValidDocument, OnlyFresh, Between;
    if i == |turns| { OnlyFreshSame(w.kernel, turn.left); }
    else { OnlyFreshTransitive(w.kernel, DocBefore(w, turns, i), DocBefore(w, turns, |turns|), turn.left); }
  }

  lemma StepKeepsDocs(w: World, s: State, e: Event)
    requires ValidKernel(w.kernel) && Inv(w, s) && DocsOk(w, s.turns)
    ensures DocsOk(w, Step(w, s, e).turns)
  {
    hide ValidKernel, DocsOk, Next, R.ReceiptOf, Settle, Abandon, RhinoProtocol.Begin, DocBefore, Inv, Land, Progressed, Unanswered;
    var c := e.c;
    match e
    case Start(_) => BeginIsQuiet(w, s, c);
    case Refuse(_) => SettleIsQuiet(w, s, c, Incompatible);
    case ReadBefore(_) =>
      SettleIsQuiet(w, s, c, Stale);
      PresentIsLast(w, s);
      NewTurnKeepsDocs(w, s.turns, c, s.doc);
    case Send(_) => if At(s, c) == Executing && HasTurn(s, c) { SendKeepsDocs(w, s, c); }
    case Finish(_) =>
      if HasTurn(s, c) && LastTurn(s).progress.Ended? && LastTurn(s).progress.ending.at <= |w.Commands(c)| {
        var turn := LastTurn(s);
        SettleIsQuiet(w, s, c, Executed(R.ReceiptOf(w.Commands(c), turn.progress.ending, w.scene(turn.before), w.scene(s.doc))));
      }
    case Fail(_) => AbandonIsQuiet(w, s, c);
    case Lands(_, stray) => if stray in s.strays && s.turns != [] { LandKeepsDocs(w, s, stray); }
    case _ =>
  }

  lemma PresentIsLast(w: World, s: State)
    requires Inv(w, s)
    ensures s.doc == DocBefore(w, s.turns, |s.turns|)
  {
    InvSerial(w, s);
  }

  /** The last turn of a valid history. */
  lemma LastFacts(w: World, turns: seq<Turn>)
    requires turns != [] && DocsOk(w, turns)
    ensures var last := turns[|turns| - 1];
            && last.left == DocBefore(w, turns, |turns|) && ValidDocument(w.kernel, last.left)
            && Between(w, DocBefore(w, turns, |turns| - 1), last)
  {
    hide ValidDocument, OnlyFresh, Between;
  }

  /** A turn whose document moves on, during the turn or after it. */
  lemma MovesOn(w: World, before: Document, turn: Turn, turn': Turn)
    requires Between(w, before, turn) && ValidDocument(w.kernel, turn'.left) && OnlyFresh(w.kernel, turn.left, turn'.left)
    requires DocOf(turn'.progress) == turn'.left || turn'.progress == turn.progress
    ensures Between(w, before, turn')
  {
    hide ValidDocument, OnlyFresh;
    OnlyFreshTransitive(w.kernel, before, DocOf(turn.progress), turn.left);
    OnlyFreshTransitive(w.kernel, before, turn.left, turn'.left);
    OnlyFreshTransitive(w.kernel, DocOf(turn.progress), turn.left, turn'.left);
    OnlyFreshSame(w.kernel, turn'.left);
  }

  lemma SendKeepsDocs(w: World, s: State, c: Caller)
    requires ValidKernel(w.kernel) && Inv(w, s) && DocsOk(w, s.turns) && At(s, c) == Executing && HasTurn(s, c)
    ensures DocsOk(w, Progressed(s, Next(w, c, LastTurn(s).progress)).turns)
  {
    hide ValidKernel, ValidDocument, OnlyFresh, Next, Inv, DocsOk, DocBefore, Between;
    var last, p := LastTurn(s), Next(w, c, LastTurn(s).progress);
    LastFacts(w, s.turns);
    HolderLeft(w, s, c);
    NextKeeps(w, c, last.progress);
    MovesOn(w, DocBefore(w, s.turns, |s.turns| - 1), last, last.(progress := p, left := DocOf(p)));
    LatestKeepsDocs(w, s.turns, last.(progress := p, left := DocOf(p)));
  }

  /** While the holder is at the document, what it left is what its loop shows. */
  lemma HolderLeft(w: World, s: State, c: Caller)
    requires Inv(w, s) && At(s, c) == Executing
    ensures s.turns != [] && LastTurn(s).left == DocOf(LastTurn(s).progress)
  {
    InvCaller(w, s, c);
  }

  lemma LandKeepsDocs(w: World, s: State, stray: Stray)
    requires ValidKernel(w.kernel) && Inv(w, s) && DocsOk(w, s.turns) && s.turns != []
    ensures DocsOk(w, Land(w, s, stray).turns)
  {
    hide ValidKernel, ValidDocument, OnlyFresh, Inv, DocsOk, DocBefore, Between, Landed;
    var last, doc := LastTurn(s), Landed(w, s.doc, stray);
    LastFacts(w, s.turns);
    PresentIsLast(w, s);
    LandedKeeps(w, s.doc, stray);
    var turn := if At(s, last.c) == Executing then last.(progress := WithDoc(last.progress, doc), left := doc, clean := false)
                else last.(left := doc);
    MovesOn(w, DocBefore(w, s.turns, |s.turns| - 1), last, turn);
    LatestKeepsDocs(w, s.turns, turn);
  }

  lemma {:induction false} RunKeepsDocs(w: World, s: State, schedule: seq<Event>)
    requires ValidKernel(w.kernel) && Inv(w, s) && LogOk(w, s) && DocsOk(w, s.turns)
    ensures DocsOk(w, Run(w, s, schedule).turns)
    decreases |schedule|
  {
    hide ValidKernel, Inv, LogOk, DocsOk, Step;
    if schedule != [] {
      StepKeepsDocs(w, s, schedule[0]);
      StepKeepsInv(w, s, schedule[0]);
      StepKeepsLog(w, s, schedule[0]);
      RunKeepsDocs(w, Step(w, s, schedule[0]), schedule[1..]);
    }
  }

  /** On every schedule the documents between the turns stay valid, and ids are never used again. */
  lemma DocsAfter(w: World, schedule: seq<Event>)
    requires ValidKernel(w.kernel) && ValidDocument(w.kernel, w.start)
    ensures DocsOk(w, After(w, schedule).turns)
  {
    hide Run, Inv, LogOk;
    InitialInv(w);
    OnlyFreshSame(w.kernel, w.start);
    RunKeepsDocs(w, Initial(w), schedule);
  }

  // ---------------------------------------------------------------- one caller's receipt

  /** `c` had the i-th turn and returned the receipt `r` of an execution. */
  ghost predicate ReturnedFor(w: World, s: State, c: Caller, i: nat, r: R.Receipt) {
    && OnlyTurn(s, c, i)
    && At(s, c).Done? && At(s, c).answer.Own? && At(s, c).answer.receipt.report == Executed(r)
  }

  /** The document found by the i-th turn, and the document at its end. */
  function Before(w: World, s: State, i: nat): Document
    requires i < |s.turns|
  {
    DocBefore(w, s.turns, i)
  }

  function End(s: State, i: nat): Document
    requires i < |s.turns|
  {
    DocOf(s.turns[i].progress)
  }

  /** Every returned execution belongs to one turn. */
  lemma ReturnedHasTurn(w: World, schedule: seq<Event>, c: Caller)
    requires Returned(After(w, schedule), c) && At(After(w, schedule), c).answer.receipt.report.Executed?
    ensures exists i: nat :: ReturnedFor(w, After(w, schedule), c, i, At(After(w, schedule), c).answer.receipt.report.receipt)
  {
    hide Run, World.ReceiptOf, World.Ending, Reports;
    ReceiptIsOwnEffect(w, schedule, c);
    var s := After(w, schedule);
    var i: nat :| OnlyTurn(s, c, i) && Reports(w, s.turns[i], At(s, c).answer.receipt.report.receipt);
    assert ReturnedFor(w, s, c, i, At(s, c).answer.receipt.report.receipt);
  }

  lemma ReturnedTurn(w: World, schedule: seq<Event>, c: Caller, i: nat, r: R.Receipt)
    requires ReturnedFor(w, After(w, schedule), c, i, r)
    ensures i < |After(w, schedule).turns|
    ensures var s := After(w, schedule);
            && Reports(w, s.turns[i], r) && s.turns[i].before == Before(w, s, i)
            && (s.turns[i].clean ==> r == w.ReceiptOf(c, Before(w, s, i)) && End(s, i) == w.Ending(c, Before(w, s, i)).s.doc)
  {
    hide Run, World.ReceiptOf, World.Ending, Reports;
    ReceiptIsOwnEffect(w, schedule, c);
  }

  lemma ScenesGiveDelta(commands: seq<Command>, ending: R.Ending, before: R.Scene, after: R.Scene)
    requires ending.at <= |commands|
    ensures var r := R.ReceiptOf(commands, ending, before, after);
            r.created == R.Created(before, after) && r.deleted == R.Deleted(before, after) && r.modified == R.Modified(before, after)
  {}

  /** Under every schedule a returned receipt's created, deleted and modified ids are exactly the difference between the
      document its turn found and the document at the turn's end. If no stray command took effect in the turn, it is the
      receipt of the caller's own batch executed alone on the document the turn found: no other caller's write is in it. */
  lemma ConcurrentReceiptIsTrue(w: World, hash: R.Hash, schedule: seq<Event>, c: Caller, i: nat, r: R.Receipt)
    requires CompleteReads(w, hash) && R.Injective(hash) && ReturnedFor(w, After(w, schedule), c, i, r)
    ensures var s := After(w, schedule); var before, after := Before(w, s, i).objects, End(s, i).objects;
            && r.created == after.Keys - before.Keys && r.deleted == before.Keys - after.Keys
            && r.modified == (set id | id in before && id in after && before[id] != after[id])
            && (s.turns[i].clean ==> r == ReceiptFor(w.kernel, hash, w.Commands(c), Before(w, s, i), w.fates(c)))
  {
    hide Run, R.Injective, R.SendAll, R.ReceiptOf, ReturnedFor, R.Created, R.Deleted, R.Modified, R.SceneOf;
    var s := After(w, schedule);
    ReturnedTurn(w, schedule, c, i, r);
    var turn := s.turns[i];
    ScenesGiveDelta(w.Commands(turn.c), turn.progress.ending, w.scene(turn.before), w.scene(End(s, i)));
    DeltaIsTrue(hash, Before(w, s, i), End(s, i));
  }

  /** Where no stray command took effect at all, that holds of every returned receipt. */
  lemma QuietReceiptsAreOwn(w: World, hash: R.Hash, schedule: seq<Event>, c: Caller, i: nat, r: R.Receipt)
    requires CompleteReads(w, hash) && R.Injective(hash) && ReturnedFor(w, After(w, schedule), c, i, r)
    requires forall e :: e in schedule ==> !e.Lands?
    ensures r == ReceiptFor(w.kernel, hash, w.Commands(c), Before(w, After(w, schedule), i), w.fates(c))
  {
    hide Run, R.Injective, ReturnedFor, ReceiptFor, CompleteReads;
    ConcurrentReceiptIsTrue(w, hash, schedule, c, i, r);
    ReturnedTurn(w, schedule, c, i, r);
    OnlyLandingsDirty(w, Initial(w), schedule);
  }

  /** A completed receipt keeps its meaning under every schedule: its batch ran once in order from the document its turn
      found, and at the turn's end every bound id exists, every edit shows and everything deleted is gone. */
  lemma ConcurrentCompletedMeans(w: World, hash: R.Hash, schedule: seq<Event>, c: Caller, i: nat, r: R.Receipt)
    requires CompleteReads(w, hash) && R.Injective(hash) && ReturnedFor(w, After(w, schedule), c, i, r)
    requires ValidKernel(w.kernel) && ValidDocument(w.kernel, w.start) && After(w, schedule).turns[i].clean
    ensures var s := After(w, schedule); var before, after := Before(w, s, i), End(s, i);
            r.status == R.Completed ==>
              && Plugin.Run(w.kernel, w.Commands(c), Plugin.Begin(before)) == Ok(w.Ending(c, before).s)
              && w.Ending(c, before).s.doc == after && SentInOrder(w.kernel, w.Commands(c), before, r.sent)
              && BoundExist(r.outputs, after) && EditsShow(w.kernel, r.sent, before, after) && DeletesHold(w.kernel, r.sent, after)
  {
    hide Run, Plugin.Run, R.Injective, R.SendAll, ReturnedFor, ValidKernel, ValidDocument, SentInOrder, BoundExist, EditsShow,
         DeletesHold, CompleteReads, World.ReceiptOf, World.Ending, ReceiptFor, Reports;
    var s := After(w, schedule);
    ReturnedTurn(w, schedule, c, i, r);
    DocsAfter(w, schedule);
    var before := Before(w, s, i);
    IsReceiptFor(w, hash, c, before);
    CompletedMeans(w.kernel, hash, w.Commands(c), before, w.fates(c));
  }

  /** Every status keeps its meaning under every schedule: in a clean turn the receipt accounts for the caller's batch as
      executed alone from the document the turn found to the one at the turn's end. */
  lemma ConcurrentStatusMeans(w: World, hash: R.Hash, schedule: seq<Event>, c: Caller, i: nat, r: R.Receipt) returns (at: nat)
    requires CompleteReads(w, hash) && R.Injective(hash) && ReturnedFor(w, After(w, schedule), c, i, r)
    requires ValidKernel(w.kernel) && ValidDocument(w.kernel, w.start) && After(w, schedule).turns[i].clean
    ensures S.StopsAfter(w.kernel, w.Commands(c), Before(w, After(w, schedule), i), w.fates(c), at)
    ensures var s := After(w, schedule); S.Accounts(w.kernel, w.Commands(c), Before(w, s, i), w.fates(c), at, End(s, i), r)
  {
    hide Run, Plugin.Run, R.Injective, R.SendAll, ReturnedFor, ValidKernel, ValidDocument, CompleteReads, World.ReceiptOf,
         World.Ending, ReceiptFor, Reports, S.Accounts;
    var s := After(w, schedule);
    ReturnedTurn(w, schedule, c, i, r);
    DocsAfter(w, schedule);
    IsReceiptFor(w, hash, c, Before(w, s, i));
    at := S.StatusMeans(w.kernel, hash, w.Commands(c), Before(w, s, i), w.fates(c));
  }

  lemma IsReceiptFor(w: World, hash: R.Hash, c: Caller, before: Document)
    requires CompleteReads(w, hash)
    ensures w.ReceiptOf(c, before) == ReceiptFor(w.kernel, hash, w.Commands(c), before, w.fates(c))
    ensures w.Ending(c, before) == R.SendAll(w.kernel, w.Commands(c), Plugin.Begin(before), w.fates(c), 0)
  {
    hide R.SendAll, R.ReceiptOf;
  }

  /** A completed receipt's turn ended with the document that the reference script would have made of the one it found. */
  lemma ConcurrentMatchesScript(w: World, hash: R.Hash, schedule: seq<Event>, c: Caller, i: nat, r: R.Receipt, rules: TextRules, ops: seq<Op>)
    requires CompleteReads(w, hash) && R.Injective(hash) && ReturnedFor(w, After(w, schedule), c, i, r)
    requires ValidKernel(w.kernel) && ValidDocument(w.kernel, w.start) && After(w, schedule).turns[i].clean
    requires BatchOk(rules, ops) && AllCompilable(ops) && BatchFresh(w.kernel, ops, w.start.next) && Compile(ops) == Ok(w.Commands(c))
    ensures var s := After(w, schedule); var script := Script.Interpret(w.kernel, ops, Script.Start(Before(w, s, i)));
            r.status == R.Completed ==> script.Ok? && script.value.doc == End(s, i)
  {
    hide Run, R.Injective, R.SendAll, ReturnedFor, ValidKernel, ValidDocument, CompleteReads, World.ReceiptOf, World.Ending, ReceiptFor,
         BatchOk, AllCompilable, BatchFresh, Compile, Script.Interpret, OnlyFresh, Reports;
    var s := After(w, schedule);
    ReturnedTurn(w, schedule, c, i, r);
    DocsAfter(w, schedule);
    var before := Before(w, s, i);
    IsReceiptFor(w, hash, c, before);
    assert OnlyFresh(w.kernel, DocBefore(w, s.turns, 0), before);
    StaysFresh(w.kernel, ops, w.start, before);
    CompletedMatchesScript(w.kernel, rules, hash, ops, before, w.fates(c));
  }

  lemma StaysFresh(k: Kernel, ops: seq<Op>, before: Document, after: Document)
    requires BatchFresh(k, ops, before.next) && OnlyFresh(k, before, after)
    ensures BatchFresh(k, ops, after.next)
  {
    hide PlainText, LiteralsUnsupplied;
    forall i | 0 <= i < |ops| ensures PlainText(ops[i]) && LiteralsUnsupplied(k, ops[i], after.next) {
      UnsuppliedLater(k, ops[i], before.next, after.next);
    }
  }

  // ---------------------------------------------------------------- two callers' receipts

  /** An object that has left the document never comes back. */
  lemma GoneStaysGone(k: Kernel, first: Document, gone: Document, later: Document, id: string)
    requires ValidDocument(k, first) && OnlyFresh(k, first, gone) && OnlyFresh(k, gone, later)
    requires id in first.objects && id !in gone.objects
    ensures id !in later.objects
  {
    assert Unsupplied(k, id, gone.next);
  }

  /** The documents of two turns, the later after the earlier. */
  lemma TurnDocs(w: World, schedule: seq<Event>, i: nat, j: nat)
    requires ValidKernel(w.kernel) && ValidDocument(w.kernel, w.start) && i < j < |After(w, schedule).turns|
    ensures var s, k := After(w, schedule), w.kernel;
            && ValidDocument(k, Before(w, s, i)) && ValidDocument(k, End(s, i)) && OnlyFresh(k, Before(w, s, i), End(s, i))
            && OnlyFresh(k, End(s, i), Before(w, s, j)) && OnlyFresh(k, Before(w, s, j), End(s, j)) && OnlyFresh(k, End(s, i), End(s, j))
  {
    hide Run, ValidKernel, ValidDocument, OnlyFresh;
    DocsAfter(w, schedule);
    var turns := After(w, schedule).turns;
    assert Between(w, DocBefore(w, turns, i), turns[i]) && Between(w, DocBefore(w, turns, j), turns[j]);
    assert turns[i].left == DocBefore(w, turns, i + 1);
    OnlyFreshTransitive(w.kernel, DocOf(turns[i].progress), DocBefore(w, turns, i + 1), DocBefore(w, turns, j));
    OnlyFreshTransitive(w.kernel, DocOf(turns[i].progress), DocBefore(w, turns, j), DocOf(turns[j].progress));
  }

  /** Receipts of different callers never claim the same creation, nor the same deletion, and what one deleted a later one
      neither creates nor modifies; stray commands make no difference to that. */
  lemma ReceiptsAreDisjoint(w: World, hash: R.Hash, schedule: seq<Event>, c: Caller, i: nat, r: R.Receipt, d: Caller, j: nat, q: R.Receipt)
    requires CompleteReads(w, hash) && R.Injective(hash) && ValidKernel(w.kernel) && ValidDocument(w.kernel, w.start)
    requires ReturnedFor(w, After(w, schedule), c, i, r) && ReturnedFor(w, After(w, schedule), d, j, q) && i < j
    ensures r.created !! q.created && r.deleted !! q.deleted && r.deleted !! q.created && r.deleted !! q.modified
  {
    hide Run, R.Injective, ValidKernel, ValidDocument, CompleteReads, DocBefore, ReceiptFor, OnlyFresh, DocOf;
    ConcurrentReceiptIsTrue(w, hash, schedule, c, i, r);
    ConcurrentReceiptIsTrue(w, hash, schedule, d, j, q);
    ReturnedTurn(w, schedule, d, j, q);
    TurnDocs(w, schedule, i, j);
    var s, k := After(w, schedule), w.kernel;
    forall id ensures !(id in r.created && id in q.created) && !(id in r.deleted && (id in q.deleted || id in q.created || id in q.modified)) {
      if id in r.created && id !in Before(w, s, j).objects { GoneStaysGone(k, End(s, i), Before(w, s, j), End(s, j), id); }
      if id in r.deleted {
        GoneStaysGone(k, Before(w, s, i), End(s, i), Before(w, s, j), id);
        GoneStaysGone(k, Before(w, s, i), End(s, i), End(s, j), id);
      }
    }
  }
}
