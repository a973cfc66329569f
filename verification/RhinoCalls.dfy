/**
 The keyed Rhino gateway object over the section it runs under the write lock: one uninterrupted call is a run of the
 protocol, with the real document, the real commands and the receipt of `Gateway.ExecuteLocked`.
 */
module RhinoCalls {
  import opened Wrappers
  import opened Host
  import opened RhinoProtocol
  import opened RhinoProtocolProofs
  import G = Gateway
  import R = Receipts
  import Pagination

  /** Whether an execution gets as far as sending. */
  predicate Reaches(w: World, s: State, c: Caller, conditions: G.Conditions) {
    var expected := w.requests(c).expected;
    && conditions.capabilities && conditions.compatible && conditions.beforeRead
    && (expected.Some? ==> expected.value == w.revision(w.scene(s.doc)))
  }

  /** The finished turn of an execution that gets there. */
  function Whole(w: World, c: Caller, doc: Document): Turn {
    NewTurn(c, doc).(progress := Ended(w.Ending(c, doc)), left := w.Ending(c, doc).s.doc)
  }

  function Sent(w: World, s: State, c: Caller, strays: set<Stray>): State {
    s.(callers := s.callers[c := Executing], doc := w.Ending(c, s.doc).s.doc, turns := s.turns + [Whole(w, c, s.doc)], strays := strays)
  }

  /** How the section under the lock ends; `strays` are the commands that are out by then. */
  function LockedEnd(w: World, s: State, c: Caller, conditions: G.Conditions, strays: set<Stray>): State {
    if Reaches(w, s, c, conditions) then
      var sent := Sent(w, s, c, strays);
      if conditions.afterRead then Settle(w, sent, c, Executed(w.ReceiptOf(c, s.doc))) else Abandon(w, sent, c)
    else if !conditions.capabilities || (conditions.compatible && !conditions.beforeRead) then Abandon(w, s, c)
    else Settle(w, s, c, if conditions.compatible then Stale else Incompatible)
  }

  /** Where a caller stood before its end does not show in it. */
  lemma EndOverwrites(w: World, s: State, c: Caller, pc: Pc, report: Report)
    ensures RhinoProtocol.Settle(w, Move(s, c, pc), c, report) == RhinoProtocol.Settle(w, s, c, report)
    ensures RhinoProtocol.Abandon(w, Move(s, c, pc), c) == RhinoProtocol.Abandon(w, s, c)
  {
    var own := Done(Own(Receipt(c, w.Fingerprint(c), report)));
    assert s.callers[c := pc][c := own] == s.callers[c := own];
    assert s.callers[c := pc][c := Done(Raised)] == s.callers[c := Done(Raised)];
  }

  lemma LockedRun(w: World, s: State, c: Caller, conditions: G.Conditions) returns (events: seq<Event>, strays: set<Stray>)
    requires At(s, c) == Locked
    ensures Run(w, s, events) == LockedEnd(w, s, c, conditions, strays)
    ensures !Reaches(w, s, c, conditions) ==> strays == s.strays
  {
    hide Run, Settle, Abandon, R.SendAll, R.ReceiptOf;
    strays := s.strays;
    if Reaches(w, s, c, conditions) {
      events, strays := SentRun(w, s, c);
      var last := if conditions.afterRead then Finish(c) else Fail(c);
      EndStep(w, s, c, strays);
      RunEvent(w, Sent(w, s, c, strays), last);
      RunConcat(w, s, events, [last]);
      events := events + [last];
    } else {
      events := [if !conditions.capabilities || (conditions.compatible && !conditions.beforeRead) then Fail(c)
                 else if conditions.compatible then ReadBefore(c) else Refuse(c)];
      RunEvent(w, s, events[0]);
    }
  }

  /** The last event of an execution that has sent its commands. */
  lemma EndStep(w: World, s: State, c: Caller, strays: set<Stray>)
    ensures Step(w, Sent(w, s, c, strays), Finish(c)) == Settle(w, Sent(w, s, c, strays), c, Executed(w.ReceiptOf(c, s.doc)))
    ensures Step(w, Sent(w, s, c, strays), Fail(c)) == Abandon(w, Sent(w, s, c, strays), c)
  {
    hide Settle, R.SendAll, R.ReceiptOf;
    assert LastTurn(Sent(w, s, c, strays)) == Whole(w, c, s.doc);
    assert Abandon(w, Sent(w, s, c, strays), c).strays + {} == strays;
  }

  lemma SentRun(w: World, s: State, c: Caller) returns (events: seq<Event>, strays: set<Stray>)
    requires At(s, c) == Locked
    requires var expected := w.requests(c).expected; expected.Some? ==> expected.value == w.revision(w.scene(s.doc))
    ensures Run(w, s, events) == Sent(w, s, c, strays)
  {
    hide Run, Settle, R.SendAll;
    var reading := Step(w, s, ReadBefore(c));
    RunEvent(w, s, ReadBefore(c));
    var sends;
    sends, strays := SendLoop(w, reading, c);
    events := [ReadBefore(c)] + sends;
    RunConcat(w, s, [ReadBefore(c)], sends);
    assert (s.turns + [NewTurn(c, s.doc)])[|s.turns| := Whole(w, c, s.doc)] == s.turns + [Whole(w, c, s.doc)];
  }

  /** `execute_operations`: receipts, in-flight futures and the write lock around the locked section of `inner`. */
  class KeyedGateway {
    const inner: G.RhinoMCPGateway
    const world: World
    const conditions: Caller -> G.Conditions
    var callers: map<Caller, Pc>
    var receipts: map<string, Receipt>
    var inflight: map<string, Caller>
    var futures: map<Caller, Future>
    var lock: Option<Caller>
    ghost var turns: seq<Turn>
    ghost var strays: set<Stray>

    constructor (inner: G.RhinoMCPGateway, requests: Caller -> Request, conditions: Caller -> G.Conditions)
      ensures this.inner == inner && this.conditions == conditions && world.requests == requests && world.start == inner.plugin.doc
      ensures Matches() && View() == Initial(world)
    {
      var plugin, hash := inner.plugin, inner.hash;
      var order, cap := plugin.order, plugin.cap;
      this.inner, this.conditions := inner, conditions;
      world := World(plugin.kernel, d => G.SceneOfIds(hash, d, Pagination.Unlocked(order(d), cap)), inner.revision, requests,
                     c => conditions(c).fates, plugin.doc);
      callers, receipts, inflight, futures, lock, turns, strays := map[], map[], map[], map[], None, [], {};
    }

    /** The protocol's world is the one behind the inner gateway. */
    ghost predicate Matches() {
      && world.kernel == inner.plugin.kernel && world.revision == inner.revision
      && (forall c :: world.fates(c) == conditions(c).fates)
      && (forall d :: world.scene(d) == G.SceneOfIds(inner.hash, d, Pagination.Unlocked(inner.plugin.order(d), inner.plugin.cap)))
    }

    ghost function View(): State
      reads this, inner.plugin
    {
      State(callers, receipts, inflight, futures, lock, inner.plugin.doc, turns, strays)
    }

    /** No other caller's key is in flight. */
    ghost predicate OnlyServed(c: Caller)
      reads this
    {
      inflight == if world.Key(c) == "" then map[] else map[world.Key(c) := c]
    }

    /** The owner's receipt is stored, its future resolved, its key freed and the lock given up. */
    method Settle(c: Caller, report: Report) returns (answer: Answer)
      requires lock == None || lock == Some(c)
      modifies this
      ensures View() == RhinoProtocol.Settle(world, old(View()), c, report) && At(View(), c) == Done(answer)
      ensures lock == None && answer == Own(Receipt(c, world.Fingerprint(c), report))
      ensures world.Key(c) != "" ==> world.Key(c) in receipts && receipts[world.Key(c)] == answer.receipt
      ensures inner.plugin.doc == old(inner.plugin.doc) && turns == old(turns) && strays == old(strays)
      ensures old(inflight) == map[] || old(OnlyServed(c)) ==> inflight == map[]
    {
      var key, receipt := world.Key(c), Receipt(c, world.Fingerprint(c), report);
      answer := Own(receipt);
      callers, lock := callers[c := Done(answer)], None;
      if key != "" {
        receipts, futures, inflight := receipts[key := receipt], futures[c := Resolved(receipt)], inflight - {key};
      }
    }

    /** The owner's exception breaks its future, frees its key and gives up the lock. */
    method Abandon(c: Caller) returns (answer: Answer)
      requires lock == None || lock == Some(c)
      modifies this
      ensures View() == RhinoProtocol.Abandon(world, old(View()), c) && At(View(), c) == Done(answer)
      ensures lock == None && answer == Raised && receipts == old(receipts)
      ensures inner.plugin.doc == old(inner.plugin.doc) && turns == old(turns) && strays == old(strays)
      ensures old(inflight) == map[] || old(OnlyServed(c)) ==> inflight == map[]
    {
      answer := Raised;
      callers, lock := callers[c := Done(answer)], None;
      if world.Key(c) != "" { futures, inflight := futures[c := Broken], inflight - {world.Key(c)}; }
    }

    /** A free key is registered and the free lock taken. */
    method Enter(c: Caller) returns (ghost events: seq<Event>)
      requires At(View(), c) == Idle && lock == None && inflight == map[]
      requires world.requests(c).valid && !world.requests(c).immediate && (world.Key(c) != "" ==> world.Key(c) !in receipts)
      modifies this
      ensures View() == Run(world, old(View()), events) && At(View(), c) == Locked && lock == Some(c)
      ensures OnlyServed(c) && receipts == old(receipts) && turns == old(turns) && inner.plugin.doc == old(inner.plugin.doc)
    {
      hide Run;
      ghost var s := View();
      if world.Key(c) != "" { futures, inflight := futures[c := Pending], inflight[world.Key(c) := c]; }
      callers := callers[c := WantLock];
      ghost var wanting := View();
      lock, callers := Some(c), callers[c := Locked];
      events := [Start(c)] + [Acquire(c)];
      RunEvent(world, s, Start(c));
      RunEvent(world, wanting, Acquire(c));
      RunConcat(world, s, [Start(c)], [Acquire(c)]);
    }

    /** What an uninterrupted execution answers, and what it leaves of the document. */
    ghost predicate RanAlone(s: State, c: Caller, answer: Answer)
      reads this, inner.plugin
    {
      if Reaches(world, s, c, conditions(c)) then
        && inner.plugin.doc == world.Ending(c, s.doc).s.doc && turns == s.turns + [Whole(world, c, s.doc)]
        && answer == (if conditions(c).afterRead
                      then Own(Receipt(c, world.Fingerprint(c), Executed(world.ReceiptOf(c, s.doc)))) else Raised)
      else
        && inner.plugin.doc == s.doc && turns == s.turns
        && answer == (if !conditions(c).capabilities || (conditions(c).compatible && !conditions(c).beforeRead) then Raised
                      else Own(Receipt(c, world.Fingerprint(c), if conditions(c).compatible then Stale else Incompatible)))
    }

    /** The receipt is stored under the key exactly if there is one to store. */
    ghost predicate Kept(s: State, c: Caller, answer: Answer)
      reads this
    {
      && (answer.Own? && world.Key(c) != "" ==> world.Key(c) in receipts && receipts[world.Key(c)] == answer.receipt)
      && (answer.Raised? ==> receipts == s.receipts)
    }

    /** The inner gateway carries out the section under the lock. */
    method Carry(c: Caller) returns (outcome: G.Outcome)
      requires Matches() && inner.plugin.cap >= 1
      modifies inner`cache, inner`capacity, inner.plugin`doc
      ensures var doc := old(inner.plugin.doc); var reaches := Reaches(world, old(View()), c, conditions(c));
              && inner.plugin.doc == (if reaches then world.Ending(c, doc).s.doc else doc)
              && outcome == (if reaches then if conditions(c).afterRead then G.Done(world.ReceiptOf(c, doc)) else G.Raised
                             else if !conditions(c).capabilities || (conditions(c).compatible && !conditions(c).beforeRead) then G.Raised
                             else if conditions(c).compatible then G.Stale else G.Incompatible)
    {
      hide R.SendAll, R.ReceiptOf;
      ghost var doc := inner.plugin.doc;
      assert inner.ReadScene() == world.scene(doc);
      var request := world.requests(c);
      outcome := inner.ExecuteLocked(request.commands, request.expected, conditions(c));
      assert inner.ReadScene() == world.scene(inner.plugin.doc);
    }

    /** The section under the lock, and how the caller leaves it. */
    method Hold(c: Caller) returns (answer: Answer, ghost events: seq<Event>)
      requires Matches() && inner.plugin.cap >= 1 && At(View(), c) == Locked && lock == Some(c) && OnlyServed(c)
      modifies this, inner`cache, inner`capacity, inner.plugin`doc
      ensures View() == Run(world, old(View()), events)
      ensures At(View(), c) == Done(answer) && lock == None && inflight == map[]
      ensures RanAlone(old(View()), c, answer) && Kept(old(View()), c, answer)
    {
      hide Run, World.ReceiptOf, World.Ending, RhinoProtocol.Settle, RhinoProtocol.Abandon;
      ghost var s := View();
      events, strays := LockedRun(world, s, c, conditions(c));
      var outcome := Carry(c);
      if Reaches(world, s, c, conditions(c)) {
        turns := turns + [Whole(world, c, s.doc)];
        EndOverwrites(world, View(), c, Executing, if outcome.Done? then Executed(outcome.receipt) else Stale);
        assert Move(View(), c, Executing) == Sent(world, s, c, strays);
      }
      match outcome
      case Raised => answer := Abandon(c);
      case Incompatible => answer := Settle(c, Incompatible);
      case Stale => answer := Settle(c, Stale);
      case Done(receipt) => answer := Settle(c, Executed(receipt));
    }

    /** One call that no other call interrupts: a bound key answers from its receipt and touches nothing; a free one runs the
        locked section and either settles or, when its exception escapes, leaves the key free again. */
    method ExecuteOperations(c: Caller) returns (answer: Answer, ghost events: seq<Event>)
      requires Matches() && inner.plugin.cap >= 1 && At(View(), c) == Idle && lock == None && inflight == map[]
      modifies this, inner`cache, inner`capacity, inner.plugin`doc
      ensures View() == Run(world, old(View()), events)
      ensures At(View(), c) == Done(answer) && lock == None && inflight == map[]
      ensures var r, s := world.requests(c), old(View());
              if !r.valid then answer == Raised && View() == Move(s, c, Done(answer))
              else if r.key != "" && r.key in s.receipts then
                answer == AnswerFrom(s.receipts[r.key], r.fingerprint) && View() == Move(s, c, Done(answer))
              else if r.immediate then answer == Own(Receipt(c, r.fingerprint, Early)) && inner.plugin.doc == s.doc && turns == s.turns
              else RanAlone(s, c, answer)
      ensures Kept(old(View()), c, answer)
    {
      hide Run, World.ReceiptOf, World.Ending, RhinoProtocol.Settle, RhinoProtocol.Abandon;
      ghost var s := View();
      var r := world.requests(c);
      events := [Start(c)];
      RunEvent(world, s, Start(c));
      if !r.valid {
        answer, callers := Raised, callers[c := Done(Raised)];
      } else if r.key != "" && r.key in receipts {
        answer := AnswerFrom(receipts[r.key], r.fingerprint);
        callers := callers[c := Done(answer)];
      } else if r.immediate {
        answer := Settle(c, Early);
      } else {
        events := Enter(c);
        ghost var rest;
        answer, rest := Hold(c);
        RunConcat(world, s, events, rest);
        events := events + rest;
      }
    }
  }
}
