/** The script client's process and the document it talks to: one uninterrupted call is a run of the protocol. */
module RhinoClientCalls {
  import opened Wrappers
  import opened RhinoClient
  import opened RhinoClientProofs

  /** What happens to one call: whether the recovery read, the script, its reply and the second read get through. */
  datatype Weather = Weather(recovery: bool, script: bool, reply: bool, recheck: bool)

  /** A script that raised is taken back when its undo was recorded and works. */
  predicate Undone(effect: Effect) {
    effect.raised && effect.recorded && effect.undoes
  }

  /** The report of a script that found the document `before` and left it as `after`. */
  ghost predicate Tells(report: Report, effect: Effect, before: Doc, after: Doc) {
    && (report.failed <==> effect.raised) && (report.rolledBack <==> Undone(effect))
    && (forall id :: id in report.created <==> id in after && id !in before)
    && (forall id :: id in report.deleted <==> id in before && id !in after)
  }

  lemma ReportTells(effect: Effect, before: Doc)
    ensures Left(effect, before) == if Undone(effect) then before else effect.doc
    ensures Tells(ReportOf(effect, before), effect, before, Left(effect, before))
  {}

  class Client {
    const world: World
    var callers: map<Caller, Pc>
    var recent: map<string, Receipt>
    var inflight: map<string, Caller>
    var persisted: map<string, Receipt>
    var pending: seq<Caller>
    var executions: seq<Caller>
    var blind: set<Caller>
    var doc: Doc

    constructor (world: World)
      ensures this.world == world && View() == Initial() && Matches()
    {
      this.world, doc := world, world.start;
      callers, recent, inflight, persisted, pending, executions, blind := map[], map[], map[], map[], [], [], {};
    }

    ghost function View(): State
      reads this
    {
      State(callers, recent, inflight, persisted, pending, executions, blind)
    }

    /** The document is what the scripts that ran have made of it. */
    ghost predicate Matches()
      reads `doc, `executions
    {
      doc == DocAfter(world, executions)
    }

    /** The checks in memory; None when the call goes on to Rhino. */
    method CheckMemory(c: Caller, ghost s: State) returns (answer: Option<Answer>, ghost events: seq<Event>)
      requires At(View(), c) == Idle && inflight == map[] && s == View()
      modifies this`callers, this`inflight
      ensures View() == Run(world, s, events)
      ensures answer.Some? ==> At(View(), c) == Done(answer.value) && inflight == map[]
      ensures answer.None? ==> At(View(), c) == if world.requests(c).key == "" then Armed else Checking
      ensures answer.None? ==> inflight == (if world.requests(c).key == "" then map[] else map[world.requests(c).key := c])
      ensures answer == if world.requests(c).key != "" && world.requests(c).key in recent
                        then Some(AnswerFrom(recent[world.requests(c).key], world.requests(c).fingerprint))
                        else if world.requests(c).immediate then Some(Immediate) else None
    {
      hide Run;
      events := [Start(c)];
      RunSnoc(world, s, [], Start(c));
      RunNone(world, s);
      assert [] + [Start(c)] == [Start(c)];
      var r := world.requests(c);
      if r.key != "" && r.key in recent { answer := Some(AnswerFrom(recent[r.key], r.fingerprint)); }
      else if r.immediate { answer := Some(Immediate); }
      else { answer := None; }
      if answer.None? && r.key != "" { inflight := inflight[r.key := c]; }
      callers := callers[c := if answer.Some? then Done(answer.value) else if r.key == "" then Armed else Checking];
    }

    /** The recovery read of a keyed call; None when the script is to be sent. */
    method Recover(c: Caller, served: bool, ghost s: State, ghost before: seq<Event>) returns (answer: Option<Answer>, ghost events: seq<Event>)
      requires At(View(), c) == Checking && world.requests(c).key != "" && inflight == map[world.requests(c).key := c] && View() == Run(world, s, before)
      modifies this`callers, this`recent, this`inflight, this`pending, this`blind
      ensures View() == Run(world, s, events)
      ensures answer == if served && world.requests(c).key in persisted
                        then Some(if persisted[world.requests(c).key].fingerprint == world.requests(c).fingerprint
                                  then Replayed(persisted[world.requests(c).key]) else Conflict(persisted[world.requests(c).key]))
                        else None
      ensures answer.Some? ==> At(View(), c) == Done(answer.value) && inflight == map[]
      ensures answer.None? ==> At(View(), c) == Armed && inflight == old(inflight) && (served ==> pending == [])
    {
      hide Run;
      var key := world.requests(c).key;
      if !served {
        RunSnoc(world, s, before, ReadFailed(c));
        events := before + [ReadFailed(c)];
        callers, blind := callers[c := Armed], blind + {c};
        return None, events;
      }
      RunSnoc(world, s, before, ReadServed(c));
      events := before + [ReadServed(c)];
      pending := [];
      if key !in persisted {
        callers := callers[c := Armed];
        return None, events;
      }
      if persisted[key].fingerprint == world.requests(c).fingerprint {
        answer := Some(Replayed(persisted[key]));
        recent := recent[key := persisted[key]];
      } else {
        answer := Some(Conflict(persisted[key]));
      }
      callers, inflight := callers[c := Done(answer.value)], inflight - {key};
    }

    /** Rhino serves the script sent last: it runs, is undone if it raised, and prints and persists its receipt. */
    method Serve(c: Caller) returns (report: Option<Report>)
      requires pending != [] && pending[|pending| - 1] == c && Matches() && c !in executions
      modifies this`pending, this`executions, this`persisted, this`doc
      ensures View() == Step(world, old(View()), ServeScript(|old(pending)| - 1)) && Matches()
      ensures executions == old(executions) + [c] && report == ReportAt(world, executions, c)
      ensures var effect := world.requests(c).script(old(doc)); doc == Left(effect, old(doc)) && report == Some(ReportOf(effect, old(doc)))
      ensures world.requests(c).key != "" ==>
                world.requests(c).key in persisted && persisted[world.requests(c).key] == Receipt(c, world.requests(c).fingerprint, report)
    {
      hide ReportOf, Left;
      var effect := world.requests(c).script(doc);
      report, doc := Some(ReportOf(effect, doc)), Left(effect, doc);
      executions, pending := executions + [c], [];
      assert executions[..|executions| - 1] == old(executions);
      if world.requests(c).key != "" { persisted := persisted[world.requests(c).key := Receipt(c, world.requests(c).fingerprint, report)]; }
    }

    /** Sends the script, which Rhino may serve. */
    method SendScript(c: Caller, served: bool, ghost s: State, ghost before: seq<Event>)
      returns (report: Option<Report>, ghost events: seq<Event>)
      requires At(View(), c) == Armed && View() == Run(world, s, before) && Matches() && c !in executions
      modifies this`callers, this`pending, this`executions, this`persisted, this`doc
      ensures View() == Run(world, s, events) && At(View(), c) == Sent && Matches()
      ensures executions == if served then old(executions) + [c] else old(executions)
      ensures var effect := world.requests(c).script(old(doc));
              && doc == (if served then Left(effect, old(doc)) else old(doc))
              && report == (if served then Some(ReportOf(effect, old(doc))) else None)
      ensures served ==> report == ReportAt(world, executions, c)
      ensures !served ==> persisted == old(persisted)
      ensures served && world.requests(c).key != "" ==>
                world.requests(c).key in persisted && persisted[world.requests(c).key] == Receipt(c, world.requests(c).fingerprint, report)
    {
      hide Run, ReportOf, Left, ReportAt, DocAfter, RhinoClient.Serve;
      report := None;
      RunSnoc(world, s, before, Send(c));
      events := before + [Send(c)];
      callers, pending := callers[c := Sent], pending + [c];
      if served {
        RunSnoc(world, s, events, ServeScript(|pending| - 1));
        events := events + [ServeScript(|pending| - 1)];
        report := Serve(c);
      }
    }

    /** The receipt is remembered and the key freed. */
    method Finish(c: Caller, receipt: Receipt)
      modifies this`callers, this`inflight, this`recent
      ensures View() == RhinoClient.Finish(world, old(View()), c, receipt)
      ensures At(View(), c) == Done(Ran(receipt)) && inflight == old(inflight) - {world.requests(c).key}
    {
      callers, inflight := callers[c := Done(Ran(receipt))], inflight - {world.requests(c).key};
      if world.requests(c).key != "" { recent := recent[world.requests(c).key := receipt]; }
    }

    /** The recovery read after a lost reply. */
    method Reread(c: Caller, served: bool) returns (receipt: Receipt)
      requires At(View(), c) == Rechecking
      modifies this`callers, this`recent, this`inflight, this`pending
      ensures View() == Step(world, old(View()), if served then RecheckServed(c) else RecheckFailed(c))
      ensures At(View(), c) == Done(Ran(receipt)) && inflight == old(inflight) - {world.requests(c).key}
      ensures receipt == if served && world.requests(c).key != "" && world.requests(c).key in persisted
                         then persisted[world.requests(c).key] else Unread(world, c)
    {
      receipt := Unread(world, c);
      if served {
        pending := [];
        if world.requests(c).key != "" && world.requests(c).key in persisted { receipt := persisted[world.requests(c).key]; }
      }
      Finish(c, receipt);
    }

    /** Takes the reply, or reads the persisted receipt back, or settles for an unknown one. */
    method Collect(c: Caller, w: Weather, report: Option<Report>, ghost s: State, ghost before: seq<Event>)
      returns (receipt: Receipt, ghost events: seq<Event>)
      requires At(View(), c) == Sent && View() == Run(world, s, before)
      requires w.script ==> c in executions && report == ReportAt(world, executions, c)
      modifies this`callers, this`recent, this`inflight, this`pending
      ensures View() == Run(world, s, events) && At(View(), c) == Done(Ran(receipt))
      ensures inflight == old(inflight) - {world.requests(c).key}
      ensures receipt == if w.script && w.reply then Receipt(c, world.requests(c).fingerprint, report)
                         else if w.recheck && world.requests(c).key != "" && world.requests(c).key in persisted
                         then persisted[world.requests(c).key] else Unread(world, c)
    {
      hide Run, ReportAt, RhinoClient.Finish, Recheck;
      if w.script && w.reply {
        RunSnoc(world, s, before, RhinoClient.Reply(c));
        events := before + [RhinoClient.Reply(c)];
        receipt := Receipt(c, world.requests(c).fingerprint, report);
        Finish(c, receipt);
        return;
      }
      RunSnoc(world, s, before, Lost(c));
      callers := callers[c := Rechecking];
      ghost var last := if w.recheck then RecheckServed(c) else RecheckFailed(c);
      RunSnoc(world, s, before + [Lost(c)], last);
      events := before + [Lost(c)] + [last];
      receipt := Reread(c, w.recheck);
    }

    /** The script goes out, and what comes back becomes the receipt. */
    method Mutate(c: Caller, w: Weather, ghost s: State, ghost before: seq<Event>) returns (receipt: Receipt, ghost events: seq<Event>)
      requires At(View(), c) == Armed && View() == Run(world, s, before) && Matches() && c !in executions
      modifies this
      ensures View() == Run(world, s, events) && At(View(), c) == Done(Ran(receipt)) && Matches()
      ensures inflight == old(inflight) - {world.requests(c).key}
      ensures executions == if w.script then old(executions) + [c] else old(executions)
      ensures var effect := world.requests(c).script(old(doc));
              && doc == (if w.script then Left(effect, old(doc)) else old(doc))
              && (w.script && (w.reply || (w.recheck && world.requests(c).key != "")) ==>
                    receipt == Receipt(c, world.requests(c).fingerprint, Some(ReportOf(effect, old(doc)))))
              && (w.script && !w.reply && !(w.recheck && world.requests(c).key != "") ==>
                    receipt == Receipt(c, world.requests(c).fingerprint, None))
              && (!w.script ==> receipt == if w.recheck && world.requests(c).key != "" && world.requests(c).key in old(persisted)
                                           then old(persisted)[world.requests(c).key] else Receipt(c, world.requests(c).fingerprint, None))
    {
      hide Run, Step, ReportOf, Left, ReportAt, DocAfter;
      var report;
      report, events := SendScript(c, w.script, s, before);
      receipt, events := Collect(c, w, report, s, events);
    }

    /** One call that no other call interrupts. A remembered key, or one whose persisted receipt can be read, runs nothing;
        otherwise the script runs once if Rhino serves it, and a receipt that comes back shows what it did to the document. */
    method ExecutePython(c: Caller, w: Weather) returns (answer: Answer, ghost events: seq<Event>)
      requires At(View(), c) == Idle && inflight == map[] && Matches() && c !in executions
      modifies this
      ensures View() == Run(world, old(View()), events) && Matches() && inflight == map[] && At(View(), c) == Done(answer)
      ensures var r := world.requests(c);
              if r.key != "" && r.key in old(recent) then doc == old(doc) && executions == old(executions) && answer == AnswerFrom(old(recent)[r.key], r.fingerprint)
              else if r.immediate then doc == old(doc) && executions == old(executions) && answer == Immediate
              else if r.key != "" && w.recovery && r.key in old(persisted) then
                doc == old(doc) && executions == old(executions) && Carries(answer) && answer.receipt == old(persisted)[r.key]
              else
                && executions == (if w.script then old(executions) + [c] else old(executions)) && answer.Ran?
                && doc == (if w.script then if Undone(r.script(old(doc))) then old(doc) else r.script(old(doc)).doc else old(doc))
                && if !w.script && w.recheck && r.key != "" && r.key in old(persisted) then answer.receipt == old(persisted)[r.key]
                   else
                     && answer.receipt.owner == c && answer.receipt.fingerprint == r.fingerprint
                     && (answer.receipt.report.Some? <==> w.script && (w.reply || (w.recheck && r.key != "")))
                     && (answer.receipt.report.Some? ==> Tells(answer.receipt.report.value, r.script(old(doc)), old(doc), doc))
    {
      hide Run, Step, Begin, Check, Recheck, RhinoClient.Serve, ReportOf, Left, ReportAt, DocAfter, Matches, Tells, Undone;
      ghost var s := View();
      var early: Option<Answer>;
      early, events := CheckMemory(c, s);
      if early.Some? { return early.value, events; }
      if world.requests(c).key != "" {
        early, events := Recover(c, w.recovery, s, events);
        if early.Some? { return early.value, events; }
      }
      var receipt;
      ReportTells(world.requests(c).script(doc), doc);
      receipt, events := Mutate(c, w, s, events);
      answer := Ran(receipt);
    }

    /** The sidecar restarts: its memory is lost and its unfinished calls are gone; the document, the receipts persisted in it
        and the scripts that ran stay, so every key is answered from the document again. */
    method Reboot()
      requires Matches()
      modifies this`callers, this`recent, this`inflight
      ensures View() == Step(world, old(View()), Restart) && Matches()
      ensures recent == map[] && inflight == map[] && forall c :: !Serving(At(View(), c)) && !At(View(), c).Awaiting?
    {
      callers := map c | c in callers :: if callers[c].Done? then callers[c] else Gone;
      recent, inflight := map[], map[];
    }
  }
}
