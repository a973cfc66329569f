/** The Blender and FreeCAD gateway object and the document behind it: one uninterrupted call is a run of the protocol. */
module LockedCalls {
  import opened Wrappers
  import opened HostContract
  import opened LockedGateway
  import opened LockedProofs

  /** What the transport does during one call: which scene reads get through, and whether the script runs and replies. */
  datatype Transport = Transport(readsBefore: bool, runs: bool, replies: bool, readsAfter: bool)

  lemma {:induction false} RunSnoc(w: World, s: State, events: seq<Event>, e: Event)
    ensures Run(w, s, events + [e]) == Step(w, Run(w, s, events), e)
    decreases |events|
  {
    hide Step;
    if events == [] {
      assert events + [e] == [e] && [e][1..] == [];
    } else {
      assert (events + [e])[0] == events[0] && (events + [e])[1..] == events[1..] + [e];
      RunSnoc(w, Step(w, s, events[0]), events[1..], e);
    }
  }

  /** The call gets as far as sending its script. */
  predicate Sends(w: World, doc: Doc, c: Caller, t: Transport) {
    var scene := FinalizeScene(w.text, w.digest, doc.id, doc.units, doc.objects);
    t.readsBefore && scene.Scene? && w.requests(c).expected in {None, Some(scene.revision)}
  }

  class HostGateway {
    const world: World
    var doc: Doc
    var callers: map<Caller, Pc>
    var receipts: map<string, Receipt>
    var lock: Option<Caller>
    var sends: seq<Caller>
    ghost var ran: seq<Caller>

    constructor (world: World)
      ensures this.world == world && Matches() && View() == Initial()
    {
      this.world, doc := world, world.start;
      callers, receipts, lock, sends, ran := map[], map[], None, [], [];
    }

    /** The document is what the scripts that ran have made of it. */
    ghost predicate Matches()
      reads `doc, `ran
    {
      doc == DocAfter(world, ran)
    }

    ghost function View(): State
      reads this
    {
      State(callers, receipts, lock, sends, ran)
    }

    /** What a scene read shows of a document. */
    function SceneOf(d: Doc): Finalized {
      FinalizeScene(world.text, world.digest, d.id, d.units, d.objects)
    }

    /** Stores the receipt and releases the lock. */
    method Bind(c: Caller, status: Status, delta: Delta) returns (answer: Answer)
      modifies this`callers, this`receipts, this`lock
      ensures View() == Settle(world, old(View()), c, status, delta) && At(View(), c) == Done(answer)
      ensures answer == Own(Receipt(c, world.Fingerprint(c), status, delta)) && lock == None
      ensures receipts == old(receipts)[world.Key(c) := answer.receipt]
    {
      var receipt := Receipt(c, world.Fingerprint(c), status, delta);
      answer := Own(receipt);
      callers, receipts, lock := callers[c := Done(answer)], receipts[world.Key(c) := receipt], None;
    }

    /** Whatever failed under the lock, the receipt says unknown. */
    method GiveUp(c: Caller, ghost s: State, ghost before: seq<Event>) returns (answer: Answer, ghost events: seq<Event>)
      requires Critical(At(View(), c)) && View() == Run(world, s, before)
      modifies this`callers, this`receipts, this`lock
      ensures View() == Run(world, s, events) && At(View(), c) == Done(answer) && lock == None
      ensures answer == Own(Receipt(c, world.Fingerprint(c), Unknown, NO_DELTA))
      ensures receipts == old(receipts)[world.Key(c) := answer.receipt]
    {
      hide Run;
      RunSnoc(world, s, before, Fail(c));
      events := before + [Fail(c)];
      answer := Bind(c, Unknown, NO_DELTA);
    }

    /** The before-scene and what it decides; None when the script is to go out. */
    method Look(c: Caller, t: Transport, ghost s: State, ghost before: seq<Event>)
      returns (answer: Option<Answer>, objects: seq<SceneObject>, ghost events: seq<Event>)
      requires Matches() && At(View(), c) == Reading && lock == Some(c) && View() == Run(world, s, before)
      modifies this`callers, this`receipts, this`lock, this`sends
      ensures View() == Run(world, s, events)
      ensures answer.None? <==> Sends(world, doc, c, t)
      ensures answer.Some? ==> At(View(), c) == Done(answer.value) && lock == None && sends == old(sends)
      ensures answer.Some? ==>
                answer.value == if t.readsBefore && SceneOf(doc).Scene? then Stale else Own(Receipt(c, world.Fingerprint(c), Unknown, NO_DELTA))
      ensures receipts == if answer.Some? && answer.value.Own? then old(receipts)[world.Key(c) := answer.value.receipt] else old(receipts)
      ensures answer.None? ==> At(View(), c) == Sending(objects) && lock == Some(c) && sends == old(sends) + [c]
                               && objects == FinalizedObjects(world, doc)
    {
      hide Run, FinalizeScene;
      objects := [];
      if !t.readsBefore {
        var unread;
        unread, events := GiveUp(c, s, before);
        return Some(unread), objects, events;
      }
      RunSnoc(world, s, before, ReadBefore(c));
      events := before + [ReadBefore(c)];
      var scene := FinalizeScene(world.text, world.digest, doc.id, doc.units, doc.objects);
      if !scene.Scene? {
        var refused := Bind(c, Unknown, NO_DELTA);
        return Some(refused), objects, events;
      }
      if world.requests(c).expected.Some? && world.requests(c).expected.value != scene.revision {
        callers, lock := callers[c := Done(Stale)], None;
        return Some(Stale), objects, events;
      }
      answer, objects := None, scene.objects;
      callers, sends := callers[c := Sending(objects)], sends + [c];
    }

    /** The script runs in the host. */
    method RunScript(c: Caller)
      requires Matches() && c in sends && c !in ran
      modifies this`doc, this`ran
      ensures View() == Step(world, old(View()), Runs(c)) && Matches()
      ensures doc == world.requests(c).script(old(doc)) && ran == old(ran) + [c]
    {
      doc, ran := world.requests(c).script(doc), ran + [c];
      assert ran[..|ran| - 1] == old(ran);
    }

    /** The reply has come; the after-scene completes the receipt. */
    method Report(c: Caller, readsAfter: bool, objects: seq<SceneObject>, ghost s: State, ghost before: seq<Event>)
      returns (answer: Answer, ghost events: seq<Event>)
      requires At(View(), c) == Sending(objects) && c in ran && Matches() && View() == Run(world, s, before)
      modifies this`callers, this`receipts, this`lock
      ensures View() == Run(world, s, events) && At(View(), c) == Done(answer) && lock == None
      ensures var after := FinalizeScene(world.text, world.digest, doc.id, doc.units, doc.objects);
              answer == Own(if readsAfter && after.Scene? then Receipt(c, world.Fingerprint(c), Completed, SceneDelta(objects, after.objects))
                            else Receipt(c, world.Fingerprint(c), Unknown, NO_DELTA))
      ensures receipts == old(receipts)[world.Key(c) := answer.receipt]
    {
      hide Run, FinalizeScene, SceneDelta, DocAfter;
      RunSnoc(world, s, before, Replies(c));
      events := before + [Replies(c)];
      callers := callers[c := ReadingAfter(objects)];
      if !readsAfter {
        answer, events := GiveUp(c, s, events);
        return;
      }
      RunSnoc(world, s, events, ReadAfter(c));
      events := events + [ReadAfter(c)];
      var scene := FinalizeScene(world.text, world.digest, doc.id, doc.units, doc.objects);
      if scene.Scene? {
        answer := Bind(c, Completed, SceneDelta(objects, scene.objects));
      } else {
        answer := Bind(c, Unknown, NO_DELTA);
      }
    }

    /** The script's run and reply, and the after-scene. */
    method Conclude(c: Caller, t: Transport, objects: seq<SceneObject>, ghost s: State, ghost before: seq<Event>)
      returns (answer: Answer, ghost events: seq<Event>)
      requires Matches() && At(View(), c) == Sending(objects) && View() == Run(world, s, before) && c in sends && c !in ran
      modifies this`callers, this`receipts, this`lock, this`doc, this`ran
      ensures View() == Run(world, s, events) && Matches() && At(View(), c) == Done(answer) && lock == None
      ensures doc == if t.runs then world.requests(c).script(old(doc)) else old(doc)
      ensures var after := FinalizeScene(world.text, world.digest, doc.id, doc.units, doc.objects);
              answer == Own(if t.runs && t.replies && t.readsAfter && after.Scene?
                            then Receipt(c, world.Fingerprint(c), Completed, SceneDelta(objects, after.objects))
                            else Receipt(c, world.Fingerprint(c), Unknown, NO_DELTA))
      ensures receipts == old(receipts)[world.Key(c) := answer.receipt]
    {
      hide Run, Step, FinalizeScene, SceneDelta, DocAfter, Matches;
      events := before;
      if t.runs {
        RunSnoc(world, s, events, Runs(c));
        events := events + [Runs(c)];
        RunScript(c);
      }
      if t.runs && t.replies {
        answer, events := Report(c, t.readsAfter, objects, s, events);
      } else {
        answer, events := GiveUp(c, s, events);
      }
    }

    /** The check before the lock; None when the call has to go on. */
    method CheckFirst(c: Caller) returns (answer: Option<Answer>)
      requires At(View(), c) == Idle
      modifies this`callers
      ensures View() == Step(world, old(View()), Start(c))
      ensures if answer.Some? then At(View(), c) == Done(answer.value) else At(View(), c) == WantLock
      ensures answer == if !world.requests(c).valid then Some(Raised)
                        else if world.Key(c) in receipts then Some(AnswerFrom(receipts[world.Key(c)], world.Fingerprint(c)))
                        else if world.requests(c).dryRun then Some(Validated) else None
    {
      var r := world.requests(c);
      if !r.valid { answer := Some(Raised); }
      else if r.key in receipts { answer := Some(AnswerFrom(receipts[r.key], r.fingerprint)); }
      else if r.dryRun { answer := Some(Validated); }
      else { answer := None; }
      callers := callers[c := if answer.Some? then Done(answer.value) else WantLock];
    }

    /** The call is for a document and has no receipt yet. */
    predicate Live(stored: map<string, Receipt>, c: Caller) {
      world.requests(c).valid && world.Key(c) !in stored && !world.requests(c).dryRun
    }

    /** The answer of a call that held the lock: stale exactly if the before-scene was read and has another revision than
        expected; otherwise its own receipt, completed exactly if both scenes were read and the script ran and replied. */
    predicate Tells(c: Caller, t: Transport, before: Finalized, after: Finalized, answer: Answer) {
      var r := world.requests(c);
      && (answer == Stale <==> t.readsBefore && before.Scene? && r.expected.Some? && r.expected.value != before.revision)
      && (answer != Stale ==>
            && answer.Own? && answer.receipt.owner == c && answer.receipt.fingerprint == r.fingerprint
            && (answer.receipt.status == Completed <==>
                  t.readsBefore && before.Scene? && t.runs && t.replies && t.readsAfter && after.Scene?)
            && (answer.receipt.status == Unknown ==> answer.receipt.delta == Delta({}, {}, {})))
    }

    /** The section of a call that holds the lock. */
    method Serve(c: Caller, t: Transport, ghost s: State, ghost before: seq<Event>) returns (answer: Answer, ghost events: seq<Event>)
      requires Matches() && At(View(), c) == Reading && lock == Some(c) && View() == Run(world, s, before) && c !in sends && c !in ran
      modifies this
      ensures View() == Run(world, s, events) && Matches() && At(View(), c) == Done(answer) && lock == None
      ensures (answer == Stale || answer.Own?) && Tells(c, t, SceneOf(old(doc)), SceneOf(doc), answer)
      ensures answer.Own? && answer.receipt.status == Completed ==>
                answer.receipt.delta == OwnEffect(world, c, old(doc)) && doc == world.requests(c).script(old(doc))
      ensures receipts == (if answer == Stale then old(receipts) else old(receipts)[world.Key(c) := answer.receipt])
      ensures var sent := Sends(world, old(doc), c, t);
              && sends == (if sent then old(sends) + [c] else old(sends))
              && doc == (if sent && t.runs then world.requests(c).script(old(doc)) else old(doc))
    {
      hide Run, FinalizeScene, SceneDelta, DocAfter;
      var early, objects;
      early, objects, events := Look(c, t, s, before);
      if early.Some? {
        assert early.value == Stale ==> world.requests(c).expected !in {None, Some(SceneOf(doc).revision)};
        return early.value, events;
      }
      answer, events := Conclude(c, t, objects, s, events);
    }

    /** One call that no other call interrupts is a run of the protocol. A bound key touches nothing; a completed receipt
        shows what the call's own script did to the document it found; and no script goes out but after a before-scene of
        the expected revision. */
    method Execute(c: Caller, t: Transport) returns (answer: Answer, ghost events: seq<Event>)
      requires Matches() && At(View(), c) == Idle && lock == None && c !in sends && c !in ran
      modifies this
      ensures View() == Run(world, old(View()), events) && Matches() && At(View(), c) == Done(answer) && lock == None
      ensures var r, live := world.requests(c), Live(old(receipts), c);
              var before, after := SceneOf(old(doc)), SceneOf(doc);
              && (answer == Raised <==> !r.valid)
              && (r.valid && r.key in old(receipts) ==>
                    var prior := old(receipts)[r.key]; answer == if prior.fingerprint == r.fingerprint then Replayed(prior) else Conflict(prior))
              && (answer == Validated <==> r.valid && r.key !in old(receipts) && r.dryRun)
              && (answer == Stale || answer.Own? <==> live) && (live ==> Tells(c, t, before, after, answer))
              && receipts == (if live && answer != Stale then old(receipts)[r.key := answer.receipt] else old(receipts))
      ensures answer.Own? && answer.receipt.status == Completed ==>
                answer.receipt.delta == OwnEffect(world, c, old(doc)) && doc == world.requests(c).script(old(doc))
      ensures var sent := Live(old(receipts), c) && Sends(world, old(doc), c, t);
              && sends == (if sent then old(sends) + [c] else old(sends))
              && doc == (if sent && t.runs then world.requests(c).script(old(doc)) else old(doc))
    {
      hide Run, SceneOf, SceneDelta, Sends, Decide, Complete, Settle, DocAfter, OwnEffect, Tells;
      ghost var s := View();
      RunSnoc(world, s, [], Start(c));
      RunNone(world, s);
      events := [] + [Start(c)];
      var early := CheckFirst(c);
      if early.Some? { return early.value, events; }
      RunSnoc(world, s, events, Acquire(c));
      events := events + [Acquire(c)];
      lock, callers := Some(c), callers[c := Reading];
      answer, events := Serve(c, t, s, events);
    }
  }
}
