/** What each status of a receipt means, for every batch, document and fate of the replies, told by runs of commands alone. */
module ReceiptStatus {
  import opened Wrappers
  import opened Values
  import opened Operations
  import opened Mapping
  import opened Host
  import opened Script
  import opened Plugin
  import opened Agreement
  import opened AliasSafety
  import opened Receipts
  import opened RunHistory
  import opened ReceiptTruth

  // ---------------------------------------------------------------- where the loop stops

  /** The first `at` commands were all answered and took effect in order. */
  ghost predicate Reaches(k: Kernel, commands: seq<Command>, doc: Document, fates: nat -> Fate, at: nat)
    requires at <= |commands|
  {
    Run(k, commands[..at], Begin(doc)).Ok? && forall j :: 0 <= j < at ==> fates(j) == Answered
  }

  /** That many commands went through and no more. */
  ghost predicate StopsAfter(k: Kernel, commands: seq<Command>, doc: Document, fates: nat -> Fate, at: nat) {
    at <= |commands| && Reaches(k, commands, doc, fates, at) && (at < |commands| ==> !Reaches(k, commands, doc, fates, at + 1))
  }

  /** A write whose reply never came although its parameters had resolved: nobody knows whether it took effect. */
  predicate InDoubt(s: RunState, c: Command, fate: Fate) {
    ResolveParams(c.params, s.aliases).Ok? && (fate == LostApplied || fate == LostUnapplied)
  }

  /** The write that did not go through took effect all the same: it arrived and the plugin accepted it. */
  predicate TookEffect(k: Kernel, s: RunState, c: Command, fate: Fate) {
    && ResolveParams(c.params, s.aliases).Ok? && fate != NeverSent && fate != LostUnapplied
    && PluginCall(k, s.doc, c.name, ResolveParams(c.params, s.aliases).value).Ok?
  }

  /** The document when the loop has stopped in state `s`. */
  function LeftBehind(k: Kernel, s: RunState, commands: seq<Command>, fates: nat -> Fate, at: nat): Document
    requires at <= |commands|
  {
    if at < |commands| && TookEffect(k, s, commands[at], fates(at))
    then PluginCall(k, s.doc, commands[at].name, ResolveParams(commands[at].params, s.aliases).value).value.0
    else s.doc
  }

  // ---------------------------------------------------------------- what the receipt may claim

  /** An object that appeared during the execution and that no answered command returned. */
  predicate Unclaimed(id: string, aliases: Aliases, before: Document, after: Document) {
    id in after.objects && id !in before.objects && forall a :: a in aliases ==> id !in aliases[a]
  }

  /** After a write in doubt that should have returned a single id, the one unclaimed object is taken for its result; in
      every other case the outputs are what the answered commands returned. */
  ghost predicate OutputsAre(outputs: Aliases, s: RunState, doubt: Option<Command>, before: Document, after: Document) {
    if doubt.Some? && doubt.value.bind.Some? && (doubt.value.field == Some(KeyId) || doubt.value.field == Some(KeyResultId))
       && exists id :: Unclaimed(id, s.aliases, before, after) && forall other :: Unclaimed(other, s.aliases, before, after) ==> other == id
    then exists id :: Unclaimed(id, s.aliases, before, after) && outputs == s.aliases[doubt.value.bind.value := [id]]
    else outputs == s.aliases
  }

  /** The document bears the outputs and the edits out: something was bound unless nothing had to be, what is bound exists,
      and each edit sent shows. */
  predicate Borne(k: Kernel, commands: seq<Command>, sent: seq<Sent>, outputs: Aliases, before: Document, after: Document) {
    && ((exists a :: a in outputs && outputs[a] != []) || forall j :: 0 <= j < |commands| ==> commands[j].bind.None?)
    && BoundExist(outputs, after) && EditsShow(k, sent, before, after)
  }

  /** The receipt of an execution that got through `at` commands from `doc` and left `after`. */
  ghost predicate Accounts(k: Kernel, commands: seq<Command>, doc: Document, fates: nat -> Fate, at: nat, after: Document, r: Receipt)
    requires at <= |commands| && Run(k, commands[..at], Begin(doc)).Ok?
  {
    var s := Run(k, commands[..at], Begin(doc)).value;
    var doubt := if at < |commands| && InDoubt(s, commands[at], fates(at)) then Some(commands[at]) else None;
    var borne := Borne(k, commands, r.sent, r.outputs, doc, after);
    && after == LeftBehind(k, s, commands, fates, at)
    && SentInOrder(k, commands[..at], doc, r.sent) && OutputsAre(r.outputs, s, doubt, doc, after)
    && (r.verified <==> borne)
    && (r.status == Completed <==> at == |commands| && borne)
    && (r.status == FailedStatus <==> at < |commands| && doubt == None)
    && (r.status == Reconciled <==> at < |commands| && doubt.Some? && borne)
    && (r.status == Unknown <==> !borne && (at == |commands| || doubt.Some?))
  }

  /** It accounts for the execution from where the loop stopped. */
  ghost predicate AccountsForAll(k: Kernel, commands: seq<Command>, doc: Document, fates: nat -> Fate, after: Document, r: Receipt) {
    exists at: nat :: StopsAfter(k, commands, doc, fates, at) && Accounts(k, commands, doc, fates, at, after, r)
  }

  // ---------------------------------------------------------------- the loop and the runs

  /** One more command goes through exactly if it is answered and runs in the state before it. */
  lemma ReachesNext(k: Kernel, commands: seq<Command>, doc: Document, fates: nat -> Fate, at: nat)
    requires at < |commands| && Reaches(k, commands, doc, fates, at)
    ensures var run := RunCommand(k, Run(k, commands[..at], Begin(doc)).value, commands[at]);
            && (Reaches(k, commands, doc, fates, at + 1) <==> fates(at) == Answered && run.Ok?)
            && (run.Ok? ==> Run(k, commands[..at + 1], Begin(doc)) == run)
  {
    hide RunCommand;
    var c := commands[at];
    assert commands[..at + 1] == commands[..at] + [c];
    RunConcat(k, commands[..at], [c], Begin(doc));
    OneCommand(k, c, Run(k, commands[..at], Begin(doc)).value);
  }

  lemma OneCommand(k: Kernel, c: Command, s: RunState)
    ensures Run(k, [c], s) == RunCommand(k, s, c)
  {
    hide RunCommand;
    assert [c][1..] == [];
    if RunCommand(k, s, c).Ok? { assert Run(k, [], RunCommand(k, s, c).value) == RunCommand(k, s, c); }
  }

  /** The loop from any command it reaches on. */
  lemma {:induction false} LoopStops(k: Kernel, commands: seq<Command>, doc: Document, fates: nat -> Fate, i: nat) returns (at: nat)
    requires i <= |commands| && Reaches(k, commands, doc, fates, i)
    ensures i <= at && StopsAfter(k, commands, doc, fates, at)
    ensures var s, ending := Run(k, commands[..at], Begin(doc)).value,
                             SendAll(k, commands, Run(k, commands[..i], Begin(doc)).value, fates, i);
            && ending.at == at && ending.s == s.(doc := LeftBehind(k, s, commands, fates, at))
            && ending.how == if at == |commands| then Finished
                             else if InDoubt(s, commands[at], fates(at)) then Ambiguous else Failed
    decreases |commands| - i
  {
    hide Run, RunCommand, Reaches, InDoubt, TookEffect, SendOne;
    at := i;
    ReachesRuns(k, commands, doc, fates, i);
    if i < |commands| {
      var s := Run(k, commands[..i], Begin(doc)).value;
      ReachesNext(k, commands, doc, fates, i);
      StepStops(k, s, commands[i], fates(i));
      if SendOne(k, s, commands[i], fates(i)).Continue? {
        at := LoopStops(k, commands, doc, fates, i + 1);
      }
    }
  }

  lemma ReachesRuns(k: Kernel, commands: seq<Command>, doc: Document, fates: nat -> Fate, at: nat)
    requires at <= |commands| && Reaches(k, commands, doc, fates, at)
    ensures Run(k, commands[..at], Begin(doc)).Ok?
  {}

  /** One write: it goes through, or it stops the loop with its doubtful effect. */
  lemma StepStops(k: Kernel, s: RunState, c: Command, fate: Fate)
    ensures var step, run := SendOne(k, s, c, fate), RunCommand(k, s, c);
            && (step.Continue? <==> fate == Answered && run.Ok?)
            && (step.Continue? ==> step.s == run.value)
            && (step.Stop? ==>
                  && (step.how == if InDoubt(s, c, fate) then Ambiguous else Failed)
                  && step.s == s.(doc := if TookEffect(k, s, c, fate)
                                         then PluginCall(k, s.doc, c.name, ResolveParams(c.params, s.aliases).value).value.0
                                         else s.doc))
  {
    hide PluginCall, ResolveParams, ExtractIds;
  }

  // ---------------------------------------------------------------- the check on a broken batch

  /** What was deleted stays deleted whatever the last write did. */
  lemma DeletesHoldAfter(k: Kernel, commands: seq<Command>, doc: Document, after: Document)
    requires ValidKernel(k) && ValidDocument(k, doc) && Run(k, commands, Begin(doc)).Ok?
    requires OnlyFresh(k, Run(k, commands, Begin(doc)).value.doc, after)
    ensures DeletesHold(k, Run(k, commands, Begin(doc)).value.sent, after)
  {
    hide Run, ResolvedAt, ValidKernel, ValidDocument, OnlyFresh, TextOf;
    var s := Run(k, commands, Begin(doc)).value;
    RunSendsAll(k, commands, Begin(doc));
    RunKeeps(k, commands, Begin(doc));
    forall j | 0 <= j < |s.sent| && s.sent[j].name == DeleteObject ensures k.canon(TextOf(s.sent[j].params, KeyId)) !in after.objects {
      DeletedIsGone(k, commands, Begin(doc), j);
      var id, earlier := k.canon(TextOf(s.sent[j].params, KeyId)), Run(k, commands[..j], Begin(doc)).value.doc;
      StepAt(k, commands, Begin(doc), j);
      RunKeeps(k, commands[..j], Begin(doc));
      assert commands == commands[..j] + commands[j..];
      RunConcat(k, commands[..j], commands[j..], Begin(doc));
      RunKeeps(k, commands[j..], Run(k, commands[..j], Begin(doc)).value);
      PresentIsNotSupplied(k, earlier, s.doc, id);
      StaysAway(k, s.doc, after, id);
    }
  }

  lemma PresentIsNotSupplied(k: Kernel, earlier: Document, later: Document, id: string)
    requires ValidDocument(k, earlier) && id in earlier.objects && OnlyFresh(k, earlier, later)
    ensures Unsupplied(k, id, later.next)
  {}

  /** The last write leaves a valid document, and nothing new in it but newly supplied. */
  lemma LeftBehindKeeps(k: Kernel, s: RunState, commands: seq<Command>, fates: nat -> Fate, at: nat)
    requires ValidKernel(k) && ValidDocument(k, s.doc) && at <= |commands|
    ensures var after := LeftBehind(k, s, commands, fates, at); ValidDocument(k, after) && OnlyFresh(k, s.doc, after)
  {
    hide ValidKernel, ValidDocument, OnlyFresh, PluginCall, ResolveParams;
    OnlyFreshSame(k, s.doc);
    if at < |commands| && TookEffect(k, s, commands[at], fates(at)) {
      PluginKeeps(k, s.doc, commands[at].name, ResolveParams(commands[at].params, s.aliases).value);
    }
  }

  lemma BorneIsVerified(k: Kernel, hash: Hash, commands: seq<Command>, before: Document, sent: seq<Sent>, outputs: Aliases, after: Document)
    requires ValidDocument(k, before) && ValidDocument(k, after) && Injective(hash) && DeletesHold(k, sent, after)
    ensures IsVerified(commands, sent, outputs, SceneOf(hash, before), SceneOf(hash, after)) <==> Borne(k, commands, sent, outputs, before, after)
  {
    hide ValidDocument, Injective, DeletesHold, IsVerified, BoundExist, EditsShow, SceneOf;
    CheckMeans(k, hash, commands, before, RunState(after, outputs, sent));
    assert AllIds(outputs) != {} <==> exists a :: a in outputs && outputs[a] != [] by {
      if a :| a in outputs && outputs[a] != [] { assert outputs[a][0] in AllIds(outputs); }
    }
  }

  // ---------------------------------------------------------------- the outputs after a write in doubt

  lemma CandidatesAreUnclaimed(hash: Hash, aliases: Aliases, before: Document, after: Document)
    ensures forall id :: id in Created(SceneOf(hash, before), SceneOf(hash, after)) - AllIds(aliases) <==> Unclaimed(id, aliases, before, after)
  {
    forall id ensures id in AllIds(aliases) <==> exists a :: a in aliases && id in aliases[a] {
      if a :| a in aliases && id in aliases[a] {
        var i :| 0 <= i < |aliases[a]| && aliases[a][i] == id;
        assert aliases[a][i] in AllIds(aliases);
      }
    }
  }

  lemma OneElement(s: set<string>)
    ensures |s| == 1 <==> exists id :: id in s && forall other :: other in s ==> other == id
  {
    if |s| == 1 {
      SingletonHasOne(s);
      var id :| id in s && s == {id};
      assert forall other :: other in s ==> other == id;
    }
    if id :| id in s && forall other :: other in s ==> other == id { HasOneElement(s, id); }
  }

  lemma HasOneElement(s: set<string>, id: string)
    requires id in s && forall other :: other in s ==> other == id
    ensures |s| == 1
  {
    assert s == {id};
  }

  lemma MatchedOutputs(hash: Hash, commands: seq<Command>, ending: Ending, doubt: Option<Command>, s: RunState, before: Document)
    requires ending.at <= |commands| && s.aliases == ending.s.aliases
    requires doubt == if ending.how == Ambiguous && ending.at < |commands| then Some(commands[ending.at]) else None
    ensures var created := Created(SceneOf(hash, before), SceneOf(hash, ending.s.doc));
            OutputsAre(ReconciledAliases(ending.s.aliases, created, ending, commands), s, doubt, before, ending.s.doc)
  {
    hide AllIds, SceneOf, Created, Unclaimed;
    var created := Created(SceneOf(hash, before), SceneOf(hash, ending.s.doc));
    var candidates := created - AllIds(s.aliases);
    CandidatesAreUnclaimed(hash, s.aliases, before, ending.s.doc);
    OneElement(candidates);
    if |candidates| == 1 { assert TheOnly(candidates) in candidates; }
  }

  // ---------------------------------------------------------------- all four statuses

  lemma ReceiptAccounts(k: Kernel, hash: Hash, commands: seq<Command>, doc: Document, fates: nat -> Fate, at: nat, ending: Ending)
    requires ValidKernel(k) && ValidDocument(k, doc) && Injective(hash) && at <= |commands| && Run(k, commands[..at], Begin(doc)).Ok?
    requires var s := Run(k, commands[..at], Begin(doc)).value;
             ending == Ending(s.(doc := LeftBehind(k, s, commands, fates, at)),
                              if at == |commands| then Finished else if InDoubt(s, commands[at], fates(at)) then Ambiguous else Failed, at)
    ensures Accounts(k, commands, doc, fates, at, ending.s.doc, ReceiptOf(commands, ending, SceneOf(hash, doc), SceneOf(hash, ending.s.doc)))
  {
    hide Run, ValidKernel, ValidDocument, Injective, LeftBehind, InDoubt, OnlyFresh, OutputsAre, Borne, IsVerified, SentInOrder, SceneOf,
         ReconciledAliases, DeletesHold, Created, Modified, Deleted;
    var s := Run(k, commands[..at], Begin(doc)).value;
    RunIsInOrder(k, commands[..at], doc);
    LeftBehindKeeps(k, s, commands, fates, at);
    DeletesHoldAfter(k, commands[..at], doc, ending.s.doc);
    var doubt := if at < |commands| && InDoubt(s, commands[at], fates(at)) then Some(commands[at]) else None;
    MatchedOutputs(hash, commands, ending, doubt, s, doc);
    var outputs := ReconciledAliases(s.aliases, Created(SceneOf(hash, doc), SceneOf(hash, ending.s.doc)), ending, commands);
    BorneIsVerified(k, hash, commands, doc, s.sent, outputs, ending.s.doc);
  }

  /** Every receipt, whatever the batch, the document and the fates. `failed` is exactly a batch broken by a command that did
      not resolve, never left, was refused, or came back unreadable or without the ids it had to return. `reconciled` and
      `unknown` after a broken batch mean that its reply was lost, and `reconciled` that the document bears out all it should;
      `completed` that every command went through and the document bears it out. */
  lemma StatusMeans(k: Kernel, hash: Hash, commands: seq<Command>, doc: Document, fates: nat -> Fate) returns (at: nat)
    requires ValidKernel(k) && ValidDocument(k, doc) && Injective(hash)
    ensures StopsAfter(k, commands, doc, fates, at)
    ensures Accounts(k, commands, doc, fates, at, SendAll(k, commands, Begin(doc), fates, 0).s.doc, ReceiptFor(k, hash, commands, doc, fates))
  {
    hide Run, SendAll, ValidKernel, ValidDocument, Injective, LeftBehind, InDoubt, Accounts, ReceiptOf;
    assert Reaches(k, commands, doc, fates, 0) && Run(k, commands[..0], Begin(doc)) == Ok(Begin(doc)) by { StartReaches(k, commands, doc, fates); }
    at := LoopStops(k, commands, doc, fates, 0);
    ReachesRuns(k, commands, doc, fates, at);
    ReceiptAccounts(k, hash, commands, doc, fates, at, SendAll(k, commands, Begin(doc), fates, 0));
  }

  lemma StartReaches(k: Kernel, commands: seq<Command>, doc: Document, fates: nat -> Fate)
    ensures Reaches(k, commands, doc, fates, 0) && Run(k, commands[..0], Begin(doc)) == Ok(Begin(doc))
  {
    assert commands[..0] == [];
  }

  /** An execution has one stopping point. */
  lemma StopsOnce(k: Kernel, commands: seq<Command>, doc: Document, fates: nat -> Fate, at: nat, other: nat)
    requires StopsAfter(k, commands, doc, fates, at) && StopsAfter(k, commands, doc, fates, other)
    ensures at == other
  {
    hide Run;
    if at < other { ReachesLess(k, commands, doc, fates, other, at + 1); }
    if other < at { ReachesLess(k, commands, doc, fates, at, other + 1); }
  }

  lemma ReachesLess(k: Kernel, commands: seq<Command>, doc: Document, fates: nat -> Fate, at: nat, less: nat)
    requires less <= at <= |commands| && Reaches(k, commands, doc, fates, at)
    ensures Reaches(k, commands, doc, fates, less)
  {
    hide Run;
    assert commands[..at] == commands[..less] + commands[less..at];
    RunConcat(k, commands[..less], commands[less..at], Begin(doc));
  }
}
