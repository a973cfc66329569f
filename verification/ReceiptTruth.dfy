/** Receipts tell the truth: deltas, completed batches, and the reconciliation of a lone lost create. */
module ReceiptTruth {
  import opened Wrappers
  import opened Values
  import opened Operations
  import opened Normalization
  import opened Mapping
  import opened Host
  import opened Script
  import opened Plugin
  import opened Agreement
  import opened BatchAgreement
  import opened AliasSafety
  import opened Receipts
  import opened RunHistory

  /** The reported deltas are the true difference between the two documents. */
  lemma DeltaIsTrue(hash: Hash, before: Document, after: Document)
    requires Injective(hash)
    ensures var b, a := SceneOf(hash, before), SceneOf(hash, after);
            && Created(b, a) == after.objects.Keys - before.objects.Keys
            && Deleted(b, a) == before.objects.Keys - after.objects.Keys
            && Modified(b, a) == (set id | id in before.objects && id in after.objects && before.objects[id] != after.objects[id])
  {}

  /** The loop finishes exactly when every reply arrives and the whole run succeeds. */
  lemma {:induction false} FinishedIsRun(k: Kernel, commands: seq<Command>, s: RunState, fates: nat -> Fate, i: nat)
    requires i <= |commands|
    ensures var ending, run := SendAll(k, commands, s, fates, i), Run(k, commands[i..], s);
            && (ending.how == Finished <==> run.Ok? && forall j :: i <= j < |commands| ==> fates(j) == Answered)
            && (ending.how == Finished ==> ending.s == run.value)
            && (ending.how != Finished ==> ending.at < |commands|)
    decreases |commands| - i
  {
    hide RunCommand, HiddenEffect, ResolveParams;
    if i < |commands| {
      assert commands[i..][0] == commands[i] && commands[i..][1..] == commands[i + 1..];
      AnsweredIsRun(k, s, commands[i], fates(i));
      var next := SendOne(k, s, commands[i], fates(i));
      if next.Continue? {
        FinishedIsRun(k, commands, next.s, fates, i + 1);
      }
    }
  }

  lemma AnsweredIsRun(k: Kernel, s: RunState, c: Command, fate: Fate)
    ensures var step, run := SendOne(k, s, c, fate), RunCommand(k, s, c);
            && (step.Continue? <==> fate == Answered && run.Ok?)
            && (step.Continue? ==> step.s == run.value)
            && (step.Stop? ==> step.how != Finished)
  {
    hide HiddenEffect, PluginCall;
  }

  /** The receipt of one locked execution whose reads are complete. */
  function ReceiptFor(k: Kernel, hash: Hash, commands: seq<Command>, doc: Document, fates: nat -> Fate): Receipt {
    var ending := SendAll(k, commands, Begin(doc), fates, 0);
    ReceiptOf(commands, ending, SceneOf(hash, doc), SceneOf(hash, ending.s.doc))
  }

  /** Every bound id names an object of the document. */
  predicate BoundExist(aliases: Aliases, doc: Document) {
    forall a, i :: a in aliases && 0 <= i < |aliases[a]| ==> aliases[a][i] in doc.objects
  }

  /** The command edited an object that was there before, is still there, and is no longer the same. */
  predicate Edited(k: Kernel, sent: Sent, before: Document, after: Document) {
    var id := TextOf(sent.params, KeyId);
    k.canon(id) == id && id in before.objects && id in after.objects && before.objects[id] != after.objects[id]
  }

  predicate EditsShow(k: Kernel, sent: seq<Sent>, before: Document, after: Document) {
    forall j :: 0 <= j < |sent| && sent[j].name in EDITS && TextOf(sent[j].params, KeyId) != "" ==> Edited(k, sent[j], before, after)
  }

  /** What each delete named, in whatever spelling, is gone. */
  predicate DeletesHold(k: Kernel, sent: seq<Sent>, after: Document) {
    forall j :: 0 <= j < |sent| && sent[j].name == DeleteObject ==> k.canon(TextOf(sent[j].params, KeyId)) !in after.objects
  }

  /** The receipt's list of commands is the batch, each with its parameters under the bindings of its moment. */
  ghost predicate SentInOrder(k: Kernel, commands: seq<Command>, doc: Document, sent: seq<Sent>) {
    |sent| == |commands|
    && forall j :: 0 <= j < |commands| ==>
         && Run(k, commands[..j], Begin(doc)).Ok? && ResolvedAt(k, commands, Begin(doc), j).Ok?
         && sent[j] == Sent(commands[j].name, ResolvedAt(k, commands, Begin(doc), j).value)
  }

  lemma RunIsInOrder(k: Kernel, commands: seq<Command>, doc: Document)
    requires ValidKernel(k) && ValidDocument(k, doc) && Run(k, commands, Begin(doc)).Ok?
    ensures var s := Run(k, commands, Begin(doc)).value;
            SentInOrder(k, commands, doc, s.sent) && DeletesHold(k, s.sent, s.doc) && ValidDocument(k, s.doc)
  {
    hide Run, ResolvedAt, ValidKernel, ValidDocument;
    var s := Run(k, commands, Begin(doc)).value;
    RunSendsAll(k, commands, Begin(doc));
    RunKeeps(k, commands, Begin(doc));
    forall j | 0 <= j < |commands| ensures Run(k, commands[..j], Begin(doc)).Ok? && ResolvedAt(k, commands, Begin(doc), j).Ok?
      && s.sent[j] == Sent(commands[j].name, ResolvedAt(k, commands, Begin(doc), j).value)
    {
      SentIsResolved(k, commands, Begin(doc), j);
    }
    forall j | 0 <= j < |s.sent| && s.sent[j].name == DeleteObject ensures k.canon(TextOf(s.sent[j].params, KeyId)) !in s.doc.objects {
      DeletedIsGone(k, commands, Begin(doc), j);
    }
  }

  /** For documents with canonical ids the receipt's own check reads: something was bound or nothing had to be, every bound
      id exists, and every edit shows. Deletes never stand in the way. */
  lemma CheckMeans(k: Kernel, hash: Hash, commands: seq<Command>, before: Document, s: RunState)
    requires ValidDocument(k, before) && ValidDocument(k, s.doc) && Injective(hash)
    requires DeletesHold(k, s.sent, s.doc)
    ensures IsVerified(commands, s.sent, s.aliases, SceneOf(hash, before), SceneOf(hash, s.doc))
       <==> (AllIds(s.aliases) != {} || !SomeBind(commands)) && BoundExist(s.aliases, s.doc) && EditsShow(k, s.sent, before, s.doc)
  {
    var b, a := SceneOf(hash, before), SceneOf(hash, s.doc);
    var edits := SentIds(s.sent, EDITS);
    assert BoundExist(s.aliases, s.doc) <==> AllIds(s.aliases) <= a.Keys by {
      if AllIds(s.aliases) <= a.Keys {
        forall n, i | n in s.aliases && 0 <= i < |s.aliases[n]| ensures s.aliases[n][i] in s.doc.objects {
          assert s.aliases[n][i] in AllIds(s.aliases);
        }
      }
    }
    EditsInScenes(k, hash, s.sent, before, s.doc);
    DeletesInScenes(k, hash, s.sent, s.doc);
  }

  lemma EditsInScenes(k: Kernel, hash: Hash, sent: seq<Sent>, before: Document, after: Document)
    requires ValidDocument(k, before) && ValidDocument(k, after) && Injective(hash)
    ensures var b, a := SceneOf(hash, before), SceneOf(hash, after); var edits := SentIds(sent, EDITS);
            EditsShow(k, sent, before, after) <==> edits <= a.Keys && edits <= Modified(b, a)
  {
    var b, a := SceneOf(hash, before), SceneOf(hash, after);
    var edits := SentIds(sent, EDITS);
    if edits <= a.Keys && edits <= Modified(b, a) {
      forall j | 0 <= j < |sent| && sent[j].name in EDITS && TextOf(sent[j].params, KeyId) != "" ensures Edited(k, sent[j], before, after) {
        assert TextOf(sent[j].params, KeyId) in edits;
      }
    }
    if EditsShow(k, sent, before, after) {
      forall id | id in edits ensures id in a && id in Modified(b, a) {
        var j :| 0 <= j < |sent| && sent[j].name in EDITS && TextOf(sent[j].params, KeyId) == id && id != "";
        assert Edited(k, sent[j], before, after);
      }
    }
  }

  lemma DeletesInScenes(k: Kernel, hash: Hash, sent: seq<Sent>, after: Document)
    requires ValidDocument(k, after) && DeletesHold(k, sent, after)
    ensures SentIds(sent, {DeleteObject}) !! SceneOf(hash, after).Keys
  {
    forall id | id in SentIds(sent, {DeleteObject}) ensures id !in SceneOf(hash, after) {
      var j :| 0 <= j < |sent| && sent[j].name in {DeleteObject} && TextOf(sent[j].params, KeyId) == id && id != "";
      assert k.canon(id) !in after.objects;
    }
  }

  /** Exactly when an execution ends `completed`: every command was answered, and the after-scene shows every binding and
      every edit, an edit only of an object that the before-scene already had. */
  lemma CompletedIff(k: Kernel, hash: Hash, commands: seq<Command>, doc: Document, fates: nat -> Fate)
    requires ValidKernel(k) && ValidDocument(k, doc) && Injective(hash)
    ensures var ending := SendAll(k, commands, Begin(doc), fates, 0);
            ReceiptFor(k, hash, commands, doc, fates).status == Completed <==>
              && ending.how == Finished && (AllIds(ending.s.aliases) != {} || !SomeBind(commands))
              && BoundExist(ending.s.aliases, ending.s.doc) && EditsShow(k, ending.s.sent, doc, ending.s.doc)
  {
    hide Run, SendAll, ValidKernel, ValidDocument, IsVerified, BoundExist, EditsShow, AllIds, DeletesHold, SentInOrder, SceneOf;
    FinishedIsRun(k, commands, Begin(doc), fates, 0);
    assert commands[0..] == commands;
    var ending := SendAll(k, commands, Begin(doc), fates, 0);
    if ending.how == Finished {
      RunIsInOrder(k, commands, doc);
      CheckMeans(k, hash, commands, doc, ending.s);
    }
  }

  /** `completed` means: the whole batch ran once in order with its resolved parameters, and in the document every bound id
      exists, every edit changed an object that was there, and everything deleted is gone. */
  lemma CompletedMeans(k: Kernel, hash: Hash, commands: seq<Command>, doc: Document, fates: nat -> Fate)
    requires ValidKernel(k) && ValidDocument(k, doc) && Injective(hash)
    ensures var ending, receipt := SendAll(k, commands, Begin(doc), fates, 0), ReceiptFor(k, hash, commands, doc, fates);
            receipt.status == Completed ==>
              && Run(k, commands, Begin(doc)) == Ok(ending.s) && receipt.outputs == ending.s.aliases
              && SentInOrder(k, commands, doc, receipt.sent)
              && BoundExist(receipt.outputs, ending.s.doc) && EditsShow(k, receipt.sent, doc, ending.s.doc)
              && DeletesHold(k, receipt.sent, ending.s.doc)
  {
    hide Run, SendAll, ValidKernel, ValidDocument, IsVerified, BoundExist, EditsShow, AllIds, DeletesHold, SentInOrder, SceneOf;
    CompletedIff(k, hash, commands, doc, fates);
    FinishedIsRun(k, commands, Begin(doc), fates, 0);
    assert commands[0..] == commands;
    if ReceiptFor(k, hash, commands, doc, fates).status == Completed { RunIsInOrder(k, commands, doc); }
  }

  /** A completed receipt's document is the one the reference script would have produced. */
  lemma CompletedMatchesScript(k: Kernel, rules: TextRules, hash: Hash, ops: seq<Op>, doc: Document, fates: nat -> Fate)
    requires ValidKernel(k) && ValidDocument(k, doc) && BatchOk(rules, ops) && AllCompilable(ops) && BatchFresh(k, ops, doc.next)
    requires Injective(hash) && Compile(ops).Ok?
    ensures var ending := SendAll(k, Compile(ops).value, Begin(doc), fates, 0);
            var script := Interpret(k, ops, Start(doc));
            ReceiptFor(k, hash, Compile(ops).value, doc, fates).status == Completed ==>
              && script.Ok? && script.value.doc == ending.s.doc
              && forall a :: a in ending.s.aliases ==> a in script.value.aliases && script.value.aliases[a] == ending.s.aliases[a]
  {
    hide Run, SendAll, Interpret, ReceiptOf, Compile, SentInOrder, BoundExist, EditsShow, DeletesHold;
    CompletedMeans(k, hash, Compile(ops).value, doc, fates);
    BackendsAgree(k, rules, ops, doc);
  }

  // ---------------------------------------------------------------- a batch that edits what it made

  /** Operations whose outputs are all new objects. */
  predicate MakesNew(op: Op) {
    Binds(op) && !op.TransformInPlace?
  }

  /** One of the operation's commands for one of its targets. */
  lemma {:induction false} TargetCommandAt(op: Op, targets: seq<string>, t: nat)
    requires PerTarget(op) && t < |targets|
    ensures |TargetCommands(op, targets)| == |targets| && TargetCommands(op, targets)[t] == TargetCommand(op, targets[t])
  {
    hide TargetCommand;
    if t > 0 { TargetCommandAt(op, targets[1..], t - 1); }
    else if |targets| > 1 { TargetCommandAt(op, targets[1..], 0); }
  }

  lemma {:induction false} CompiledTarget(ops: seq<Op>, j: nat, t: nat)
    requires AllCompilable(ops) && Compile(ops).Ok? && j < |ops| && PerTarget(ops[j]) && t < |ops[j].targets|
    ensures exists m :: 0 <= m < |Compile(ops).value| && Compile(ops).value[m] == TargetCommand(ops[j], ops[j].targets[t])
  {
    hide CreateCommand, TargetCommand;
    if j == 0 {
      TargetCommandAt(ops[0], ops[0].targets, t);
      assert Compile(ops).value[t] == TargetCommand(ops[0], ops[0].targets[t]);
    } else {
      CompiledTarget(ops[1..], j - 1, t);
      var m :| 0 <= m < |Compile(ops[1..]).value| && Compile(ops[1..]).value[m] == TargetCommand(ops[j], ops[j].targets[t]);
      assert Compile(ops).value[|CompileOp(ops[0]).value| + m] == TargetCommand(ops[j], ops[j].targets[t]);
    }
  }

  predicate MakerFor(c: Command, alias: string) {
    c.bind == Some(alias) ==> c.name in MAKERS && c.field.Some?
  }

  lemma {:induction false} TargetBinds(op: Op, targets: seq<string>, alias: string)
    requires PerTarget(op) && (op.id == alias ==> MakesNew(op) || !Binds(op))
    ensures forall m :: 0 <= m < |TargetCommands(op, targets)| ==> MakerFor(TargetCommands(op, targets)[m], alias)
  {
    if targets != [] { TargetBinds(op, targets[1..], alias); }
  }

  lemma CompiledOpBinds(op: Op, alias: string)
    requires Compilable(op) && CompileOp(op).Ok? && (op.id == alias ==> MakesNew(op) || !Binds(op))
    ensures forall m :: 0 <= m < |CompileOp(op).value| ==> MakerFor(CompileOp(op).value[m], alias)
  {
    hide CreateParams, TargetCommands;
    if PerTarget(op) { TargetBinds(op, op.targets, alias); }
  }

  /** If every operation of that id makes new objects, so does every command that binds it. */
  lemma {:induction false} CompiledBinds(ops: seq<Op>, alias: string)
    requires AllCompilable(ops) && Compile(ops).Ok?
    requires forall n :: 0 <= n < |ops| && ops[n].id == alias ==> MakesNew(ops[n])
    ensures forall m :: 0 <= m < |Compile(ops).value| ==> MakerFor(Compile(ops).value[m], alias)
  {
    hide CompileOp, MakerFor;
    if ops != [] {
      CompiledOpBinds(ops[0], alias);
      CompiledBinds(ops[1..], alias);
    }
  }

  /** Resolving a `$name` in a scalar place. */
  lemma ResolvedReference(params: map<Key, Value>, aliases: Aliases, key: Key, name: string)
    requires ResolveParams(params, aliases).Ok? && key in params && params[key] == Str("$" + name)
    ensures |Lookup(aliases, name)| == 1
    ensures key in ResolveParams(params, aliases).value && ResolveParams(params, aliases).value[key] == Str(Lookup(aliases, name)[0])
  {
    var reference := "$" + name;
    assert reference[1..] == name;
    assert ResolveValue(params[key], aliases).Ok?;
  }

  /** The command edits an object that the run itself supplied: it is not in the document the run began with. */
  lemma EditsNewObject(k: Kernel, commands: seq<Command>, doc: Document, m: nat, alias: string)
    requires ValidKernel(k) && ValidDocument(k, doc) && Run(k, commands, Begin(doc)).Ok? && m < |commands|
    requires KeyId in commands[m].params && commands[m].params[KeyId] == Str("$" + alias)
    requires forall n :: 0 <= n < |commands| ==> MakerFor(commands[n], alias)
    ensures |Run(k, commands, Begin(doc)).value.sent| == |commands|
    ensures var sent := Run(k, commands, Begin(doc)).value.sent[m];
            sent.name == commands[m].name && TextOf(sent.params, KeyId) != "" && TextOf(sent.params, KeyId) !in doc.objects
  {
    hide Run, ResolveParams, ValidKernel, ValidDocument;
    SentIsResolved(k, commands, Begin(doc), m);
    var before := Run(k, commands[..m], Begin(doc)).value;
    assert forall n :: 0 <= n < |commands[..m]| ==> MakerFor(commands[..m][n], alias);
    MadeIdsAreNew(k, commands[..m], Begin(doc), alias, doc.next);
    ResolvedReference(commands[m].params, before.aliases, KeyId, alias);
    var id := Lookup(before.aliases, alias)[0];
    assert !Unsupplied(k, id, doc.next);
    NewIsAbsent(k, doc, id);
  }

  lemma NewIsAbsent(k: Kernel, doc: Document, id: string)
    requires ValidKernel(k) && ValidDocument(k, doc) && !Unsupplied(k, id, doc.next)
    ensures id !in doc.objects && id != ""
  {
    var n :| n >= doc.next && k.supply(n) == id;
    SupplyNotEmpty(k, n);
  }

  /** A batch that labels or transforms an object it made itself never ends `completed`, on any document and whatever the
      transport does. */
  lemma EditOfOwnObjectNeverCompletes(k: Kernel, rules: TextRules, hash: Hash, ops: seq<Op>, doc: Document, fates: nat -> Fate, i: nat, j: nat)
    requires ValidKernel(k) && ValidDocument(k, doc) && Injective(hash) && BatchOk(rules, ops) && AllCompilable(ops) && Compile(ops).Ok?
    requires i < j < |ops| && MakesNew(ops[i]) && (ops[j].SetAttributes? || ops[j].TransformInPlace?)
    requires "$" + ops[i].id in ops[j].targets
    ensures ReceiptFor(k, hash, Compile(ops).value, doc, fates).status != Completed
  {
    hide Run, SendAll, Compile, ValidKernel, ValidDocument, ReceiptFor, BatchOk, AllIds, BoundExist, MakerFor;
    var commands, alias := Compile(ops).value, ops[i].id;
    var ending := SendAll(k, commands, Begin(doc), fates, 0);
    CompletedIff(k, hash, commands, doc, fates);
    FinishedIsRun(k, commands, Begin(doc), fates, 0);
    assert commands[0..] == commands;
    if ending.how == Finished {
      IdsAreUnique(rules, ops);
      CompiledBinds(ops, alias);
      var t :| 0 <= t < |ops[j].targets| && ops[j].targets[t] == "$" + alias;
      CompiledTarget(ops, j, t);
      var m :| 0 <= m < |commands| && commands[m] == TargetCommand(ops[j], ops[j].targets[t]);
      EditCommand(ops[j], "$" + alias);
      EditsNewObject(k, commands, doc, m, alias);
      assert !Edited(k, ending.s.sent[m], doc, ending.s.doc);
    }
  }

  lemma EditCommand(op: Op, target: string)
    requires op.SetAttributes? || op.TransformInPlace?
    ensures var c := TargetCommand(op, target); c.name in EDITS && KeyId in c.params && c.params[KeyId] == Str(target)
  {}

  // ---------------------------------------------------------------- a lone create whose reply is lost

  /** The commands that return one new object, and the field of the reply that names it. */
  predicate MakesOne(name: CommandName, field: Key) {
    ((name == CreateObject || name == DuplicateObject) && field == KeyId) || (name == ExtrudeCurveCommand && field == KeyResultId)
  }

  predicate LoneCreate(commands: seq<Command>) {
    |commands| == 1 && commands[0].bind.Some? && commands[0].field.Some? && MakesOne(commands[0].name, commands[0].field.value)
  }

  /** What a create, duplicate or extrusion does to the document when the plugin accepts it: exactly one new object. */
  lemma CreateAddsOne(k: Kernel, doc: Document, name: CommandName, params: map<Key, Value>, field: Key)
    requires MakesOne(name, field) && ValidDocument(k, doc)
    ensures var reply := PluginCall(k, doc, name, params);
            reply.Ok? ==> && reply.value.1 == map[field := Str(k.supply(doc.next))]
                          && reply.value.0.objects.Keys == doc.objects.Keys + {k.supply(doc.next)}
                          && k.supply(doc.next) !in doc.objects
                          && forall id :: id in doc.objects ==> reply.value.0.objects[id] == doc.objects[id]
  {
    hide ShapeNamed, ShapeName, Primitive, Translated;
  }

  /** The receipt of a lost lone command when nothing reached the document. */
  lemma NothingCreated(commands: seq<Command>, ending: Ending, scene: Scene)
    requires LoneCreate(commands) && ending == Ending(ending.s, Ambiguous, 0) && ending.s.aliases == map[] && ending.s.sent == []
    ensures var receipt := ReceiptOf(commands, ending, scene, scene); receipt.status == Unknown && receipt.outputs == map[]
  {
    assert Created(scene, scene) == {} && AllIds(map[]) == {};
    assert commands[0].bind.Some?;
  }

  lemma OneAliasIds(bind: string, id: string)
    ensures AllIds(map[bind := [id]]) == {id}
  {
    var outputs: Aliases := map[bind := [id]];
    assert bind in outputs && outputs[bind][0] == id;
  }

  lemma OneCandidate(commands: seq<Command>, ending: Ending, id: string)
    requires LoneCreate(commands) && ending == Ending(ending.s, Ambiguous, 0)
    ensures ReconciledAliases(map[], {id}, ending, commands) == map[commands[0].bind.value := [id]]
  {
    assert AllIds(map[]) == {} && {id} - {} == {id};
    assert TheOnly({id}) == id;
  }

  /** The receipt of a lost lone command when exactly one object appeared. */
  lemma OneCreated(commands: seq<Command>, ending: Ending, before: Scene, after: Scene, id: string)
    requires LoneCreate(commands) && ending == Ending(ending.s, Ambiguous, 0) && ending.s.aliases == map[] && ending.s.sent == []
    requires after.Keys == before.Keys + {id} && id !in before && forall other :: other in before ==> after[other] == before[other]
    ensures var receipt := ReceiptOf(commands, ending, before, after);
            && receipt.status == Reconciled && receipt.outputs == map[commands[0].bind.value := [id]]
            && receipt.created == {id} && receipt.modified == {} && receipt.deleted == {}
  {
    hide ReconciledAliases, AllIds;
    assert Created(before, after) == {id};
    OneCandidate(commands, ending, id);
    OneAliasIds(commands[0].bind.value, id);
    assert SentIds([], EDITS) == {} && SentIds([], {DeleteObject}) == {};
    assert Modified(before, after) == {};
  }

  /** A lost lone create is reconciled if and only if the write took effect; the alias is then bound to the one
      new object, and otherwise nothing is bound and the status is unknown. */
  lemma LoneCreateReconciled(k: Kernel, hash: Hash, commands: seq<Command>, doc: Document, fates: nat -> Fate)
    requires ValidKernel(k) && ValidDocument(k, doc) && LoneCreate(commands)
    requires SendAll(k, commands, Begin(doc), fates, 0).how == Ambiguous
    ensures var ending, receipt := SendAll(k, commands, Begin(doc), fates, 0), ReceiptFor(k, hash, commands, doc, fates);
            && ending.at == 0
            && (receipt.status == Reconciled <==> ending.s.doc != doc)
            && (receipt.status == Reconciled ==>
                  && receipt.outputs == map[commands[0].bind.value := [k.supply(doc.next)]]
                  && receipt.created == {k.supply(doc.next)} && receipt.modified == {} && receipt.deleted == {})
            && (receipt.status != Reconciled ==> receipt.status == Unknown && receipt.outputs == map[])
  {
    hide PluginCall, ResolveParams, RunCommand, ReceiptOf, SendAll, ValidKernel;
    var c := commands[0];
    var ending := SendAll(k, commands, Begin(doc), fates, 0);
    LoneEnding(k, commands, doc, fates);
    var before, after := SceneOf(hash, doc), SceneOf(hash, ending.s.doc);
    if ending.s.doc == doc {
      NothingCreated(commands, ending, before);
    } else {
      CreateAddsOne(k, doc, c.name, ResolveParams(c.params, map[]).value, c.field.value);
      OneCreated(commands, ending, before, after, k.supply(doc.next));
    }
  }

  lemma LoneEnding(k: Kernel, commands: seq<Command>, doc: Document, fates: nat -> Fate)
    requires |commands| == 1 && SendAll(k, commands, Begin(doc), fates, 0).how == Ambiguous
    ensures var ending := SendAll(k, commands, Begin(doc), fates, 0);
            && ending == Ending(ending.s, Ambiguous, 0) && ending.s.aliases == map[] && ending.s.sent == []
            && ResolveParams(commands[0].params, map[]).Ok?
            && (ending.s.doc == doc || ending.s.doc == HiddenEffect(k, Begin(doc), commands[0].name, ResolveParams(commands[0].params, map[]).value))
  {
    hide PluginCall, ResolveParams, RunCommand, HiddenEffect;
  }
}
