/** Where the command list and the reference script part: batches that one of them runs and the other does not, or runs
    to another document. */
module Divergence {
  import opened Wrappers
  import opened Values
  import opened Operations
  import opened Normalization
  import opened Mapping
  import opened Host
  import opened Script
  import opened Plugin
  import opened Agreement
  import opened BatchAgreement
  import opened AliasSafety

  // ---------------------------------------------------------------- names and layers that look like references

  /** No bound id starts with the reference sign. */
  predicate NoReferenceIds(aliases: Aliases) {
    forall a, i :: a in aliases && 0 <= i < |aliases[a]| ==> !IsReference(aliases[a][i])
  }

  /** A text that looks like a reference never resolves to itself. */
  lemma ReferenceIsReplaced(params: map<Key, Value>, key: Key, text: string, aliases: Aliases)
    requires NoReferenceIds(aliases) && key in params && params[key] == Str(text) && IsReference(text)
    requires ResolveParams(params, aliases).Ok?
    ensures var r := ResolveParams(params, aliases).value; key in r && r[key].Str? && !IsReference(r[key].s)
  {
    assert ResolveValue(params[key], aliases).Ok?;
  }

  lemma TargetIsResolved(params: map<Key, Value>, target: string, aliases: Aliases)
    requires KeyId in params && params[KeyId] == Str(target) && ResolveParams(params, aliases).Ok? && ResolveText(target, aliases).Ok?
    ensures var r := ResolveParams(params, aliases).value; KeyId in r && r[KeyId] == Str(ResolveText(target, aliases).value)
  {
    assert ResolveValue(params[KeyId], aliases).Ok?;
  }

  lemma UpdateShows(op: Op, target: string)
    requires op.SetAttributes?
    ensures var params := TargetCommand(op, target).params;
            && KeyId in params && params[KeyId] == Str(target) && TargetCommand(op, target).name == UpdateObjectAttributes
            && (op.name.Some? ==> KeyNewName in params && params[KeyNewName] == Str(op.name.value))
            && (op.layer.Some? ==> KeyLayer in params && params[KeyLayer] == Str(op.layer.value))
  {
    hide IntValues;
  }

  /** What an update leaves in the named object. */
  lemma UpdateWrites(k: Kernel, doc: Document, params: map<Key, Value>)
    requires PluginUpdate(k, doc, params).Ok? && KeyId in params && params[KeyId].Str?
    ensures var after, id := PluginUpdate(k, doc, params).value.0, k.canon(params[KeyId].s);
            && id in after.objects
            && (KeyNewName in params && params[KeyNewName].Str? ==> after.objects[id].attributes.name == params[KeyNewName].s)
            && (KeyLayer in params && params[KeyLayer].Str? ==> after.objects[id].attributes.layer == params[KeyLayer].s)
  {
    hide Color;
  }

  /** The plain-text condition is exact for one command: when a name or layer looks like a reference, the script accepts
      it as it is, and the command either fails or leaves another document. */
  lemma DollarTextDiverges(k: Kernel, s: RunState, op: Op, target: string)
    requires op.SetAttributes? && !PlainText(op) && NoReferenceIds(s.aliases)
    requires ResolveText(target, s.aliases).Ok? && k.canon(ResolveText(target, s.aliases).value) in s.doc.objects
    ensures var id := k.canon(ResolveText(target, s.aliases).value);
            var step, run := TargetStep(k, op, s.doc, id), RunCommand(k, s, TargetCommand(op, target));
            step.Ok? && (run.Err? || run.value.doc != step.value.doc)
  {
    hide ResolveParams, ResolveText, PluginUpdate, TargetCommand;
    var id, run := k.canon(ResolveText(target, s.aliases).value), RunCommand(k, s, TargetCommand(op, target));
    UpdateShows(op, target);
    if run.Ok? {
      var sent := TargetCommand(op, target).params;
      var params := ResolveParams(sent, s.aliases).value;
      TargetIsResolved(sent, target, s.aliases);
      UpdateWrites(k, s.doc, params);
      if op.name.Some? && IsReference(op.name.value) { ReferenceIsReplaced(sent, KeyNewName, op.name.value, s.aliases); }
      if op.layer.Some? && IsReference(op.layer.value) { ReferenceIsReplaced(sent, KeyLayer, op.layer.value, s.aliases); }
      var step := TargetStep(k, op, s.doc, id).value;
      assert step.doc.objects[id].attributes.name != run.value.doc.objects[id].attributes.name
          || step.doc.objects[id].attributes.layer != run.value.doc.objects[id].attributes.layer;
    }
  }

  // ---------------------------------------------------------------- two-operation batches

  /** A text that may name an operation, and may be referred to. */
  predicate Nameable(rules: TextRules, a: string) {
    AliasOk(rules, a) && !rules.isSpace('$')
  }

  lemma ReferenceOk(rules: TextRules, a: string, aliases: set<string>)
    requires Nameable(rules, a) && a in aliases
    ensures TargetsOk(rules, ["$" + a], aliases) && IsReference("$" + a) && ("$" + a)[1..] == a && BoundedText(rules, "$" + a)
  {
    var text := "$" + a;
    assert text[0] == '$' && text[1..] == a;
  }

  lemma PairOk(rules: TextRules, first: Op, second: Op)
    requires OpOk(rules, first, {}) && OpOk(rules, second, {first.id})
    ensures BatchOk(rules, [first, second]) && AllCompilable([first, second])
  {
    var ops := [first, second];
    assert ops[..0] == [] && IdsOf([]) == {};
    assert ops[..1] == [first];
    assert IdsOf([first]) == {first.id} by { assert [first][0].id in IdsOf([first]); }
    forall i | 0 <= i < |ops| ensures OpOk(rules, ops[i], IdsOf(ops[..i])) {}
    BatchCompilable(rules, ops);
  }

  /** Two operations interpreted one after the other. */
  lemma InterpretPair(k: Kernel, first: Op, second: Op, doc: Document)
    requires Compilable(first) && Compilable(second)
    ensures var s := Start(doc);
            var a := OpStep(k, first, s.doc, s.aliases);
            a.Ok? ==>
              var s' := Advance(s, first, a.value);
              var b := OpStep(k, second, s'.doc, s'.aliases);
              b.Ok? ==> Interpret(k, [first, second], s) == Ok(Advance(s', second, b.value))
  {
    hide OpStep, Advance;
    var ops := [first, second];
    assert ops[1..] == [second] && ops[1..][1..] == [];
    var s := Start(doc);
    if OpStep(k, first, s.doc, s.aliases).Ok? {
      var s' := Advance(s, first, OpStep(k, first, s.doc, s.aliases).value);
      assert Interpret(k, ops, s) == Interpret(k, ops[1..], s');
      if OpStep(k, second, s'.doc, s'.aliases).Ok? {
        var t := Advance(s', second, OpStep(k, second, s'.doc, s'.aliases).value);
        assert Interpret(k, ops[1..], s') == Interpret(k, ops[1..][1..], t);
      }
    }
  }

  lemma SingleTarget(op: Op, target: string)
    requires PerTarget(op) && op.targets == [target]
    ensures CompileOp(op) == Ok([TargetCommand(op, target)])
  {
    hide TargetCommand;
    assert op.targets[1..] == [] && TargetCommands(op, []) == [];
    assert [TargetCommand(op, target)] + [] == [TargetCommand(op, target)];
  }

  /** An operation of one command runs as that command. */
  lemma RunSingle(k: Kernel, op: Op, c: RunState, command: Command)
    requires Compilable(op) && CompileOp(op) == Ok([command])
    ensures RunOp(k, op, c) == RunCommand(k, c, command)
  {
    RunOne(k, command, c);
  }

  /** Likewise the script's step for one target. */
  lemma StepSingle(k: Kernel, op: Op, doc: Document, aliases: Aliases, target: string, id: string)
    requires PerTarget(op) && Compilable(op) && op.targets == [target] && Ids(k, doc, aliases, [target]) == Ok([id])
    requires TargetStep(k, op, doc, id).Ok?
    ensures var step, one := OpStep(k, op, doc, aliases), TargetStep(k, op, doc, id);
            step.Ok? && step.value.doc == one.value.doc && step.value.output == one.value.output
  {
    hide TargetStep, Ids;
    assert [id][1..] == [];
    TargetStepsUnfold(k, op, doc, [id]);
    TargetStepsUnfold(k, op, TargetStep(k, op, doc, id).value.doc, []);
  }

  lemma ReferenceIds(k: Kernel, doc: Document, aliases: Aliases, a: string, id: string)
    requires a in aliases && aliases[a] == [id]
    ensures Ids(k, doc, aliases, ["$" + a]) == Ok([id]) && ResolveText("$" + a, aliases) == Ok(id)
  {
    var text := "$" + a;
    var none: seq<string> := [];
    assert text[1..] == a && [text][1..] == none;
    assert Ids(k, doc, aliases, []) == Ok([]);
    assert [id] + [] == [id];
  }

  /** Two operations sent one after the other. */
  lemma RunPair(k: Kernel, first: Op, second: Op, c: RunState)
    requires AllCompilable([first, second])
    ensures Compilable(first) && Compilable(second)
    ensures var ops, a := [first, second], RunOp(k, first, c);
            a.Ok? ==> var b := RunOp(k, second, a.value);
                      (RunBatch(k, ops, c).Ok? <==> b.Ok?) && (b.Ok? ==> RunBatch(k, ops, c).value == b.value)
  {
    hide RunOp, RunBatch, Compilable;
    assert Compilable([first, second][0]) && Compilable([first, second][1]);
    assert [first, second][1..] == [second] && [second][1..] == [];
    RunBatchCons(k, [first, second], c);
    if RunOp(k, first, c).Ok? {
      var next := RunOp(k, first, c).value;
      RunBatchCons(k, [second], next);
      if RunOp(k, second, next).Ok? { RunNothing(k, RunOp(k, second, next).value); }
    }
  }

  /** What the creation of one object leaves in either backend. */
  lemma CreateStep(k: Kernel, op: Op, doc: Document)
    requires ValidKernel(k) && IsCreate(op) && Compilable(op)
    ensures var (added, id) := AddObject(k, doc, CreatedGeometry(op), k.defaults);
            && OpStep(k, op, doc, map[]).Ok? && OpStep(k, op, doc, map[]).value.doc == added && OpStep(k, op, doc, map[]).value.output == [id]
            && RunOp(k, op, Begin(doc)).Ok? && RunOp(k, op, Begin(doc)).value.doc == added
            && RunOp(k, op, Begin(doc)).value.aliases == map[op.id := [id]]
            && id == k.supply(doc.next) && id in added.objects && k.canon(id) == id
  {
    hide CreatedGeometry, CreateCommand, RunCommand, Run;
    CreateAgrees(k, op, Begin(doc));
    RunSingle(k, op, Begin(doc), CreateCommand(op));
    assert [] + [k.supply(doc.next)] == [k.supply(doc.next)];
  }

  lemma DollarUpdateRuns(k: Kernel, s: RunState, b: string, a: string, id: string)
    requires a in s.aliases && s.aliases[a] == [id] && k.canon(id) == id && id in s.doc.objects
    ensures var op := SetAttributes(b, ["$" + a], Some("$" + a), None, None, None); RunCommand(k, s, TargetCommand(op, "$" + a)).Ok?
  {
    var op, text := SetAttributes(b, ["$" + a], Some("$" + a), None, None, None), "$" + a;
    var params := TargetCommand(op, text).params;
    assert text[1..] == a && params == map[KeyNewName := Str(text), KeyId := Str(text)];
    assert ResolveValue(Str(text), s.aliases) == Ok(Str(id));
    ResolveDict(params, map[KeyNewName := Str(id), KeyId := Str(id)], s.aliases);
  }

  /** The smallest such batch: on every document, create an object and name it after its own reference. Both backends
      finish, and never with the same document. */
  lemma DollarBatchDiverges(k: Kernel, rules: TextRules, doc: Document, a: string, b: string, p: Vec3)
    requires ValidKernel(k) && Nameable(rules, a) && AliasOk(rules, b) && a != b && !IsReference(k.supply(doc.next))
    ensures var ops := [CreatePoint(a, p), SetAttributes(b, ["$" + a], Some("$" + a), None, None, None)];
            && BatchOk(rules, ops) && AllCompilable(ops)
            && Interpret(k, ops, Start(doc)).Ok? && RunBatch(k, ops, Begin(doc)).Ok?
            && RunBatch(k, ops, Begin(doc)).value.doc != Interpret(k, ops, Start(doc)).value.doc
  {
    hide ValidKernel, TargetStep, RunCommand, TargetCommand, CreateCommand, OpStep, Run, RunBatch, Interpret, Compile, CompileOp, Ids, ResolveText,
         CreatedGeometry, TargetsOk, BatchOk;
    var first, second := CreatePoint(a, p), SetAttributes(b, ["$" + a], Some("$" + a), None, None, None);
    var id := k.supply(doc.next);
    ReferenceOk(rules, a, {a});
    PairOk(rules, first, second);
    CreateStep(k, first, doc);
    var c := RunOp(k, first, Begin(doc)).value;
    ReferenceIds(k, c.doc, c.aliases, a, id);
    DollarTextDiverges(k, c, second, "$" + a);
    DollarUpdateRuns(k, c, b, a, id);
    SingleTarget(second, "$" + a);
    RunSingle(k, second, c, TargetCommand(second, "$" + a));
    StepSingle(k, second, c.doc, c.aliases, "$" + a, id);
    InterpretPair(k, first, second, doc);
    RunPair(k, first, second, Begin(doc));
    assert Advance(Start(doc), first, OpStep(k, first, doc, map[]).value).aliases == c.aliases;
  }

  // ---------------------------------------------------------------- references that the command list cannot serve

  /** A literal target that may be given and names an object. */
  predicate Literal(k: Kernel, rules: TextRules, doc: Document, g: string) {
    !IsReference(g) && rules.isGuid(g) && BoundedText(rules, g) && k.canon(g) in doc.objects
  }

  lemma LiteralIds(k: Kernel, rules: TextRules, doc: Document, aliases: Aliases, g: string)
    requires Literal(k, rules, doc, g)
    ensures Ids(k, doc, aliases, [g]) == Ok([k.canon(g)]) && TargetsOk(rules, [g], {})
  {
    assert [g][1..] == [] && Ids(k, doc, aliases, []) == Ok([]);
    assert [k.canon(g)] + [] == [k.canon(g)];
  }

  function Relabel(id: string, target: string, name: string): Op {
    SetAttributes(id, [target], Some(name), None, None, None)
  }

  lemma RelabelStep(k: Kernel, id: string, doc: Document, target: string, name: string, g: string)
    requires g in doc.objects
    ensures var step := TargetStep(k, Relabel(id, target, name), doc, g);
            step.Ok? && step.value.output == [g] && g in step.value.doc.objects
  {}

  /** The script accepts a reference to an attribute change, which the command list can never serve: on every document
      with an object `g`, relabelling `g` and then relabelling `$a` runs as a script and fails as commands. */
  lemma UnboundReferenceSplits(k: Kernel, rules: TextRules, doc: Document, a: string, b: string, g: string, m: string, n: string)
    requires ValidKernel(k) && ValidDocument(k, doc) && Literal(k, rules, doc, g)
    requires Nameable(rules, a) && AliasOk(rules, b) && a != b
    requires BoundedText(rules, m) && BoundedText(rules, n) && !IsReference(m) && !IsReference(n)
    ensures var ops := [Relabel(a, g, m), Relabel(b, "$" + a, n)];
            && BatchOk(rules, ops) && AllCompilable(ops)
            && Interpret(k, ops, Start(doc)).Ok? && RunBatch(k, ops, Begin(doc)).Err?
  {
    hide TargetStep, OpStep, RunBatch, Interpret, Ids, TargetsOk, BatchOk, BoundedText, ValidKernel;
    var first, second, id := Relabel(a, g, m), Relabel(b, "$" + a, n), k.canon(g);
    LiteralIds(k, rules, doc, map[], g);
    ReferenceOk(rules, a, {a});
    PairOk(rules, first, second);
    RelabelStep(k, a, doc, g, m, id);
    StepSingle(k, first, doc, map[], g, id);
    var s := Advance(Start(doc), first, OpStep(k, first, doc, map[]).value);
    RelabelStep(k, b, s.doc, "$" + a, n, id);
    ReferenceIds(k, s.doc, s.aliases, a, id);
    StepSingle(k, second, s.doc, s.aliases, "$" + a, id);
    InterpretPair(k, first, second, doc);
    var ops := [first, second];
    assert ops[1] == second && "$" + a in Targets(second);
    LiteralsAreOld(k, doc, first, second, g, a);
    UnboundReferenceNeverRuns(k, rules, ops, doc, 0, 1);
  }

  lemma LiteralsAreOld(k: Kernel, doc: Document, first: Op, second: Op, g: string, a: string)
    requires ValidDocument(k, doc) && k.canon(g) in doc.objects && first.SetAttributes? && second.SetAttributes?
    requires first.targets == [g] && second.targets == ["$" + a] && PlainText(first) && PlainText(second)
    ensures BatchFresh(k, [first, second], doc.next)
  {
    assert IsReference("$" + a);
  }

  /** A scalar reference to several objects fails on the alias: two copies under one id, then a move of that id. The
      textual check refuses the batch, and no document lets it run. */
  lemma ManyCopiesFailOnAlias(k: Kernel, rules: TextRules, doc: Document, a: string, b: string, g: string, offset: Vec3)
    requires ValidKernel(k) && ValidDocument(k, doc) && Literal(k, rules, doc, g)
    requires Nameable(rules, a) && AliasOk(rules, b) && a != b
    ensures var ops := [Duplicate(a, [g, g], None), TransformInPlace(b, ["$" + a], Translation(offset), None)];
            && BatchOk(rules, ops) && AllCompilable(ops) && !SafeFrom(ops, {}, {})
            && RunBatch(k, ops, Begin(doc)) == Err(AliasFault)
  {
    hide RunBatch, Ids, TargetsOk, BatchOk, BoundedText, ValidKernel, ValidDocument, RunCommand, TargetCommand, Run, TargetStep;
    var first, second := Duplicate(a, [g, g], None), TransformInPlace(b, ["$" + a], Translation(offset), None);
    ReferenceOk(rules, a, {a});
    assert TargetsOk(rules, [g, g], {}) by { TwiceOk(rules, g); }
    PairOk(rules, first, second);
    var ops := [first, second];
    assert ops[1..] == [second];
    DuplicatesTwo(k, rules, first, doc, g);
    var c := RunOp(k, first, Begin(doc)).value;
    assert !ScalarSafe("$" + a, {}) && Singles(first) == {};
    SingleTarget(second, "$" + a);
    ResolveTargetCommand(second, "$" + a, c.aliases);
    MoveFails(k, second, a, c);
    FailSecond(k, first, second, Begin(doc));
  }

  lemma TwiceOk(rules: TextRules, g: string)
    requires !IsReference(g) && rules.isGuid(g) && BoundedText(rules, g)
    ensures TargetsOk(rules, [g, g], {})
  {}

  lemma MoveFails(k: Kernel, op: Op, a: string, c: RunState)
    requires PerTarget(op) && PlainText(op) && Compilable(op) && op.targets == ["$" + a] && |Lookup(c.aliases, a)| != 1
    ensures RunOp(k, op, c) == Err(AliasFault)
  {
    hide TargetCommand, ResolveParams, PluginCall;
    var text := "$" + a;
    assert text[1..] == a;
    ResolveTargetCommand(op, text, c.aliases);
    SingleTarget(op, text);
    RunSingle(k, op, c, TargetCommand(op, text));
  }

  lemma FailSecond(k: Kernel, first: Op, second: Op, c: RunState)
    requires AllCompilable([first, second]) && Compilable(first) && Compilable(second)
    requires CompileOp(second).Ok? && RunOp(k, first, c).Ok? && RunOp(k, second, RunOp(k, first, c).value).Err?
    ensures RunBatch(k, [first, second], c) == Err(RunOp(k, second, RunOp(k, first, c).value).error)
  {
    hide Run;
    assert [first, second][1..] == [second] && [second][1..] == [];
    var one, two := CompileOp(first).value, CompileOp(second).value;
    assert Compile([second]) == Ok(two + []) && two + [] == two;
    assert Compile([first, second]) == Ok(one + two);
    RunConcat(k, one, two, c);
  }

  lemma DuplicatesTwo(k: Kernel, rules: TextRules, op: Op, doc: Document, g: string)
    requires ValidKernel(k) && ValidDocument(k, doc) && op.Duplicate? && op.targets == [g, g] && Literal(k, rules, doc, g)
    ensures RunOp(k, op, Begin(doc)).Ok? && |Lookup(RunOp(k, op, Begin(doc)).value.aliases, op.id)| == 2
  {
    hide Run, RunCommand, TargetCommand, ValidKernel, ValidDocument;
    TargetsAgree(k, rules, op, [g, g], Begin(doc));
    var id := k.canon(g);
    assert Texts(k, [g, g], map[]) == [id, id];
    DuplicateSteps(k, op, doc, id);
  }

  lemma DuplicateSteps(k: Kernel, op: Op, doc: Document, id: string)
    requires op.Duplicate? && id in doc.objects
    ensures TargetSteps(k, op, doc, [id, id]).Ok? && |TargetSteps(k, op, doc, [id, id]).value.output| == 2
  {
    TargetStepsUnfold(k, op, doc, [id, id]);
    var next := TargetStep(k, op, doc, id).value.doc;
    assert [id, id][1..] == [id] && [id][1..] == [];
    TargetStepsUnfold(k, op, next, [id]);
    TargetStepsUnfold(k, op, TargetStep(k, op, next, id).value.doc, []);
  }
}
