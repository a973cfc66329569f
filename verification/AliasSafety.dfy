/** When execution can and cannot fail on an alias, and where the two backends part. */
module AliasSafety {
  import opened Wrappers
  import opened Values
  import opened Operations
  import opened Normalization
  import opened Mapping
  import opened Host
  import opened Script
  import opened Plugin
  import opened Agreement
  import opened BatchAgreement

  /** Operations that always bind exactly one id. */
  predicate SingleOutput(op: Op) {
    IsCreate(op) || ((op.TransformInPlace? || op.Duplicate? || op.ExtrudeCurve?) && |op.targets| == 1)
  }

  predicate ScalarSafe(target: string, singles: set<string>) {
    IsReference(target) ==> target[1..] in singles
  }

  /** `singles` and `binding` are the earlier ids that bind exactly one and at least one object. */
  predicate Safe(op: Op, singles: set<string>, binding: set<string>) {
    if IsCreate(op) then true
    else if PerTarget(op) then forall i :: 0 <= i < |op.targets| ==> ScalarSafe(op.targets[i], singles)
    else if op.BooleanDifference? then
      && (|op.targets| == 1 ==> ScalarSafe(op.targets[0], singles))
      && forall i :: 0 <= i < |op.cutters| ==> ListServed(op.cutters[i], binding)
    else forall i :: 0 <= i < |op.targets| ==> ListServed(op.targets[i], binding)
  }

  function Singles(op: Op): set<string> {
    if SingleOutput(op) then {op.id} else {}
  }

  /** A condition on the text of a batch: no reference names a delete or an attribute change, and every
      scalar reference names an operation with a single output. */
  predicate SafeFrom(ops: seq<Op>, singles: set<string>, binding: set<string>) {
    ops == [] || (Safe(ops[0], singles, binding) && SafeFrom(ops[1..], singles + Singles(ops[0]), binding + Binding(ops[0])))
  }

  ghost predicate Holds(aliases: Aliases, singles: set<string>, binding: set<string>, known: set<string>) {
    && aliases.Keys <= known
    && (forall a :: a in singles ==> a in aliases && |aliases[a]| == 1)
    && (forall a :: a in binding ==> a in aliases)
    && (forall a :: a in aliases ==> aliases[a] != [])
  }

  lemma PluginNeverBlamesAlias(k: Kernel, doc: Document, name: CommandName, params: map<Key, Value>)
    ensures PluginCall(k, doc, name, params) != Err(AliasFault)
  {
    hide ShapeNamed, ShapeName, Color, Vectors, NamedAll, AddObjects, DeleteEach, Primitive;
    forall items ensures NamedAll(k, doc, items) != Err(AliasFault) { NamedAllFault(k, doc, items); }
  }

  lemma NamedAllFault(k: Kernel, doc: Document, items: seq<Value>)
    ensures NamedAll(k, doc, items) != Err(AliasFault)
  {}

  /** Once a command's parameters resolve, it cannot fail on an alias; a bound command binds at least one id. */
  lemma ResolvedCommand(k: Kernel, c: RunState, command: Command)
    requires ResolveParams(command.params, c.aliases).Ok?
    ensures var run := RunCommand(k, c, command);
            && run != Err(AliasFault)
            && (run.Ok? && command.bind.None? ==> run.value.aliases == c.aliases)
            && (run.Ok? && command.bind.Some? ==>
                  exists ids: seq<string> :: ids != [] && run.value.aliases == Bound(c.aliases, command.bind, ids))
  {
    hide PluginCall, ResolveParams, ExtractIds;
    PluginNeverBlamesAlias(k, c.doc, command.name, ResolveParams(command.params, c.aliases).value);
  }

  lemma {:induction false} TargetsSafe(k: Kernel, op: Op, targets: seq<string>, c: RunState)
    requires PerTarget(op) && PlainText(op) && NoSelfReference(op, targets)
    requires ScalarsResolve(targets, c.aliases)
    ensures var run := Run(k, TargetCommands(op, targets), c);
            && run != Err(AliasFault)
            && (run.Ok? ==> forall a :: a != op.id ==> (a in run.value.aliases <==> a in c.aliases)
                                                       && (a in c.aliases ==> run.value.aliases[a] == c.aliases[a]))
            && (run.Ok? && targets != [] && Binds(op) ==> op.id in run.value.aliases && run.value.aliases[op.id] != [])
            && (run.Ok? && !Binds(op) ==> run.value.aliases == c.aliases)
    decreases |targets|
  {
    hide RunCommand, TargetCommand, ResolveText, ResolveParams, ScalarsResolve, PlainText;
    TargetCommandsUnfold(op, targets);
    if targets != [] {
      var command, rest := TargetCommand(op, targets[0]), TargetCommands(op, targets[1..]);
      assert ([command] + rest)[1..] == rest;
      TextsCons(k, targets, c.aliases);
      ResolveTargetCommand(op, targets[0], c.aliases);
      ResolvedCommand(k, c, command);
      CommandBind(op, targets[0]);
      if RunCommand(k, c, command).Ok? {
        var next := RunCommand(k, c, command).value;
        SameScalars(op, targets[1..], c.aliases, next.aliases);
        TargetsSafe(k, op, targets[1..], next);
      }
    }
  }

  lemma CommandBind(op: Op, target: string)
    requires PerTarget(op)
    ensures TargetCommand(op, target).bind == if Binds(op) then Some(op.id) else None
  {}

  lemma SameScalars(op: Op, targets: seq<string>, a: Aliases, b: Aliases)
    requires NoSelfReference(op, targets) && ScalarsResolve(targets, a)
    requires forall name :: name != op.id ==> (name in b <==> name in a) && (name in a ==> b[name] == a[name])
    ensures ScalarsResolve(targets, b)
  {
    forall i | 0 <= i < |targets| ensures ResolveText(targets[i], b) == ResolveText(targets[i], a) {}
  }

  lemma SafeScalarsResolve(targets: seq<string>, aliases: Aliases, singles: set<string>, binding: set<string>, known: set<string>)
    requires Holds(aliases, singles, binding, known)
    requires forall i :: 0 <= i < |targets| ==> ScalarSafe(targets[i], singles)
    ensures ScalarsResolve(targets, aliases)
  {}

  /** One operation with a single output binds one id. */
  lemma SingleBindsOne(k: Kernel, rules: TextRules, op: Op, c: RunState, known: set<string>)
    requires ValidKernel(k) && ValidDocument(k, c.doc) && SingleOutput(op) && OpOk(rules, op, known) && PlainText(op) && Compilable(op)
    requires c.aliases.Keys <= known && RunOp(k, op, c).Ok?
    ensures op.id in RunOp(k, op, c).value.aliases && |RunOp(k, op, c).value.aliases[op.id]| == 1
  {
    hide ValidKernel, ValidDocument, TargetStep, TargetSteps, RunCommand, CreatedGeometry, CreateCommand, TargetCommands, FieldsOk, TargetsOk,
         AliasOk;
    if IsCreate(op) {
      CreateAgrees(k, op, c);
      RunOne(k, CreateCommand(op), c);
    } else {
      SelfReferenceImpossible(rules, op, known);
      TargetsAgree(k, rules, op, op.targets, c);
      var id := Texts(k, op.targets, c.aliases)[0];
      TargetStepsUnfold(k, op, c.doc, Texts(k, op.targets, c.aliases));
      var first := TargetStep(k, op, c.doc, id).value;
      assert Texts(k, op.targets, c.aliases)[1..] == [];
      TargetStepsUnfold(k, op, first.doc, []);
      OneOutput(k, op, c.doc, id);
    }
  }

  lemma OneOutput(k: Kernel, op: Op, doc: Document, id: string)
    requires op.TransformInPlace? || op.Duplicate? || op.ExtrudeCurve?
    ensures TargetStep(k, op, doc, id).Ok? ==> |TargetStep(k, op, doc, id).value.output| == 1
  {}

  ghost predicate SafeConclusion(k: Kernel, op: Op, c: RunState, singles: set<string>, binding: set<string>, known: set<string>)
    requires Compilable(op)
  {
    var run := RunOp(k, op, c);
    && run != Err(AliasFault)
    && (run.Ok? ==> Holds(run.value.aliases, singles, binding + Binding(op), known + {op.id}))
  }

  lemma TargetOpSafe(k: Kernel, rules: TextRules, op: Op, c: RunState, singles: set<string>, binding: set<string>, known: set<string>)
    requires PerTarget(op) && OpOk(rules, op, known) && PlainText(op) && singles <= known && binding <= known
    requires Holds(c.aliases, singles, binding, known) && Safe(op, singles, binding)
    ensures SafeConclusion(k, op, c, singles, binding, known)
  {
    hide Run, TargetCommands, ScalarsResolve, FieldsOk, TargetsOk, AliasOk, PlainText;
    SelfReferenceImpossible(rules, op, known);
    SafeScalarsResolve(op.targets, c.aliases, singles, binding, known);
    HasTargets(rules, op, known);
    TargetsSafe(k, op, op.targets, c);
  }

  lemma CombineOpSafe(k: Kernel, rules: TextRules, op: Op, c: RunState, singles: set<string>, binding: set<string>, known: set<string>)
    requires op.BooleanUnion? || op.BooleanIntersection? || op.BooleanDifference?
    requires OpOk(rules, op, known) && singles <= known && binding <= known
    requires Holds(c.aliases, singles, binding, known) && Safe(op, singles, binding)
    ensures SafeConclusion(k, op, c, singles, binding, known)
  {
    hide Run, RunCommand, ResolveParams, StrValues, Expand, TargetsOk, AliasOk;
    if CombineCommand(op).Ok? {
      var command := CombineCommand(op).value;
      RunOne(k, command, c);
      if op.BooleanDifference? {
        ResolveDifferenceParams(op.targets[0], op.cutters, op.deleteInput, c.aliases);
        assert command.params == DifferenceParams(Str(op.targets[0]), StrValues(op.cutters), op.deleteInput);
      } else {
        ResolveListParams(op.targets, op.deleteInput, c.aliases);
        assert command.params == ListParams(StrValues(op.targets), op.deleteInput);
      }
      ResolvedCommand(k, c, command);
    }
  }

  lemma CreateOpSafe(k: Kernel, op: Op, c: RunState, singles: set<string>, binding: set<string>, known: set<string>)
    requires IsCreate(op) && Compilable(op) && op.id !in known && singles <= known && binding <= known
    requires Holds(c.aliases, singles, binding, known)
    ensures SafeConclusion(k, op, c, singles, binding, known)
  {
    hide RunCommand, ResolveParams, CreateCommand;
    CreateParamsPlain(op);
    ResolvePlain(Dict(CreateCommand(op).params), c.aliases);
    RunOne(k, CreateCommand(op), c);
    CreateResolves(op, c.aliases);
    ResolvedCommand(k, c, CreateCommand(op));
    CreateBind(op);
  }

  lemma CreateBind(op: Op)
    requires IsCreate(op) && Compilable(op)
    ensures CreateCommand(op).bind == Some(op.id)
  {}

  lemma CreateResolves(op: Op, aliases: Aliases)
    requires IsCreate(op) && Compilable(op) && ResolveValue(Dict(CreateCommand(op).params), aliases) == Ok(Dict(CreateCommand(op).params))
    ensures ResolveParams(CreateCommand(op).params, aliases).Ok?
  {
    hide CreateCommand, ResolveValue;
  }

  lemma OpSafe(k: Kernel, rules: TextRules, op: Op, c: RunState, singles: set<string>, binding: set<string>, known: set<string>)
    requires OpOk(rules, op, known) && Compilable(op) && PlainText(op) && singles <= known && binding <= known
    requires Holds(c.aliases, singles, binding, known) && Safe(op, singles, binding)
    ensures SafeConclusion(k, op, c, singles, binding, known)
  {
    hide SafeConclusion, Holds, Safe, OpOk, PlainText;
    if IsCreate(op) {
      IdIsNew(rules, op, known);
      CreateOpSafe(k, op, c, singles, binding, known);
    } else if PerTarget(op) {
      TargetOpSafe(k, rules, op, c, singles, binding, known);
    } else {
      CombineOpSafe(k, rules, op, c, singles, binding, known);
    }
  }

  // ---------------------------------------------------------------- the document stays valid

  lemma CombineKeeps(k: Kernel, doc: Document, how: Combination, left: seq<string>, right: seq<string>, deleteSources: bool)
    requires ValidKernel(k) && ValidDocument(k, doc) && AllPresent(doc, left) && AllPresent(doc, right)
    ensures var reply := PluginCombine(k, doc, how, left, right, deleteSources);
            reply.Ok? ==> ValidDocument(k, reply.value.0) && OnlyFresh(k, doc, reply.value.0)
  {
    hide AddObjects, DeleteEach, Unsupplied, ValidDocument;
    var pieces := k.combine(how, Geometries(doc, left), Geometries(doc, right));
    AddKeeps(k, doc, pieces);
    DeleteEachKeeps(k, AddObjects(k, doc, pieces).0, if deleteSources then left + right else []);
  }

  lemma BooleanKeeps(k: Kernel, doc: Document, name: CommandName, params: map<Key, Value>)
    requires ValidKernel(k) && ValidDocument(k, doc)
    ensures var reply := PluginBoolean(k, doc, name, params);
            reply.Ok? ==> ValidDocument(k, reply.value.0) && OnlyFresh(k, doc, reply.value.0)
  {
    hide PluginCombine, ValidDocument, OnlyFresh;
    if PluginBoolean(k, doc, name, params).Ok? {
      var deleteSources := KeyDeleteSources in params && params[KeyDeleteSources] == Bool(true);
      if name == DifferenceCommand {
        CombineKeeps(k, doc, Difference, [Named(k, doc, params, KeyBaseId).value],
                     NamedAll(k, doc, Field(params, KeySubtractIds).items).value, deleteSources);
      } else {
        CombineKeeps(k, doc, if name == UnionCommand then Union else Intersection,
                     NamedAll(k, doc, Field(params, KeyObjectIds).items).value, [], deleteSources);
      }
    }
  }

  /** A plugin command keeps the document valid and brings in no id but newly supplied ones. */
  lemma PluginKeeps(k: Kernel, doc: Document, name: CommandName, params: map<Key, Value>)
    requires ValidKernel(k) && ValidDocument(k, doc)
    ensures var reply := PluginCall(k, doc, name, params);
            reply.Ok? ==> ValidDocument(k, reply.value.0) && OnlyFresh(k, doc, reply.value.0)
  {
    hide PluginBoolean, ShapeNamed, ShapeName, Primitive, AddObjects, Color, Vectors;
    BooleanKeeps(k, doc, name, params);
    if name == OffsetCurveCommand && Named(k, doc, params, KeyCurveId).Ok? {
      var id := Named(k, doc, params, KeyCurveId).value;
      AddKeeps(k, doc, k.offset(doc.objects[id].geometry, NumberOr(params, KeyDistance, 0.0), VectorOr(params, KeyPlane, ORIGIN)));
    }
  }

  /** Every alias of `a` keeps its ids, in front, in `b`. */
  predicate Extends(a: Aliases, b: Aliases) {
    forall name :: name in a ==> name in b && a[name] <= b[name]
  }

  lemma BoundExtends(a: Aliases, bind: Option<string>, ids: seq<string>)
    ensures Extends(a, Bound(a, bind, ids))
  {}

  /** A command run keeps the document valid, brings in no id but newly supplied ones, and only extends the bindings. */
  lemma {:induction false} RunKeeps(k: Kernel, commands: seq<Command>, c: RunState)
    requires ValidKernel(k) && ValidDocument(k, c.doc)
    ensures var run := Run(k, commands, c);
            run.Ok? ==> ValidDocument(k, run.value.doc) && OnlyFresh(k, c.doc, run.value.doc) && Extends(c.aliases, run.value.aliases)
    decreases |commands|
  {
    hide PluginCall, ResolveParams, ExtractIds, ValidKernel, ValidDocument, OnlyFresh, Bound;
    if commands == [] {
      assert OnlyFresh(k, c.doc, c.doc) by { OnlyFreshSame(k, c.doc); }
    } else if RunCommand(k, c, commands[0]).Ok? {
      var next := RunCommand(k, c, commands[0]).value;
      var params := ResolveParams(commands[0].params, c.aliases).value;
      PluginKeeps(k, c.doc, commands[0].name, params);
      BoundExtends(c.aliases, commands[0].bind, ExtractIds(PluginCall(k, c.doc, commands[0].name, params).value.1, commands[0].field));
      RunKeeps(k, commands[1..], next);
      if Run(k, commands, c).Ok? { OnlyFreshTransitive(k, c.doc, next.doc, Run(k, commands, c).value.doc); }
    }
  }

  lemma OnlyFreshSame(k: Kernel, doc: Document)
    ensures OnlyFresh(k, doc, doc)
  {}

  // ---------------------------------------------------------------- whole batches

  predicate AllPlainText(ops: seq<Op>) {
    forall i :: 0 <= i < |ops| ==> PlainText(ops[i])
  }

  lemma RunNothing(k: Kernel, c: RunState)
    ensures RunBatch(k, [], c) == Ok(c)
  {}

  lemma {:induction false} SuffixSafe(k: Kernel, rules: TextRules, ops: seq<Op>, c: RunState,
                                      singles: set<string>, binding: set<string>, known: set<string>)
    requires ValidKernel(k) && ValidDocument(k, c.doc) && AllCompilable(ops) && BatchOkAfter(rules, ops, known) && AllPlainText(ops)
    requires singles <= known && binding <= known && Holds(c.aliases, singles, binding, known) && SafeFrom(ops, singles, binding)
    ensures RunBatch(k, ops, c) != Err(AliasFault)
    decreases |ops|
  {
    hide ValidKernel, ValidDocument, OpOk, BatchOkAfter, Run, CompileOp, Safe, PlainText, Compilable;
    if ops != [] {
      var op := ops[0];
      BatchHead(rules, ops, known);
      OpSafe(k, rules, op, c, singles, binding, known);
      if CompileOp(op).Ok? && Compile(ops[1..]).Ok? {
        RunConcat(k, CompileOp(op).value, Compile(ops[1..]).value, c);
        if RunOp(k, op, c).Ok? {
          RunKeeps(k, CompileOp(op).value, c);
          if SingleOutput(op) { SingleBindsOne(k, rules, op, c, known); }
          assert RunBatch(k, ops, c) == RunBatch(k, ops[1..], RunOp(k, op, c).value);
          SuffixSafe(k, rules, ops[1..], RunOp(k, op, c).value, singles + Singles(op), binding + Binding(op), known + {op.id});
        }
      }
      CompileNeverBlamesAlias(ops);
    } else {
      RunNothing(k, c);
    }
  }

  lemma {:induction false} CompileNeverBlamesAlias(ops: seq<Op>)
    requires AllCompilable(ops)
    ensures Compile(ops) != Err(AliasFault)
    ensures ops != [] ==> CompileOp(ops[0]) != Err(AliasFault)
  {
    hide CreateCommand, TargetCommands;
    if ops != [] { CompileNeverBlamesAlias(ops[1..]); }
  }

  /** A normalised batch that passes the textual check never fails on an alias, whatever the document holds. */
  lemma SafeBatchNeverFailsOnAlias(k: Kernel, rules: TextRules, ops: seq<Op>, doc: Document)
    requires ValidKernel(k) && ValidDocument(k, doc) && BatchOk(rules, ops) && AllCompilable(ops) && AllPlainText(ops)
    requires SafeFrom(ops, {}, {})
    ensures RunBatch(k, ops, Begin(doc)) != Err(AliasFault)
  {
    BatchOkIsAfterNothing(rules, ops);
    SuffixSafe(k, rules, ops, Begin(doc), {}, {}, {});
  }

  // ---------------------------------------------------------------- where the check fails

  /** A reference to a delete or to an attribute change is never served. */
  lemma {:induction false} ServedNamesBinding(ops: seq<Op>, binding: set<string>, aliases: Aliases, j: nat, name: string)
    requires j < |ops| && ServedFrom(ops, binding, aliases) && Mentions(ops[j], name)
    ensures name in binding || exists i :: 0 <= i < j && ops[i].id == name && Binds(ops[i])
    decreases |ops|
  {
    hide ScalarServed, ListServed, Mentions;
    if j == 0 {
      ServedMention(ops[0], binding, aliases, name);
    } else {
      ServedNamesBinding(ops[1..], binding + Binding(ops[0]), aliases, j - 1, name);
      if i :| 0 <= i < j - 1 && ops[1..][i].id == name && Binds(ops[1..][i]) {
        assert ops[i + 1].id == name && Binds(ops[i + 1]);
      } else if name !in binding {
        assert ops[0].id == name && Binds(ops[0]);
      }
    }
  }

  lemma ServedMention(op: Op, binding: set<string>, aliases: Aliases, name: string)
    requires Served(op, binding, aliases) && Mentions(op, name)
    ensures name in binding
  {
    var reference := "$" + name;
    assert IsReference(reference) && reference[1..] == name;
    if reference in Targets(op) {
      var i :| 0 <= i < |op.targets| && op.targets[i] == reference;
    } else {
      var i :| 0 <= i < |Cutters(op)| && Cutters(op)[i] == reference;
    }
  }

  /** The command list cannot run a batch that refers to a delete or an attribute change. */
  lemma UnboundReferenceNeverRuns(k: Kernel, rules: TextRules, ops: seq<Op>, doc: Document, i: nat, j: nat)
    requires ValidKernel(k) && ValidDocument(k, doc) && BatchOk(rules, ops) && AllCompilable(ops) && BatchFresh(k, ops, doc.next)
    requires i < j < |ops| && (ops[i].Delete? || ops[i].SetAttributes?) && Mentions(ops[j], ops[i].id)
    ensures RunBatch(k, ops, Begin(doc)).Err?
  {
    hide RunBatch, Interpret, BatchOk, BatchFresh, ValidKernel, ValidDocument, ServedFrom, Mentions;
    BackendsAgree(k, rules, ops, doc);
    if RunBatch(k, ops, Begin(doc)).Ok? {
      ServedNamesBinding(ops, {}, Interpret(k, ops, Start(doc)).value.aliases, j, ops[i].id);
      IdsAreUnique(rules, ops);
    }
  }
}
