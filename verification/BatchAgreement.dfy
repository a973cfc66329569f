/** From one operation to a whole batch: when the command list succeeds and that it then equals the script. */
module BatchAgreement {
  import opened Wrappers
  import opened Values
  import opened Operations
  import opened Normalization
  import opened Mapping
  import opened Host
  import opened Script
  import opened Plugin
  import opened Agreement

  // ---------------------------------------------------------------- which references the resolver can serve

  predicate ScalarServed(target: string, binding: set<string>, aliases: Aliases) {
    IsReference(target) ==> target[1..] in binding && |Lookup(aliases, target[1..])| == 1
  }

  predicate ListServed(target: string, binding: set<string>) {
    IsReference(target) ==> target[1..] in binding
  }

  /** `binding` holds the ids of the earlier operations whose commands return ids. */
  predicate Served(op: Op, binding: set<string>, aliases: Aliases) {
    if IsCreate(op) then true
    else if PerTarget(op) then forall i :: 0 <= i < |op.targets| ==> ScalarServed(op.targets[i], binding, aliases)
    else if op.BooleanDifference? then
      && |op.targets| == 1 && ScalarServed(op.targets[0], binding, aliases)
      && forall i :: 0 <= i < |op.cutters| ==> ListServed(op.cutters[i], binding)
    else forall i :: 0 <= i < |op.targets| ==> ListServed(op.targets[i], binding)
  }

  function Binding(op: Op): set<string> {
    if Binds(op) then {op.id} else {}
  }

  predicate ServedFrom(ops: seq<Op>, binding: set<string>, aliases: Aliases) {
    ops == [] || (Served(ops[0], binding, aliases) && ServedFrom(ops[1..], binding + Binding(ops[0]), aliases))
  }

  ghost predicate CanonicalIds(k: Kernel, ids: seq<string>) {
    ids != [] && forall i :: 0 <= i < |ids| ==> k.canon(ids[i]) == ids[i]
  }

  /** The command run `c` and the script state `s` after the same operations. */
  ghost predicate Related(k: Kernel, c: RunState, s: State, binding: set<string>, known: set<string>) {
    && c.doc == s.doc && ValidDocument(k, s.doc)
    && s.aliases.Keys == known && c.aliases.Keys == binding && binding <= known
    && (forall a :: a in binding ==> c.aliases[a] == s.aliases[a])
    && (forall a :: a in known ==> CanonicalIds(k, s.aliases[a]))
  }

  ghost predicate LiteralsUnsupplied(k: Kernel, op: Op, from: nat) {
    && (forall i :: 0 <= i < |Targets(op)| && !IsReference(Targets(op)[i]) ==> Unsupplied(k, k.canon(Targets(op)[i]), from))
    && (forall i :: 0 <= i < |Cutters(op)| && !IsReference(Cutters(op)[i]) ==> Unsupplied(k, k.canon(Cutters(op)[i]), from))
  }

  function RunOp(k: Kernel, op: Op, c: RunState): Result<RunState>
    requires Compilable(op)
  {
    var commands :- CompileOp(op);
    Run(k, commands, c)
  }

  ghost predicate OpConclusion(k: Kernel, op: Op, c: RunState, s: State, binding: set<string>, known: set<string>)
    requires Compilable(op)
  {
    var run, step := RunOp(k, op, c), OpStep(k, op, s.doc, s.aliases);
    && (run.Ok? <==> step.Ok? && Served(op, binding, s.aliases))
    && (run.Ok? ==> Related(k, run.value, Advance(s, op, step.value), binding + Binding(op), known + {op.id})
                    && s.doc.next <= run.value.doc.next)
  }

  // ---------------------------------------------------------------- creates

  /** Binding an operation's outputs under its own, new, id keeps the two alias tables related. */
  lemma BindRelated(k: Kernel, op: Op, c: RunState, s: State, c': RunState, e: Effect, binding: set<string>, known: set<string>)
    requires Related(k, c, s, binding, known) && op.id !in known
    requires c'.doc == e.doc && ValidDocument(k, e.doc) && CanonicalIds(k, e.output)
    requires c'.aliases == BindOutput(c.aliases, op, e.output)
    ensures Related(k, c', Advance(s, op, e), binding + Binding(op), known + {op.id})
  {
    hide ValidDocument, CanonicalIds;
    assert Lookup(c.aliases, op.id) == [];
    assert [] + e.output == e.output;
  }

  lemma CreateOpAgrees(k: Kernel, op: Op, c: RunState, s: State, binding: set<string>, known: set<string>)
    requires ValidKernel(k) && IsCreate(op) && Compilable(op) && Related(k, c, s, binding, known) && op.id !in known
    ensures OpConclusion(k, op, c, s, binding, known)
  {
    hide RunCommand, CreatedGeometry, CreateCommand, Run, Related;
    CreateAgrees(k, op, c);
    RunOne(k, CreateCommand(op), c);
    RelatedFacts(k, c, s, binding, known);
    var step := OpStep(k, op, s.doc, s.aliases).value;
    AddObjectsValid(k, s.doc, []);
    BindRelated(k, op, c, s, RunCommand(k, c, CreateCommand(op)).value, step, binding, known);
  }

  lemma RunOne(k: Kernel, command: Command, c: RunState)
    ensures Run(k, [command], c) == RunCommand(k, c, command)
  {
    hide RunCommand;
    assert [command][1..] == [];
  }

  lemma RelatedFacts(k: Kernel, c: RunState, s: State, binding: set<string>, known: set<string>)
    requires Related(k, c, s, binding, known)
    ensures c.doc == s.doc && ValidDocument(k, s.doc)
  {}

  // ---------------------------------------------------------------- per-target operations

  lemma {:induction false} LiteralsPresent(k: Kernel, op: Op, doc: Document, ids: seq<string>)
    requires ValidKernel(k) && ValidDocument(k, doc) && PerTarget(op) && TargetSteps(k, op, doc, ids).Ok?
    ensures forall i :: 0 <= i < |ids| && Unsupplied(k, ids[i], doc.next) ==> ids[i] in doc.objects
    decreases |ids|
  {
    hide TargetStep, TargetSteps, ValidDocument;
    TargetStepsUnfold(k, op, doc, ids);
    if ids != [] {
      var first := TargetStep(k, op, doc, ids[0]).value;
      StepKeeps(k, op, doc, ids[0]);
      StepNeedsObject(k, op, doc, ids[0]);
      LiteralsPresent(k, op, first.doc, ids[1..]);
      forall i | 0 <= i < |ids| && Unsupplied(k, ids[i], doc.next) ensures ids[i] in doc.objects {
        if i > 0 {
          assert ids[i] == ids[1..][i - 1];
          assert Unsupplied(k, ids[i], first.doc.next);
        }
      }
    }
  }

  lemma StepNeedsObject(k: Kernel, op: Op, doc: Document, id: string)
    requires PerTarget(op)
    ensures TargetStep(k, op, doc, id).Ok? ==> id in doc.objects
  {}

  /** Outputs are canonical ids and the document stays valid. */
  lemma StepOutputs(k: Kernel, op: Op, doc: Document, id: string)
    requires ValidKernel(k) && ValidDocument(k, doc) && PerTarget(op)
    ensures var step := TargetStep(k, op, doc, id); step.Ok? ==> CanonicalIds(k, step.value.output)
  {
    if op.OffsetCurve? && id in doc.objects {
      AddObjectsValid(k, doc, k.offset(doc.objects[id].geometry, op.distance, op.normal));
    }
  }

  lemma {:induction false} StepsOutputs(k: Kernel, op: Op, doc: Document, ids: seq<string>)
    requires ValidKernel(k) && ValidDocument(k, doc) && PerTarget(op) && ids != []
    ensures var steps := TargetSteps(k, op, doc, ids);
            steps.Ok? ==> CanonicalIds(k, steps.value.output) && ValidDocument(k, steps.value.doc) && doc.next <= steps.value.doc.next
    decreases |ids|
  {
    hide TargetStep, TargetSteps, ValidDocument;
    TargetStepsUnfold(k, op, doc, ids);
    if TargetSteps(k, op, doc, ids).Ok? {
      StepKeeps(k, op, doc, ids[0]);
      StepOutputs(k, op, doc, ids[0]);
      var first := TargetStep(k, op, doc, ids[0]).value;
      TargetStepsUnfold(k, op, first.doc, ids[1..]);
      if ids[1..] != [] {
        StepsOutputs(k, op, first.doc, ids[1..]);
      }
    }
  }

  lemma ScalarsServed(targets: seq<string>, c: RunState, s: State, binding: set<string>)
    requires c.aliases.Keys == binding && binding <= s.aliases.Keys
    requires forall a :: a in binding ==> c.aliases[a] == s.aliases[a]
    ensures ScalarsResolve(targets, c.aliases) <==> forall i :: 0 <= i < |targets| ==> ScalarServed(targets[i], binding, s.aliases)
  {
    forall i | 0 <= i < |targets|
      ensures ResolveText(targets[i], c.aliases).Ok? <==> ScalarServed(targets[i], binding, s.aliases) {}
  }

  /** Served scalar targets resolve up front to the same ids, provided every literal is present. */
  lemma {:induction false} IdsOfScalars(k: Kernel, targets: seq<string>, c: RunState, s: State, binding: set<string>, known: set<string>)
    requires ValidKernel(k) && Related(k, c, s, binding, known)
    requires forall i :: 0 <= i < |targets| ==> ScalarServed(targets[i], binding, s.aliases)
    ensures var ids := Ids(k, s.doc, s.aliases, targets);
            && (ids.Ok? ==> ids.value == Texts(k, targets, c.aliases))
            && (ids.Ok? <==> forall i :: 0 <= i < |targets| && !IsReference(targets[i]) ==> k.canon(targets[i]) in s.doc.objects)
    decreases |targets|
  {
    hide ValidKernel, ValidDocument;
    if targets != [] {
      forall i | 0 <= i < |targets[1..]| ensures ScalarServed(targets[1..][i], binding, s.aliases) {
        assert targets[1..][i] == targets[i + 1];
      }
      IdsOfScalars(k, targets[1..], c, s, binding, known);
      TextsCons(k, targets, c.aliases);
      assert forall i :: 0 < i < |targets| ==> targets[i] == targets[1..][i - 1];
      var texts := Texts(k, targets, c.aliases);
      assert [texts[0]] + texts[1..] == texts;
      if IsReference(targets[0]) {
        var name := targets[0][1..];
        assert CanonicalIds(k, s.aliases[name]);
        assert s.aliases[name] == [texts[0]];
      }
    }
  }

  /** Once its references are served, the script's operation is its loop over the resolved targets. */
  lemma ServedStep(k: Kernel, op: Op, c: RunState, s: State, binding: set<string>, known: set<string>)
    requires ValidKernel(k) && PerTarget(op) && Related(k, c, s, binding, known)
    requires Served(op, binding, s.aliases) && LiteralsUnsupplied(k, op, s.doc.next)
    ensures var steps := TargetSteps(k, op, s.doc, Texts(k, op.targets, c.aliases));
            var step := OpStep(k, op, s.doc, s.aliases);
            (step.Ok? <==> steps.Ok?) && (step.Ok? ==> step.value == steps.value)
  {
    hide TargetSteps, Ids, Texts, ValidKernel, ValidDocument, ScalarServed;
    IdsOfScalars(k, op.targets, c, s, binding, known);
    var texts := Texts(k, op.targets, c.aliases);
    if TargetSteps(k, op, s.doc, texts).Ok? {
      LiteralsPresent(k, op, s.doc, texts);
      forall i | 0 <= i < |op.targets| && !IsReference(op.targets[i]) ensures k.canon(op.targets[i]) in s.doc.objects {
        TextsAt(k, op.targets, c.aliases, i);
        assert Unsupplied(k, k.canon(Targets(op)[i]), s.doc.next);
      }
    }
  }

  lemma TargetOpAgrees(k: Kernel, rules: TextRules, op: Op, c: RunState, s: State, binding: set<string>, known: set<string>)
    requires ValidKernel(k) && PerTarget(op) && Related(k, c, s, binding, known) && OpOk(rules, op, known)
    requires PlainText(op) && LiteralsUnsupplied(k, op, s.doc.next)
    ensures OpConclusion(k, op, c, s, binding, known)
  {
    hide Run, TargetCommands, TargetSteps, OpStep, Texts, ValidKernel, FieldsOk, PlainText, ScalarServed, ScalarsResolve,
         AliasOk, TargetsOk, LiteralsUnsupplied, BindOutput;
    SelfReferenceImpossible(rules, op, known);
    TargetsAgree(k, rules, op, op.targets, c);
    ScalarsServed(op.targets, c, s, binding);
    if Served(op, binding, s.aliases) {
      ServedStep(k, op, c, s, binding, known);
      var texts := Texts(k, op.targets, c.aliases);
      if OpStep(k, op, s.doc, s.aliases).Ok? {
        HasTargets(rules, op, known);
        StepsOutputs(k, op, s.doc, texts);
        BindRelated(k, op, c, s, RunOp(k, op, c).value, OpStep(k, op, s.doc, s.aliases).value, binding, known);
      }
    }
  }

  lemma HasTargets(rules: TextRules, op: Op, known: set<string>)
    requires OpOk(rules, op, known) && !IsCreate(op)
    ensures op.targets != []
  {}

  lemma TextsAt(k: Kernel, targets: seq<string>, aliases: Aliases, i: nat)
    requires i < |targets| && !IsReference(targets[i])
    ensures Texts(k, targets, aliases)[i] == k.canon(targets[i])
  {
    assert ResolveText(targets[i], aliases) == Ok(targets[i]);
  }

  lemma SelfReferenceImpossible(rules: TextRules, op: Op, known: set<string>)
    requires OpOk(rules, op, known) && !IsCreate(op)
    ensures NoSelfReference(op, op.targets)
  {
    forall i | 0 <= i < |op.targets| && IsReference(op.targets[i]) ensures op.targets[i][1..] != op.id {
      assert TargetOk(rules, op.targets[i], known);
    }
  }

  // ---------------------------------------------------------------- boolean operations

  /** The texts a list of targets expands to. */
  function Expand(targets: seq<string>, aliases: Aliases): seq<string> {
    if targets == [] then [] else
    (if IsReference(targets[0]) then Lookup(aliases, targets[0][1..]) else [targets[0]]) + Expand(targets[1..], aliases)
  }

  lemma StrValuesConcat(a: seq<string>, b: seq<string>)
    ensures StrValues(a).items + StrValues(b).items == StrValues(a + b).items
  {}

  lemma {:induction false} ResolveTargetList(targets: seq<string>, aliases: Aliases)
    requires forall a :: a in aliases ==> aliases[a] != []
    ensures var r := ResolveItems(StrValues(targets).items, aliases);
            && (r.Ok? <==> forall i :: 0 <= i < |targets| ==> ListServed(targets[i], aliases.Keys))
            && (r.Ok? ==> r.value == StrValues(Expand(targets, aliases)).items)
    decreases |targets|
  {
    if targets != [] {
      var items := StrValues(targets).items;
      assert items[1..] == StrValues(targets[1..]).items && items[0] == Str(targets[0]);
      ResolveTargetList(targets[1..], aliases);
      assert forall i :: 0 < i < |targets| ==> targets[i] == targets[1..][i - 1];
      if IsReference(targets[0]) {
        StrValuesConcat(Lookup(aliases, targets[0][1..]), Expand(targets[1..], aliases));
      } else {
        assert ResolveValue(items[0], aliases) == Ok(items[0]);
        StrValuesConcat([targets[0]], Expand(targets[1..], aliases));
        assert StrValues([targets[0]]).items == [items[0]];
      }
    }
  }

  function CanonAll(k: Kernel, texts: seq<string>): seq<string> {
    MapSeq(k.canon, texts)
  }

  lemma CanonAllConcat(k: Kernel, a: seq<string>, b: seq<string>)
    ensures CanonAll(k, a + b) == CanonAll(k, a) + CanonAll(k, b)
  {}

  lemma AllPresentConcat(doc: Document, a: seq<string>, b: seq<string>)
    ensures AllPresent(doc, a + b) ==> AllPresent(doc, a) && AllPresent(doc, b)
  {
    var all := a + b;
    assert forall i :: 0 <= i < |a| ==> all[i] == a[i];
    assert forall i :: 0 <= i < |b| ==> all[|a| + i] == b[i];
  }

  lemma CanonicalStays(k: Kernel, ids: seq<string>)
    requires CanonicalIds(k, ids)
    ensures CanonAll(k, ids) == ids
  {}

  /** Looking every expanded target up at once is the script's resolution followed by its lookups. */
  lemma {:induction false} IdsOfList(k: Kernel, doc: Document, aliases: Aliases, targets: seq<string>)
    requires forall i :: 0 <= i < |targets| && IsReference(targets[i]) ==> targets[i][1..] in aliases
    requires forall a :: a in aliases ==> CanonicalIds(k, aliases[a])
    ensures var ids, all := Ids(k, doc, aliases, targets), CanonAll(k, Expand(targets, aliases));
            && (ids.Ok? ==> ids.value == all)
            && (AllPresent(doc, all) ==> ids.Ok?)
    decreases |targets|
  {
    hide AllPresent, CanonicalIds, CanonAll;
    if targets == [] {
      assert CanonAll(k, []) == [] by { ExpandNone(k, aliases); }
    } else {
      assert forall i :: 0 < i < |targets| ==> targets[i] == targets[1..][i - 1];
      IdsOfList(k, doc, aliases, targets[1..]);
      var rest := Expand(targets[1..], aliases);
      if IsReference(targets[0]) {
        var first := aliases[targets[0][1..]];
        CanonAllConcat(k, first, rest);
        CanonicalStays(k, first);
        AllPresentConcat(doc, first, CanonAll(k, rest));
      } else {
        CanonAllConcat(k, [targets[0]], rest);
        CanonOne(k, doc, targets[0]);
        AllPresentConcat(doc, CanonAll(k, [targets[0]]), CanonAll(k, rest));
      }
    }
  }

  lemma CanonOne(k: Kernel, doc: Document, text: string)
    ensures CanonAll(k, [text]) == [k.canon(text)]
    ensures AllPresent(doc, [k.canon(text)]) ==> k.canon(text) in doc.objects
  {
    assert AllPresent(doc, [k.canon(text)]) ==> [k.canon(text)][0] in doc.objects;
  }

  lemma NamedAllIsPresent(k: Kernel, doc: Document, texts: seq<string>)
    ensures var r := NamedAll(k, doc, StrValues(texts).items);
            && (r.Ok? <==> AllPresent(doc, CanonAll(k, texts)))
            && (r.Ok? ==> r.value == CanonAll(k, texts))
  {
    var r := NamedAll(k, doc, StrValues(texts).items);
    if AllPresent(doc, CanonAll(k, texts)) {
      forall i | 0 <= i < |texts| ensures k.canon(texts[i]) in doc.objects {
        assert CanonAll(k, texts)[i] == k.canon(texts[i]);
      }
    }
    if r.Ok? { assert r.value == CanonAll(k, texts); }
  }

  lemma {:induction false} DeleteEachKeeps(k: Kernel, doc: Document, ids: seq<string>)
    requires ValidDocument(k, doc)
    ensures var after := DeleteEach(doc, ids).0;
            ValidDocument(k, after) && after.next == doc.next && after.objects.Keys <= doc.objects.Keys
    decreases |ids|
  {
    if ids != [] {
      DeleteEachKeeps(k, RemoveObject(doc, ids[0]), ids[1..]);
      DeleteEachKeeps(k, doc, ids[1..]);
    }
  }

  function HowOf(op: Op): Combination {
    if op.BooleanUnion? then Union else if op.BooleanIntersection? then Intersection else Difference
  }

  /** The plugin's boolean is the script's, on the same operands. */
  lemma CombineAgrees(k: Kernel, op: Op, doc: Document, left: seq<string>, right: seq<string>)
    requires ValidKernel(k) && ValidDocument(k, doc)
    requires op.BooleanUnion? || op.BooleanIntersection? || op.BooleanDifference?
    requires AllPresent(doc, left) && AllPresent(doc, right)
    ensures var step := CombineStep(k, op, doc, left, right);
            var reply := PluginCombine(k, doc, HowOf(op), left, right, op.deleteInput);
            && (step.Ok? <==> reply.Ok?)
            && (step.Ok? ==> && reply.value.0 == step.value.doc
                             && ExtractIds(reply.value.1, Some(KeyResultIds)) == step.value.output
                             && CanonicalIds(k, step.value.output)
                             && ValidDocument(k, step.value.doc) && doc.next <= step.value.doc.next)
  {
    hide AddObjects, NonEmptyTexts, DeleteEach;
    var pieces := k.combine(HowOf(op), Geometries(doc, left), Geometries(doc, right));
    AddObjectsValid(k, doc, pieces);
    CreatedTexts(k, doc, pieces);
    DeleteEachKeeps(k, AddObjects(k, doc, pieces).0, if op.deleteInput then left + right else []);
  }


  function ListParams(ids: Value, deleteInput: bool): map<Key, Value> {
    map[KeyObjectIds := ids, KeyDeleteSources := Bool(deleteInput)]
  }

  function DifferenceParams(base: Value, cutters: Value, deleteInput: bool): map<Key, Value> {
    map[KeyBaseId := base, KeySubtractIds := cutters, KeyDeleteSources := Bool(deleteInput)]
  }

  lemma ResolveListParams(targets: seq<string>, deleteInput: bool, aliases: Aliases)
    requires forall a :: a in aliases ==> aliases[a] != []
    ensures var r := ResolveParams(ListParams(StrValues(targets), deleteInput), aliases);
            && (r.Ok? <==> forall i :: 0 <= i < |targets| ==> ListServed(targets[i], aliases.Keys))
            && (r.Ok? ==> r.value == ListParams(StrValues(Expand(targets, aliases)), deleteInput))
  {
    hide ResolveItems, Expand, ListServed, StrValues;
    var params := ListParams(StrValues(targets), deleteInput);
    ResolveTargetList(targets, aliases);
    StrValuesIsList(targets);
    StrValuesIsList(Expand(targets, aliases));
    assert ResolveValue(params[KeyDeleteSources], aliases) == Ok(Bool(deleteInput));
    if ResolveItems(StrValues(targets).items, aliases).Ok? {
      ResolveDict(params, ListParams(StrValues(Expand(targets, aliases)), deleteInput), aliases);
    } else {
      assert KeyObjectIds in params && !ResolveValue(params[KeyObjectIds], aliases).Ok?;
    }
  }

  lemma StrValuesIsList(texts: seq<string>)
    ensures StrValues(texts).List?
  {}

  lemma ResolveDifferenceParams(base: string, cutters: seq<string>, deleteInput: bool, aliases: Aliases)
    requires forall a :: a in aliases ==> aliases[a] != []
    ensures var r := ResolveParams(DifferenceParams(Str(base), StrValues(cutters), deleteInput), aliases);
            var text := ResolveText(base, aliases);
            && (r.Ok? <==> text.Ok? && forall i :: 0 <= i < |cutters| ==> ListServed(cutters[i], aliases.Keys))
            && (r.Ok? ==> r.value == DifferenceParams(Str(text.value), StrValues(Expand(cutters, aliases)), deleteInput))
  {
    hide ResolveItems, Expand, ListServed, ResolveText, StrValues;
    var params := DifferenceParams(Str(base), StrValues(cutters), deleteInput);
    ResolveTargetList(cutters, aliases);
    StrValuesIsList(cutters);
    StrValuesIsList(Expand(cutters, aliases));
    assert ResolveValue(params[KeyDeleteSources], aliases) == Ok(Bool(deleteInput));
    var text := ResolveText(base, aliases);
    assert ResolveValue(params[KeyBaseId], aliases) == if text.Ok? then Ok(Str(text.value)) else Err(text.error);
    if text.Err? {
      assert KeyBaseId in params && !ResolveValue(params[KeyBaseId], aliases).Ok?;
    } else if ResolveItems(StrValues(cutters).items, aliases).Ok? {
      ResolveDict(params, DifferenceParams(Str(text.value), StrValues(Expand(cutters, aliases)), deleteInput), aliases);
    } else {
      assert KeySubtractIds in params && !ResolveValue(params[KeySubtractIds], aliases).Ok?;
    }
  }

  /** The plugin call behind a boolean command, for either parameter shape. */
  lemma BooleanReplies(k: Kernel, op: Op, doc: Document, left: seq<string>, right: seq<string>)
    requires op.BooleanUnion? || op.BooleanIntersection? || op.BooleanDifference?
    requires if op.BooleanDifference? then |left| == 1 else right == []
    ensures var params := if op.BooleanDifference? then DifferenceParams(Str(left[0]), StrValues(right), op.deleteInput)
                          else ListParams(StrValues(left), op.deleteInput);
            var name := if op.BooleanUnion? then UnionCommand else if op.BooleanIntersection? then IntersectionCommand else DifferenceCommand;
            var reply := PluginBoolean(k, doc, name, params);
            var a, b := CanonAll(k, left), CanonAll(k, right);
            if AllPresent(doc, a) && AllPresent(doc, b) then reply == PluginCombine(k, doc, HowOf(op), a, b, op.deleteInput)
            else reply.Err?
  {
    hide PluginCombine, NamedAll, StrValues;
    NamedAllIsPresent(k, doc, left);
    NamedAllIsPresent(k, doc, right);
    StrValuesIsList(left);
    StrValuesIsList(right);
    if op.BooleanDifference? {
      assert CanonAll(k, left) == [k.canon(left[0])];
    } else {
      assert CanonAll(k, right) == [];
    }
  }

  /** The two sides of a boolean operation in the script, once every reference is served. */
  lemma BooleanStep(k: Kernel, rules: TextRules, op: Op, s: State, known: set<string>)
    requires op.BooleanUnion? || op.BooleanIntersection? || op.BooleanDifference?
    requires OpOk(rules, op, known) && s.aliases.Keys == known && forall a :: a in known ==> CanonicalIds(k, s.aliases[a])
    ensures var left, right := CanonAll(k, Expand(op.targets, s.aliases)), CanonAll(k, Expand(Cutters(op), s.aliases));
            var step := OpStep(k, op, s.doc, s.aliases);
            if AllPresent(s.doc, left) && AllPresent(s.doc, right) then step == CombineStep(k, op, s.doc, left, right)
            else step.Err?
  {
    hide CanonicalIds, Ids, Expand, CanonAll, BoundedText;
    IdsOfList(k, s.doc, s.aliases, op.targets);
    IdsOfList(k, s.doc, s.aliases, Cutters(op));
  }

  lemma ExpandSame(targets: seq<string>, a: Aliases, b: Aliases)
    requires a.Keys <= b.Keys && forall name :: name in a ==> a[name] == b[name]
    requires forall i :: 0 <= i < |targets| ==> ListServed(targets[i], a.Keys)
    ensures Expand(targets, a) == Expand(targets, b)
  {
    if targets != [] {
      assert forall i :: 0 < i < |targets| ==> targets[i] == targets[1..][i - 1];
      ExpandSame(targets[1..], a, b);
    }
  }

  lemma ExpandOne(target: string, aliases: Aliases)
    requires ResolveText(target, aliases).Ok?
    ensures Expand([target], aliases) == [ResolveText(target, aliases).value]
  {
    assert [target][1..] == [];
    assert Expand([], aliases) == [];
  }

  /** The parameters of a boolean command with operand texts `left` and `right`. */
  function OperandParams(op: Op, left: seq<string>, right: seq<string>): map<Key, Value>
    requires op.BooleanUnion? || op.BooleanIntersection? || op.BooleanDifference?
    requires op.BooleanDifference? ==> |left| == 1
  {
    if op.BooleanDifference? then DifferenceParams(Str(left[0]), StrValues(right), op.deleteInput)
    else ListParams(StrValues(left), op.deleteInput)
  }

  /** A boolean command's parameters resolve exactly when its references are served, to the expanded operands. */
  lemma OperandsResolve(k: Kernel, op: Op, c: RunState, s: State, binding: set<string>, known: set<string>)
    requires Related(k, c, s, binding, known)
    requires op.BooleanUnion? || op.BooleanIntersection? || op.BooleanDifference?
    requires op.BooleanDifference? ==> |op.targets| == 1
    ensures var r := ResolveParams(CombineCommand(op).value.params, c.aliases);
            var left, right := Expand(op.targets, s.aliases), Expand(Cutters(op), s.aliases);
            && (r.Ok? <==> Served(op, binding, s.aliases))
            && (r.Ok? ==> (if op.BooleanDifference? then |left| == 1 else right == []) && r.value == OperandParams(op, left, right))
  {
    hide ResolveParams, ResolveText, Expand, StrValues, ValidDocument, ListServed, ScalarServed;
    assert forall a :: a in c.aliases ==> CanonicalIds(k, s.aliases[a]);
    if op.BooleanDifference? {
      ResolveDifferenceParams(op.targets[0], op.cutters, op.deleteInput, c.aliases);
      ScalarServes(op.targets[0], c, s, binding);
      if Served(op, binding, s.aliases) {
        ExpandSame(op.cutters, c.aliases, s.aliases);
        assert op.targets == [op.targets[0]];
        ExpandOne(op.targets[0], c.aliases);
        SingleExpandSame(op.targets[0], c, s, binding);
      }
    } else {
      ResolveListParams(op.targets, op.deleteInput, c.aliases);
      ExpandNone(k, s.aliases);
      if Served(op, binding, s.aliases) {
        ExpandSame(op.targets, c.aliases, s.aliases);
      }
    }
  }

  /** Sending a boolean command: resolve the operands, then the plugin's boolean on them. */
  lemma BooleanRuns(k: Kernel, op: Op, c: RunState, s: State, binding: set<string>, known: set<string>)
    requires ValidKernel(k) && Related(k, c, s, binding, known)
    requires op.BooleanUnion? || op.BooleanIntersection? || op.BooleanDifference?
    requires op.BooleanDifference? ==> |op.targets| == 1
    ensures var run := RunCommand(k, c, CombineCommand(op).value);
            var left, right := CanonAll(k, Expand(op.targets, s.aliases)), CanonAll(k, Expand(Cutters(op), s.aliases));
            if !Served(op, binding, s.aliases) || !AllPresent(s.doc, left) || !AllPresent(s.doc, right) then run.Err? else
            var step := CombineStep(k, op, s.doc, left, right);
            && (run.Ok? <==> step.Ok?)
            && (step.Ok? ==> && run.value.doc == step.value.doc && run.value.aliases == BindOutput(c.aliases, op, step.value.output)
                             && CanonicalIds(k, step.value.output)
                             && ValidDocument(k, step.value.doc) && s.doc.next <= step.value.doc.next)
  {
    hide ResolveParams, PluginBoolean, PluginCombine, CombineStep, ExtractIds, Expand, CanonAll, AllPresent, StrValues,
         ValidKernel, ValidDocument, Served, Related;
    RelatedFacts(k, c, s, binding, known);
    OperandsResolve(k, op, c, s, binding, known);
    if Served(op, binding, s.aliases) {
      var left, right := Expand(op.targets, s.aliases), Expand(Cutters(op), s.aliases);
      BooleanReplies(k, op, s.doc, left, right);
      if AllPresent(s.doc, CanonAll(k, left)) && AllPresent(s.doc, CanonAll(k, right)) {
        CombineAgrees(k, op, s.doc, CanonAll(k, left), CanonAll(k, right));
      }
    }
  }

  lemma ExpandNone(k: Kernel, aliases: Aliases)
    ensures Expand([], aliases) == [] && CanonAll(k, []) == []
  {}

  lemma ScalarServes(target: string, c: RunState, s: State, binding: set<string>)
    requires c.aliases.Keys == binding && binding <= s.aliases.Keys && forall a :: a in binding ==> c.aliases[a] == s.aliases[a]
    ensures ResolveText(target, c.aliases).Ok? <==> ScalarServed(target, binding, s.aliases)
  {}

  lemma SingleExpandSame(target: string, c: RunState, s: State, binding: set<string>)
    requires c.aliases.Keys == binding && binding <= s.aliases.Keys && forall a :: a in binding ==> c.aliases[a] == s.aliases[a]
    requires ScalarServed(target, binding, s.aliases)
    ensures Expand([target], c.aliases) == Expand([target], s.aliases)
  {
    ExpandSame([target], c.aliases, s.aliases);
  }

  lemma BooleanOpAgrees(k: Kernel, rules: TextRules, op: Op, c: RunState, s: State, binding: set<string>, known: set<string>)
    requires ValidKernel(k) && Related(k, c, s, binding, known) && OpOk(rules, op, known)
    requires op.BooleanUnion? || op.BooleanIntersection? || op.BooleanDifference?
    ensures OpConclusion(k, op, c, s, binding, known)
  {
    hide Run, RunCommand, OpStep, CombineStep, AllPresent, Expand, CanonAll, ValidKernel, ValidDocument, TargetsOk, ScalarServed, ListServed,
         BindOutput;
    BooleanStep(k, rules, op, s, known);
    if !op.BooleanDifference? || |op.targets| == 1 {
      BooleanRuns(k, op, c, s, binding, known);
      RunOne(k, CombineCommand(op).value, c);
      if Served(op, binding, s.aliases) && OpStep(k, op, s.doc, s.aliases).Ok? {
        BindRelated(k, op, c, s, RunOp(k, op, c).value, OpStep(k, op, s.doc, s.aliases).value, binding, known);
      }
    }
  }

  // ---------------------------------------------------------------- whole batches

  lemma OpAgrees(k: Kernel, rules: TextRules, op: Op, c: RunState, s: State, binding: set<string>, known: set<string>)
    requires ValidKernel(k) && Related(k, c, s, binding, known) && OpOk(rules, op, known) && Compilable(op)
    requires PlainText(op) && LiteralsUnsupplied(k, op, s.doc.next)
    ensures OpConclusion(k, op, c, s, binding, known)
  {
    hide OpConclusion, Related, LiteralsUnsupplied, OpOk, PlainText;
    if IsCreate(op) {
      IdIsNew(rules, op, known);
      CreateOpAgrees(k, op, c, s, binding, known);
    } else if PerTarget(op) {
      TargetOpAgrees(k, rules, op, c, s, binding, known);
    } else {
      BooleanOpAgrees(k, rules, op, c, s, binding, known);
    }
  }

  lemma IdIsNew(rules: TextRules, op: Op, known: set<string>)
    requires OpOk(rules, op, known)
    ensures op.id !in known
  {}

  predicate AllCompilable(ops: seq<Op>) {
    forall i :: 0 <= i < |ops| ==> Compilable(ops[i])
  }

  /** Compile the whole batch, then send its commands. */
  function RunBatch(k: Kernel, ops: seq<Op>, c: RunState): Result<RunState>
    requires AllCompilable(ops)
  {
    var commands :- Compile(ops);
    Run(k, commands, c)
  }

  lemma RunBatchCons(k: Kernel, ops: seq<Op>, c: RunState)
    requires AllCompilable(ops) && ops != []
    ensures var first := RunOp(k, ops[0], c);
            && (first.Err? ==> RunBatch(k, ops, c).Err?)
            && (first.Ok? ==> var rest := RunBatch(k, ops[1..], first.value);
                              && (RunBatch(k, ops, c).Ok? <==> rest.Ok?)
                              && (rest.Ok? ==> RunBatch(k, ops, c).value == rest.value))
  {
    hide CompileOp, Run;
    if CompileOp(ops[0]).Ok? && Compile(ops[1..]).Ok? {
      RunConcat(k, CompileOp(ops[0]).value, Compile(ops[1..]).value, c);
    }
  }

  /** Later operations bind new ids only, so an alias keeps its meaning to the end of the batch. */
  lemma {:induction false} AliasesKept(k: Kernel, rules: TextRules, ops: seq<Op>, s: State, known: set<string>)
    requires AllCompilable(ops) && BatchOkAfter(rules, ops, known) && s.aliases.Keys == known && Interpret(k, ops, s).Ok?
    ensures forall a :: a in known ==> a in Interpret(k, ops, s).value.aliases && Interpret(k, ops, s).value.aliases[a] == s.aliases[a]
    decreases |ops|
  {
    hide OpStep, OpOk, BatchOkAfter;
    if ops != [] {
      BatchHead(rules, ops, known);
      IdIsNew(rules, ops[0], known);
      AliasesKept(k, rules, ops[1..], Advance(s, ops[0], OpStep(k, ops[0], s.doc, s.aliases).value), known + {ops[0].id});
    }
  }

  lemma BatchHead(rules: TextRules, ops: seq<Op>, known: set<string>)
    requires ops != [] && BatchOkAfter(rules, ops, known)
    ensures OpOk(rules, ops[0], known) && BatchOkAfter(rules, ops[1..], known + {ops[0].id})
  {
    assert ops == [ops[0]] + ops[1..];
    BatchOkCons(rules, ops[0], ops[1..], known);
  }

  lemma ServedSame(op: Op, binding: set<string>, a: Aliases, b: Aliases)
    requires forall name :: name in binding ==> name in a && name in b && a[name] == b[name]
    ensures Served(op, binding, a) == Served(op, binding, b)
  {
    assert forall target: string :: ScalarServed(target, binding, a) == ScalarServed(target, binding, b);
  }

  ghost predicate BatchFresh(k: Kernel, ops: seq<Op>, from: nat) {
    forall i :: 0 <= i < |ops| ==> PlainText(ops[i]) && LiteralsUnsupplied(k, ops[i], from)
  }

  lemma BatchFreshTail(k: Kernel, ops: seq<Op>, from: nat, later: nat)
    requires ops != [] && BatchFresh(k, ops, from) && from <= later
    ensures BatchFresh(k, ops[1..], later)
  {
    hide PlainText;
    forall i | 0 <= i < |ops[1..]| ensures PlainText(ops[1..][i]) && LiteralsUnsupplied(k, ops[1..][i], later) {
      assert ops[1..][i] == ops[i + 1];
      UnsuppliedLater(k, ops[i + 1], from, later);
    }
  }

  lemma UnsuppliedLater(k: Kernel, op: Op, from: nat, later: nat)
    requires LiteralsUnsupplied(k, op, from) && from <= later
    ensures LiteralsUnsupplied(k, op, later)
  {}

  lemma {:induction false} SuffixAgrees(k: Kernel, rules: TextRules, ops: seq<Op>, c: RunState, s: State,
                                        binding: set<string>, known: set<string>)
    requires ValidKernel(k) && Related(k, c, s, binding, known)
    requires AllCompilable(ops) && BatchOkAfter(rules, ops, known) && BatchFresh(k, ops, s.doc.next)
    ensures var run, script := RunBatch(k, ops, c), Interpret(k, ops, s);
            && (run.Ok? <==> script.Ok? && ServedFrom(ops, binding, script.value.aliases))
            && (run.Ok? ==> run.value.doc == script.value.doc && run.value.aliases.Keys <= script.value.aliases.Keys
                            && forall a :: a in run.value.aliases ==> run.value.aliases[a] == script.value.aliases[a])
    decreases |ops|
  {
    hide OpStep, RunOp, OpOk, BatchOkAfter, BatchFresh, LiteralsUnsupplied, PlainText, Served, Compilable, Related;
    if ops == [] {
      RelatedAliases(k, c, s, binding, known);
    } else {
      var op := ops[0];
      BatchHead(rules, ops, known);
      FreshHead(k, ops, s.doc.next);
      OpAgrees(k, rules, op, c, s, binding, known);
      RunBatchCons(k, ops, c);
      RelatedAliases(k, c, s, binding, known);
      var step := OpStep(k, op, s.doc, s.aliases);
      if step.Ok? {
        var s' := Advance(s, op, step.value);
        IdIsNew(rules, op, known);
        if Interpret(k, ops[1..], s').Ok? {
          AliasesKept(k, rules, ops[1..], s', known + {op.id});
          ServedSame(op, binding, s.aliases, Interpret(k, ops[1..], s').value.aliases);
        }
        if RunOp(k, op, c).Ok? {
          var c' := RunOp(k, op, c).value;
          RelatedAliases(k, c', s', binding + Binding(op), known + {op.id});
          BatchFreshTail(k, ops, s.doc.next, s'.doc.next);
          SuffixAgrees(k, rules, ops[1..], c', s', binding + Binding(op), known + {op.id});
        }
      }
    }
  }

  lemma FreshHead(k: Kernel, ops: seq<Op>, from: nat)
    requires ops != [] && BatchFresh(k, ops, from)
    ensures PlainText(ops[0]) && LiteralsUnsupplied(k, ops[0], from)
  {}

  lemma RelatedAliases(k: Kernel, c: RunState, s: State, binding: set<string>, known: set<string>)
    requires Related(k, c, s, binding, known)
    ensures c.doc == s.doc && s.aliases.Keys == known && c.aliases.Keys == binding && binding <= known
    ensures forall a :: a in binding ==> c.aliases[a] == s.aliases[a]
  {}

  lemma BatchCompilable(rules: TextRules, ops: seq<Op>)
    requires BatchOk(rules, ops)
    ensures AllCompilable(ops)
  {
    forall i | 0 <= i < |ops| ensures Compilable(ops[i]) {
      assert OpOk(rules, ops[i], IdsOf(ops[..i]));
    }
  }

  /** The command list of a normalised batch succeeds if and only if the script does and every reference can be
      served; it then leaves the same document and binds the same ids. */
  lemma BackendsAgree(k: Kernel, rules: TextRules, ops: seq<Op>, doc: Document)
    requires ValidKernel(k) && ValidDocument(k, doc) && BatchOk(rules, ops) && AllCompilable(ops)
    requires BatchFresh(k, ops, doc.next)
    ensures var run, script := RunBatch(k, ops, Begin(doc)), Interpret(k, ops, Start(doc));
            && (run.Ok? <==> script.Ok? && ServedFrom(ops, {}, script.value.aliases))
            && (run.Ok? ==> run.value.doc == script.value.doc && run.value.aliases.Keys <= script.value.aliases.Keys
                            && forall a :: a in run.value.aliases ==> run.value.aliases[a] == script.value.aliases[a])
  {
    BatchOkIsAfterNothing(rules, ops);
    SuffixAgrees(k, rules, ops, Begin(doc), Start(doc), {}, {});
  }
}
