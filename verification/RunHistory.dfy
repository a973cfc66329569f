/** The course of a command run: what was sent at each step, what stays deleted, and which ids are new. */
module RunHistory {
  import opened Wrappers
  import opened Values
  import opened Operations
  import opened Normalization
  import opened Mapping
  import opened Host
  import opened Script
  import opened Plugin
  import opened Agreement
  import opened BatchAgreement
  import opened AliasSafety
  import opened Receipts

  /** A successful run sends each command exactly once, in order. */
  lemma {:induction false} RunSendsAll(k: Kernel, commands: seq<Command>, s: RunState)
    requires Run(k, commands, s).Ok?
    ensures var sent := Run(k, commands, s).value.sent;
            && |sent| == |s.sent| + |commands| && s.sent <= sent
            && forall j :: 0 <= j < |commands| ==> sent[|s.sent| + j].name == commands[j].name
    decreases |commands|
  {
    hide PluginCall, ResolveParams;
    if commands != [] {
      var next := RunCommand(k, s, commands[0]).value;
      RunSendsAll(k, commands[1..], next);
      var sent := Run(k, commands, s).value.sent;
      forall j | 0 <= j < |commands| ensures sent[|s.sent| + j].name == commands[j].name {
        if j > 0 {
          assert commands[1..][j - 1] == commands[j];
        } else {
          assert sent[|s.sent|] == next.sent[|s.sent|];
        }
      }
    }
  }

  // ---------------------------------------------------------------- single steps of a run

  /** The j-th command runs in the state its predecessors leave, and the rest runs from there. */
  lemma StepAt(k: Kernel, commands: seq<Command>, s: RunState, j: nat)
    requires j < |commands| && Run(k, commands, s).Ok?
    ensures Run(k, commands[..j], s).Ok?
    ensures var before := Run(k, commands[..j], s).value;
            RunCommand(k, before, commands[j]).Ok?
            && Run(k, commands[j + 1..], RunCommand(k, before, commands[j]).value) == Run(k, commands, s)
  {
    hide RunCommand;
    assert commands == commands[..j] + commands[j..];
    RunConcat(k, commands[..j], commands[j..], s);
    assert commands[j..][0] == commands[j] && commands[j..][1..] == commands[j + 1..];
  }

  /** What the j-th command was sent with: its parameters under the bindings of that moment. */
  function ResolvedAt(k: Kernel, commands: seq<Command>, s: RunState, j: nat): Result<map<Key, Value>>
    requires j < |commands| && Run(k, commands[..j], s).Ok?
  {
    ResolveParams(commands[j].params, Run(k, commands[..j], s).value.aliases)
  }

  lemma SentIsResolved(k: Kernel, commands: seq<Command>, s: RunState, j: nat)
    requires j < |commands| && Run(k, commands, s).Ok?
    ensures Run(k, commands[..j], s).Ok? && ResolvedAt(k, commands, s, j).Ok?
    ensures var sent := Run(k, commands, s).value.sent;
            |sent| == |s.sent| + |commands| && sent[|s.sent| + j] == Sent(commands[j].name, ResolvedAt(k, commands, s, j).value)
  {
    hide PluginCall, ResolveParams, Run, ExtractIds;
    StepAt(k, commands, s, j);
    var before := Run(k, commands[..j], s).value;
    var next := RunCommand(k, before, commands[j]).value;
    RunSendsAll(k, commands[..j], s);
    RunSendsAll(k, commands, s);
    RunSendsAll(k, commands[j + 1..], next);
    assert Run(k, commands, s).value.sent[|before.sent|] == next.sent[|before.sent|];
  }

  /** A deleted object was there, and never comes back: later ids are all newly supplied. */
  lemma DeletedIsGone(k: Kernel, commands: seq<Command>, s: RunState, j: nat)
    requires ValidKernel(k) && ValidDocument(k, s.doc) && Run(k, commands, s).Ok?
    requires j < |commands| && commands[j].name == DeleteObject
    ensures Run(k, commands[..j], s).Ok? && |Run(k, commands, s).value.sent| == |s.sent| + |commands|
    ensures var id := k.canon(TextOf(Run(k, commands, s).value.sent[|s.sent| + j].params, KeyId));
            id in Run(k, commands[..j], s).value.doc.objects && id !in Run(k, commands, s).value.doc.objects
  {
    hide Run, ResolveParams, ValidKernel, OnlyFresh;
    StepAt(k, commands, s, j);
    SentIsResolved(k, commands, s, j);
    var before := Run(k, commands[..j], s).value;
    var next := RunCommand(k, before, commands[j]).value;
    RunKeeps(k, commands[..j], s);
    RunKeeps(k, commands[j + 1..], next) by { CommandKeeps(k, before, commands[j]); }
    DeleteStep(k, before, commands[j]);
    var id := k.canon(TextOf(ResolvedAt(k, commands, s, j).value, KeyId));
    StaysAway(k, next.doc, Run(k, commands, s).value.doc, id);
  }

  lemma StaysAway(k: Kernel, before: Document, after: Document, id: string)
    requires OnlyFresh(k, before, after) && id !in before.objects && Unsupplied(k, id, before.next)
    ensures id !in after.objects
  {}

  lemma CommandKeeps(k: Kernel, s: RunState, c: Command)
    requires ValidKernel(k) && ValidDocument(k, s.doc) && RunCommand(k, s, c).Ok?
    ensures ValidDocument(k, RunCommand(k, s, c).value.doc)
  {
    hide PluginCall, ResolveParams, ExtractIds, ValidKernel, ValidDocument;
    PluginKeeps(k, s.doc, c.name, ResolveParams(c.params, s.aliases).value);
  }

  lemma DeleteStep(k: Kernel, s: RunState, c: Command)
    requires ValidDocument(k, s.doc) && RunCommand(k, s, c).Ok? && c.name == DeleteObject
    ensures ResolveParams(c.params, s.aliases).Ok?
    ensures var id, next := k.canon(TextOf(ResolveParams(c.params, s.aliases).value, KeyId)), RunCommand(k, s, c).value;
            id in s.doc.objects && id !in next.doc.objects && Unsupplied(k, id, next.doc.next)
  {
    hide ResolveParams, ExtractIds;
  }

  // ---------------------------------------------------------------- ids that the run itself supplies

  /** Commands whose returned ids are all new. */
  const MAKERS: set<CommandName> :=
    {CreateObject, DuplicateObject, ExtrudeCurveCommand, OffsetCurveCommand, UnionCommand, IntersectionCommand, DifferenceCommand}

  ghost predicate AllSupplied(k: Kernel, ids: seq<string>, from: nat) {
    forall i :: 0 <= i < |ids| ==> !Unsupplied(k, ids[i], from)
  }

  lemma SuppliedTexts(k: Kernel, ids: seq<string>, from: nat, field: Key, key: Key)
    requires AllSupplied(k, ids, from)
    ensures AllSupplied(k, ExtractIds(map[key := StrValues(ids)], Some(field)), from)
  {
    hide Unsupplied;
    assert Field(map[key := StrValues(ids)], field) == if field == key then StrValues(ids) else Null;
    TextsOfAny(k, StrValues(ids).items, from);
    assert NonEmptyTexts([Null]) == [] by { assert [Null][1..] == []; }
  }

  lemma {:induction false} TextsOfAny(k: Kernel, items: seq<Value>, from: nat)
    requires forall i :: 0 <= i < |items| ==> items[i].Str? && !Unsupplied(k, items[i].s, from)
    ensures AllSupplied(k, NonEmptyTexts(items), from)
  {
    hide Unsupplied;
    if items != [] { TextsOfAny(k, items[1..], from); }
  }

  lemma OneSupplied(k: Kernel, n: nat, field: Key, key: Key)
    ensures AllSupplied(k, ExtractIds(map[key := Str(k.supply(n))], Some(field)), n)
  {
    var id := k.supply(n);
    assert !Unsupplied(k, id, n);
    assert NonEmptyTexts([Null]) == [] by { assert [Null][1..] == []; }
    assert NonEmptyTexts([Str(id)]) == if id != "" then [id] else [] by { assert [Str(id)][1..] == []; }
    assert Field(map[key := Str(id)], field) == if field == key then Str(id) else Null;
  }

  lemma AddedAreSupplied(k: Kernel, doc: Document, pieces: seq<Geometry>)
    requires ValidKernel(k) && ValidDocument(k, doc)
    ensures AllSupplied(k, AddObjects(k, doc, pieces).1, doc.next)
  {
    AddObjectsValid(k, doc, pieces);
  }

  lemma BooleanSupplies(k: Kernel, doc: Document, name: CommandName, params: map<Key, Value>, field: Key)
    requires ValidKernel(k) && ValidDocument(k, doc)
    ensures var reply := PluginBoolean(k, doc, name, params);
            reply.Ok? ==> AllSupplied(k, ExtractIds(reply.value.1, Some(field)), doc.next)
  {
    hide AllSupplied, ValidKernel, ValidDocument, AddObjects, DeleteEach, ExtractIds, NamedAll;
    forall pieces ensures AllSupplied(k, ExtractIds(map[KeyResultIds := StrValues(AddObjects(k, doc, pieces).1)], Some(field)), doc.next) {
      AddedAreSupplied(k, doc, pieces);
      SuppliedTexts(k, AddObjects(k, doc, pieces).1, doc.next, field, KeyResultIds);
    }
  }

  lemma MakersSupply(k: Kernel, doc: Document, name: CommandName, params: map<Key, Value>, field: Key)
    requires ValidKernel(k) && ValidDocument(k, doc) && name in MAKERS
    ensures var reply := PluginCall(k, doc, name, params);
            reply.Ok? ==> AllSupplied(k, ExtractIds(reply.value.1, Some(field)), doc.next)
  {
    hide AllSupplied, ValidKernel, ValidDocument, AddObjects, ExtractIds, PluginBoolean, ShapeNamed, Primitive, Translated;
    BooleanSupplies(k, doc, name, params, field);
    OneSupplied(k, doc.next, field, KeyId);
    OneSupplied(k, doc.next, field, KeyResultId);
    if name == OffsetCurveCommand && Named(k, doc, params, KeyCurveId).Ok? {
      var pieces := k.offset(doc.objects[Named(k, doc, params, KeyCurveId).value].geometry,
                             NumberOr(params, KeyDistance, 0.0), VectorOr(params, KeyPlane, ORIGIN));
      AddedAreSupplied(k, doc, pieces);
      SuppliedTexts(k, AddObjects(k, doc, pieces).1, doc.next, field, KeyResultIds);
    }
  }

  /** What an alias bound only by makers stands for is new since the start. */
  lemma {:induction false} MadeIdsAreNew(k: Kernel, commands: seq<Command>, s: RunState, alias: string, from: nat)
    requires ValidKernel(k) && ValidDocument(k, s.doc) && from <= s.doc.next && Run(k, commands, s).Ok?
    requires forall m :: 0 <= m < |commands| && commands[m].bind == Some(alias) ==> commands[m].name in MAKERS && commands[m].field.Some?
    requires AllSupplied(k, Lookup(s.aliases, alias), from)
    ensures AllSupplied(k, Lookup(Run(k, commands, s).value.aliases, alias), from)
    decreases |commands|
  {
    hide RunCommand, ValidKernel, ValidDocument, AllSupplied;
    if commands != [] {
      var next := RunCommand(k, s, commands[0]).value;
      CommandKeeps(k, s, commands[0]);
      OneBindIsNew(k, s, commands[0], alias, from);
      MadeIdsAreNew(k, commands[1..], next, alias, from);
    }
  }

  lemma OneBindIsNew(k: Kernel, s: RunState, c: Command, alias: string, from: nat)
    requires ValidKernel(k) && ValidDocument(k, s.doc) && from <= s.doc.next && RunCommand(k, s, c).Ok?
    requires c.bind == Some(alias) ==> c.name in MAKERS && c.field.Some?
    requires AllSupplied(k, Lookup(s.aliases, alias), from)
    ensures AllSupplied(k, Lookup(RunCommand(k, s, c).value.aliases, alias), from) && from <= RunCommand(k, s, c).value.doc.next
  {
    hide PluginCall, ResolveParams, ExtractIds, ValidKernel, ValidDocument, Unsupplied;
    var params := ResolveParams(c.params, s.aliases).value;
    PluginKeeps(k, s.doc, c.name, params);
    if c.bind == Some(alias) {
      MakersSupply(k, s.doc, c.name, params, c.field.value);
      var ids := ExtractIds(PluginCall(k, s.doc, c.name, params).value.1, c.field);
      forall i | 0 <= i < |ids| ensures !Unsupplied(k, ids[i], from) { SuppliedEarlier(k, ids[i], from, s.doc.next); }
    }
  }

  lemma SuppliedEarlier(k: Kernel, id: string, from: nat, later: nat)
    requires !Unsupplied(k, id, later) && from <= later
    ensures !Unsupplied(k, id, from)
  {}
}
