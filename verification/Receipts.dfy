/** What one locked execution does to the document and what its receipt says about it. */
module Receipts {
  import opened Wrappers
  import opened Values
  import opened Operations
  import opened Mapping
  import opened Host
  import opened Script
  import opened Plugin

  /** How the transport ends one write. A lost response hides whether the plugin applied the command. */
  datatype Fate = Answered | NeverSent | LostUnapplied | LostApplied | Garbled

  datatype How = Finished | Failed | Ambiguous

  /** The state when the sending loop ends; `at` is the index of the last command tried. */
  datatype Ending = Ending(s: RunState, how: How, at: nat)

  /** The document after a write whose reply never became a result. */
  function HiddenEffect(k: Kernel, s: RunState, name: CommandName, params: map<Key, Value>): Document {
    var reply := PluginCall(k, s.doc, name, params);
    if reply.Ok? then reply.value.0 else s.doc
  }

  /** One iteration: resolve, send, extract, bind. Exceptions end the loop with what was bound so far. */
  datatype StepResult = Continue(s: RunState) | Stop(s: RunState, how: How)

  function SendOne(k: Kernel, s: RunState, c: Command, fate: Fate): StepResult {
    var params := ResolveParams(c.params, s.aliases);
    if params.Err? then Stop(s, Failed) else
    var hidden := s.(doc := HiddenEffect(k, s, c.name, params.value));
    match fate
    case NeverSent => Stop(s, Failed)
    case LostUnapplied => Stop(s, Ambiguous)
    case LostApplied => Stop(hidden, Ambiguous)
    case Garbled => Stop(hidden, Failed)
    case Answered =>
      var run := RunCommand(k, s, c);
      if run.Ok? then Continue(run.value) else Stop(hidden, Failed)
  }

  function SendAll(k: Kernel, commands: seq<Command>, s: RunState, fates: nat -> Fate, i: nat): (ending: Ending)
    requires i <= |commands|
    ensures i <= ending.at <= |commands|
    decreases |commands| - i
  {
    if i == |commands| then Ending(s, Finished, i) else
    match SendOne(k, s, commands[i], fates(i))
    case Stop(s', how) => Ending(s', how, i)
    case Continue(s') => SendAll(k, commands, s', fates, i + 1)
  }

  // ---------------------------------------------------------------- scenes

  /** A finalised scene: each object id with its content hash. */
  type Scene = map<string, string>

  type Hash = (string, Object) -> string

  function SceneOf(hash: Hash, doc: Document): Scene {
    map id | id in doc.objects :: hash(id, doc.objects[id])
  }

  ghost predicate Injective(hash: Hash) {
    forall id, a, b :: hash(id, a) == hash(id, b) ==> a == b
  }

  function Created(before: Scene, after: Scene): set<string> {
    after.Keys - before.Keys
  }

  function Deleted(before: Scene, after: Scene): set<string> {
    before.Keys - after.Keys
  }

  function Modified(before: Scene, after: Scene): set<string> {
    set id | id in before && id in after && before[id] != after[id]
  }

  // ---------------------------------------------------------------- the receipt

  datatype Status = Completed | Reconciled | FailedStatus | Unknown

  datatype Receipt = Receipt(status: Status, created: set<string>, modified: set<string>, deleted: set<string>,
                             outputs: Aliases, sent: seq<Sent>, verified: bool)

  function AllIds(aliases: Aliases): set<string> {
    set a, i | a in aliases && 0 <= i < |aliases[a]| :: aliases[a][i]
  }

  lemma SingletonHasOne(s: set<string>)
    requires |s| == 1
    ensures exists x :: x in s && s == {x}
  {
    var x :| x in s;
    assert |s - {x}| == 0;
    assert s == {x};
  }

  function TheOnly(s: set<string>): string
    requires |s| == 1
  {
    SingletonHasOne(s);
    var x :| x in s && s == {x}; x
  }

  /** A lost response is matched to the one created object no alias claims yet. */
  function ReconciledAliases(aliases: Aliases, created: set<string>, ending: Ending, commands: seq<Command>): Aliases
    requires ending.at <= |commands|
  {
    if ending.how == Ambiguous && ending.at < |commands| then
      var c := commands[ending.at];
      var candidates := created - AllIds(aliases);
      if c.bind.Some? && (c.field == Some(KeyId) || c.field == Some(KeyResultId)) && |candidates| == 1
      then aliases[c.bind.value := [TheOnly(candidates)]]
      else aliases
    else aliases
  }

  function TextOf(params: map<Key, Value>, key: Key): string {
    if key in params && params[key].Str? then params[key].s else ""
  }

  /** The ids named by the completed commands of the given names. */
  function SentIds(sent: seq<Sent>, names: set<CommandName>): set<string> {
    set i | 0 <= i < |sent| && sent[i].name in names && TextOf(sent[i].params, KeyId) != "" :: TextOf(sent[i].params, KeyId)
  }

  const EDITS: set<CommandName> := {UpdateObjectAttributes, TransformObjectInPlace}

  predicate SomeBind(commands: seq<Command>) {
    exists i :: 0 <= i < |commands| && commands[i].bind.Some?
  }

  function IsVerified(commands: seq<Command>, sent: seq<Sent>, outputs: Aliases, before: Scene, after: Scene): bool {
    var expectedCreated := AllIds(outputs);
    var expectedExisting := SentIds(sent, EDITS);
    && (expectedCreated != {} || !SomeBind(commands))
    && expectedCreated + expectedExisting <= after.Keys
    && expectedExisting <= Modified(before, after)
    && SentIds(sent, {DeleteObject}) !! after.Keys
  }

  function ReceiptOf(commands: seq<Command>, ending: Ending, before: Scene, after: Scene): Receipt
    requires ending.at <= |commands|
  {
    var created := Created(before, after);
    var outputs := ReconciledAliases(ending.s.aliases, created, ending, commands);
    var verified := IsVerified(commands, ending.s.sent, outputs, before, after);
    var status := if ending.how == Failed then FailedStatus
                  else if ending.how == Finished && verified then Completed
                  else if ending.how == Ambiguous && verified then Reconciled
                  else Unknown;
    Receipt(status, created, Modified(before, after), Deleted(before, after), outputs, ending.s.sent, verified)
  }
}
