/** The evidence a workflow leaves: the memory outcome's grade and the recorder's trace with its training gate. */
module Evidence {
  import opened Wrappers
  import opened Sanitizer

  const COMPLETED := "completed"
  const VERIFIED := "verified"
  const PASSED := "passed"
  const NOT_RUN := "not_run"
  const FAILED := "failed"
  const UNKNOWN := "unknown"
  const SCRIPT := "script"

  /** The pattern and conversion rules of the host language that evidence depends on. */
  datatype Setting = Setting(rules: Rules, parseInt: string -> Option<int>, digest: Json -> string, schema: string)

  /** The names evidence reads are no pattern's business, and the words it compares survive cleaning. */
  ghost predicate ValidSetting(s: Setting) {
    && Valid(s.rules)
    && (forall n: Name :: !n.OtherName? ==> Plain(s.rules, n))
    && (forall w :: w in [COMPLETED, VERIFIED, PASSED, NOT_RUN, FAILED, s.schema] ==> s.rules.clean(w) == w)
    && (forall t :: s.rules.clean(t) == [] <==> t == [])
    && (forall v :: s.digest(v) != [] && s.rules.clean(s.digest(v)) == s.digest(v))
  }

  function Get(v: Json, n: Name): Option<Json> {
    if v.Object? && n in v.entries then Some(v.entries[n]) else None
  }

  predicate Truthy(v: Option<Json>) {
    match v
    case None => false
    case Some(Null) => false
    case Some(Bool(b)) => b
    case Some(Int(i)) => i != 0
    case Some(Num(r)) => r != 0.0
    case Some(Text(s)) => s != []
    case Some(List(items)) => items != []
    case Some(Object(entries)) => entries != map[]
    case Some(_) => true
  }

  predicate Says(v: Option<Json>, word: string) {
    v == Some(Text(word))
  }

  // ---------------------------------------------------------------- the memory outcome

  function Truncated(r: real): int {
    if r >= 0.0 then r.Floor else -((-r).Floor)
  }

  /** The host language's integer conversion; an absent entry counts as zero and None stands for its exceptions. */
  function ToInt(s: Setting, v: Option<Json>): Option<int> {
    match v
    case None => Some(0)
    case Some(Bool(b)) => Some(if b then 1 else 0)
    case Some(Int(i)) => Some(i)
    case Some(Num(r)) => Some(Truncated(r))
    case Some(Text(t)) => s.parseInt(t)
    case _ => None
  }

  predicate ActionsMatch(s: Setting, receipt: Json) {
    var attempted, completed := ToInt(s, Get(receipt, ActionsAttempted)), ToInt(s, Get(receipt, ActionsCompleted));
    attempted.Some? && completed.Some? && attempted.value > 0 && attempted == completed
  }

  predicate IsVerified(verification: Json) {
    Says(Get(verification, Status), VERIFIED) && !Truthy(Get(verification, Failed))
  }

  /** The quality score in hundredths; without a step trace the duration part is always granted. */
  function Quality(s: Setting, receipt: Json, verification: Json): nat {
    (if Says(Get(receipt, Status), COMPLETED) then 35 else 0)
    + (if IsVerified(verification) then 40 else 0)
    + (if ActionsMatch(s, receipt) then 15 else 0)
    + 10
  }

  datatype Grade = Promoted | Quarantined | Rejected

  datatype Outcome = Outcome(grade: Grade, score: nat, receipt: Json, verification: Json)

  const RECEIPT_FIELDS: set<Name> :=
    {SchemaVersion, TransactionId, Status, ActionsAttempted, ActionsCompleted, CreatedIds, DeletedIds, ErrorCode}
  const VERIFICATION_FIELDS: set<Name> := {SchemaVersion, Status, Passed, Failed}

  function Restricted(v: Json, names: set<Name>): Json {
    if v.Object? then Object(map n | n in v.entries && n in names :: v.entries[n]) else Object(map[])
  }

  /** The outcome under the default promotion policy. */
  function CreateOutcome(s: Setting, receipt: Json, verification: Json): Outcome {
    var receipt' := Redact(s.rules, Restricted(receipt, RECEIPT_FIELDS));
    var verification' := Redact(s.rules, Restricted(verification, VERIFICATION_FIELDS));
    var score := Quality(s, receipt', verification');
    var grade :=
      if !Says(Get(receipt', Status), COMPLETED) || !IsVerified(verification') then Rejected
      else if score >= 85 then Promoted
      else if score >= 60 then Quarantined
      else Rejected;
    Outcome(grade, score, receipt', verification')
  }

  // ---------------------------------------------------------------- the flight-recorder trace

  /** What a trace is made of, the scene digest included. */
  datatype TraceInput = TraceInput(
    createdAt: int, request: string, route: Json, scene: Json, transaction: Json, timing: Json, outcomes: seq<Json>,
    receipt: Json, verification: Json, model: Json, usage: Json, correlation: string)

  function Supplied(s: Setting, t: TraceInput): Json {
    Object(map[
      SchemaVersion := Text(s.schema), CreatedAt := Int(t.createdAt), Request := Text(t.request), Route := t.route,
      SceneSubset := t.scene, Transaction := t.transaction, Timing := t.timing, ToolOutcomes := List(t.outcomes),
      Name.Receipt := t.receipt, Name.Verification := t.verification, Recovery := Object(map[]),
      Model := t.model, TokenUsage := t.usage, CorrelationId := Text(t.correlation)])
  }

  predicate IsScript(op: Json) {
    op.Object? && Says(Get(op, Op), SCRIPT)
  }

  predicate TypedOperations(transaction: Json) {
    var operations := Get(transaction, Operations);
    operations.Some? && operations.value.List? && operations.value.items != []
    && forall i :: 0 <= i < |operations.value.items| ==> !IsScript(operations.value.items[i])
  }

  function Or(v: Option<Json>): Json {
    if Truthy(v) then v.value else Object(map[])
  }

  /** The default training gate. A receipt's `state`, when present, counts instead of its `status`. */
  predicate PassesGate(s: Setting, trace: Json) {
    var receipt, verification := Or(Get(trace, Name.Receipt)), Or(Get(trace, Name.Verification));
    var state := if Get(receipt, State).Some? then Get(receipt, State) else Get(receipt, Status);
    && Says(state, COMPLETED)
    && (Says(Get(verification, Status), VERIFIED) || Says(Get(verification, Status), PASSED))
    && !Truthy(Get(verification, Failed))
    && TypedOperations(Or(Get(trace, Transaction)))
    && !ContainsTranscript(s.rules, trace)
    && Truthy(Get(trace, Request)) && Truthy(Get(trace, Route))
  }

  function Identity(body: map<Name, Json>): Json {
    Object(map n | n in body && n != CreatedAt :: body[n])
  }

  /** The trace without its quality mark. */
  function Body(s: Setting, t: TraceInput): Json {
    var body := Safe(s.rules, Supplied(s, t));
    if body.Object? then Object(body.entries[TraceId := Text(s.digest(Identity(body.entries)))]) else body
  }

  function Marked(body: Json, accepted: bool): Json {
    if body.Object? then
      Object(body.entries[TrainingQuality := Object(map[Accepted := Bool(accepted), Reasons := List([])])])
    else body
  }

  /** A trace, or nothing when the supplied data is transcript-shaped. The gate's reasons are left out. */
  function MakeTrace(s: Setting, t: TraceInput): Option<Json> {
    if ContainsTranscript(s.rules, Supplied(s, t)) then None
    else Some(Marked(Body(s, t), PassesGate(s, Body(s, t))))
  }

  /** The journal's own entry check. */
  predicate Recordable(s: Setting, trace: Json) {
    var safe := Safe(s.rules, trace);
    !ContainsTranscript(s.rules, trace) && Says(Get(safe, SchemaVersion), s.schema) && Truthy(Get(safe, TraceId))
  }
}
