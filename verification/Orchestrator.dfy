/** One workflow run: query, at most one execution, an independent query, and the evidence it leaves. */
module Orchestrator {
  import opened Wrappers
  import opened Sanitizer
  import opened Evidence
  import opened ThreeSinks
  import V = Verification
  import opened VerifierInput

  datatype Call = Query | Execute

  datatype Reply = Answer(entries: map<Name, Json>) | Fails

  /** The host gateway: what it answers to its n-th call, and the calls it received. */
  class Gateway {
    const answer: nat -> Reply
    var calls: seq<Call>

    constructor (answer: nat -> Reply)
      ensures this.answer == answer && calls == []
    {
      this.answer := answer;
      calls := [];
    }

    method Ask(call: Call) returns (r: Reply)
      modifies this
      ensures calls == old(calls) + [call] && r == answer(old(|calls|))
    {
      r := answer(|calls|);
      calls := calls + [call];
    }
  }

  /** A compiled plan; `input` holds everything a trace records beside receipt and verification. */
  datatype Plan = Plan(mutates: bool, operations: nat, input: TraceInput)

  /** One call of the workflow. `budget(n)` says whether time is left before the n-th stage. */
  datatype Job = Job(plan: Option<Plan>, keyBlank: bool, dryRun: bool, budget: nat -> bool, reader: Reader, show: V.Check -> Json)

  datatype Result =
    | Raised
    | Inspected
    | Finished(status: Json, receipt: Json, verification: Json, grade: Grade, accepted: bool, appended: bool)

  function UnknownReceipt(): map<Name, Json> {
    map[SchemaVersion := Text("1.0"), Status := Text(UNKNOWN), TransactionId := Null]
  }

  /** The action counters are filled in where the host left them out. */
  function WithCounters(receipt: map<Name, Json>, operations: nat): map<Name, Json> {
    var attempted := if ActionsAttempted in receipt then receipt else receipt[ActionsAttempted := Int(operations)];
    if ActionsCompleted in attempted then attempted
    else attempted[ActionsCompleted := Int(if Says(Get(Object(attempted), Status), COMPLETED) then operations else 0)]
  }

  function Trace(plan: Plan, receipt: Json, verification: Json): TraceInput {
    plan.input.(receipt := receipt, verification := verification)
  }

  function FailureTree(): Json {
    VerdictTree(FAILED, [Null])
  }

  /** The receipt of the run: the host's, or an unknown one when the execution was lost or never sent. */
  function ReceiptOf(job: Job, operations: nat, execution: Reply): map<Name, Json> {
    WithCounters(if job.budget(1) && execution.Answer? then execution.entries else UnknownReceipt(), operations)
  }

  /** The second query succeeded and the independent verifier passed every check on it. */
  ghost predicate Confirmed(job: Job, receipt: map<Name, Json>, before: map<Name, Json>, second: Reply) {
    job.budget(2) && second.Answer? && Verifies(job.reader, receipt, before, second.entries)
  }

  predicate Completes(job: Job, receipt: map<Name, Json>) {
    !job.dryRun && Says(Get(Object(receipt), Status), COMPLETED)
  }

  /** What the host sees of a mutating run. */
  function CallsOf(job: Job, receipt: map<Name, Json>): seq<Call> {
    [Query] + (if job.budget(1) then [Execute] else []) + (if Completes(job, receipt) && job.budget(2) then [Query] else [])
  }

  /** What a finished run's evidence says, in terms of its own receipt and verdict. */
  ghost predicate SinksAgree(s: Setting, plan: Plan, r: Result)
    requires r.Finished?
  {
    && (r.grade == Promoted <==> Says(Get(r.verification, Status), VERIFIED))
    && (r.status == Text(VERIFIED) <==> r.grade == Promoted || Says(Get(r.receipt, Status), VERIFIED))
    && (r.accepted <==> r.grade == Promoted && StateAllows(s, r.receipt))
    && (r.accepted <==> PassesGate(s, Body(s, Trace(plan, r.receipt, r.verification))))
    && r.grade != Quarantined
  }

  /** The receipt in words of the host's answer: its own entries and the counters it left out, or an unknown receipt of its
      own making when no answer came. */
  ghost predicate ReceiptTells(operations: nat, answer: Option<map<Name, Json>>, receipt: map<Name, Json>) {
    var given := if answer.Some? then answer.value
                 else map[SchemaVersion := Text("1.0"), Status := Text("unknown"), TransactionId := Null];
    && receipt.Keys == given.Keys + {ActionsAttempted, ActionsCompleted}
    && (forall n :: n in given ==> receipt[n] == given[n])
    && (ActionsAttempted !in given ==> receipt[ActionsAttempted] == Int(operations))
    && (ActionsCompleted !in given ==>
          receipt[ActionsCompleted] == Int(if Status in given && given[Status] == Text("completed") then operations else 0))
  }

  /** The status in words of the host's answer: a completed execution is verified or not, any other keeps the host's word. */
  ghost predicate StatusTells(answer: Option<map<Name, Json>>, confirmed: bool, status: Json) {
    match answer
    case None => status == Text("unknown")
    case Some(entries) =>
      if Status !in entries then status == Text("failed")
      else if entries[Status] == Text("completed") then status == Text(if confirmed then "verified" else "unverified")
      else status == entries[Status]
  }

  /** What the host answered to the execution, if it was sent at all. */
  function Answered(job: Job, execution: Reply): Option<map<Name, Json>> {
    if job.budget(1) && execution.Answer? then Some(execution.entries) else None
  }

  lemma ReceiptIsTold(job: Job, operations: nat, execution: Reply)
    ensures ReceiptTells(operations, Answered(job, execution), ReceiptOf(job, operations, execution))
  {
    StatusIsKept(if job.budget(1) && execution.Answer? then execution.entries else UnknownReceipt(), operations);
  }

  lemma StatusIsKept(receipt: map<Name, Json>, operations: nat)
    ensures (Status in WithCounters(receipt, operations) <==> Status in receipt)
            && (Status in receipt ==> WithCounters(receipt, operations)[Status] == receipt[Status])
  {}

  lemma StatusIsTold(job: Job, operations: nat, execution: Reply, verification: Json)
    requires var receipt := ReceiptOf(job, operations, execution);
             Says(Get(verification, Status), VERIFIED) ==> Completes(job, receipt)
    ensures StatusTells(Answered(job, execution), Says(Get(verification, Status), VERIFIED),
                        WorkflowStatus(Object(ReceiptOf(job, operations, execution)), verification))
  {
    hide WithCounters;
    var receipt := if job.budget(1) && execution.Answer? then execution.entries else UnknownReceipt();
    StatusIsKept(receipt, operations);
    UnknownIsNotCompleted(operations);
  }

  /** The trace of the run is in the journal: a new entry, or an old one of the same id. */
  ghost predicate Journalled(s: Setting, plan: Plan, r: Result, before: seq<Json>, journal: seq<Json>)
    requires r.Finished?
  {
    var trace := Safe(s.rules, Marked(Body(s, Trace(plan, r.receipt, r.verification)), r.accepted));
    && journal == (if r.appended then before + [trace] else before)
    && exists i :: 0 <= i < |journal| && Get(journal[i], TraceId) == Get(trace, TraceId)
  }

  class WorkflowOrchestrator {
    const setting: Setting
    const gateway: Gateway
    var memory: seq<Outcome>
    var journal: seq<Json>

    /** No two journal entries have the same trace id. */
    ghost predicate DistinctTraces()
      reads this
    {
      forall i, j :: 0 <= i < j < |journal| ==> Get(journal[i], TraceId) != Get(journal[j], TraceId)
    }

    constructor (setting: Setting, gateway: Gateway)
      ensures this.setting == setting && this.gateway == gateway && memory == [] && journal == [] && DistinctTraces()
    {
      this.setting := setting;
      this.gateway := gateway;
      memory, journal := [], [];
    }

    /** The journal refuses a trace id it already holds, so that afterwards exactly one entry has the trace's id. */
    method Append(trace: Json) returns (appended: bool)
      requires Recordable(setting, trace) && DistinctTraces()
      modifies this`journal
      ensures DistinctTraces() && journal == (if appended then old(journal) + [Safe(setting.rules, trace)] else old(journal))
      ensures exists i :: 0 <= i < |journal| && Get(journal[i], TraceId) == Get(Safe(setting.rules, trace), TraceId)
                          && (appended <==> i == |old(journal)|) && (appended ==> journal[i] == Safe(setting.rules, trace))
    {
      var safe := Safe(setting.rules, trace);
      appended := !exists i :: 0 <= i < |journal| && Get(journal[i], TraceId) == Get(safe, TraceId);
      if appended {
        journal := journal + [safe];
        assert Get(journal[|old(journal)|], TraceId) == Get(safe, TraceId);
      } else {
        ghost var i :| 0 <= i < |journal| && Get(journal[i], TraceId) == Get(safe, TraceId);
      }
    }

    /** The second query and the independent verdict on it; every failure on the way is a failed verification. */
    method Check(job: Job, receipt: map<Name, Json>, before: map<Name, Json>) returns (verification: Json)
      requires |gateway.calls| >= 2
      modifies gateway
      ensures gateway.calls == old(gateway.calls) + (if job.budget(2) then [Query] else [])
      ensures Says(Get(Object(receipt), Status), COMPLETED) ==> WorkflowVerdict(Object(receipt), verification)
      ensures verification.Object?
      ensures Says(Get(verification, Status), VERIFIED) <==> Confirmed(job, receipt, before, gateway.answer(|old(gateway.calls)|))
    {
      WordsDiffer();
      if !job.budget(2) { return FailureTree(); }
      var reply := gateway.Ask(Query);
      if reply.Fails? { return FailureTree(); }
      var given := CaseOf(job.reader, receipt, before, reply.entries);
      if given.None? { return FailureTree(); }
      var verdict := V.VerifyTransaction(given.value);
      if verdict.Raises? { return FailureTree(); }
      var failures := MapSeq(job.show, verdict.failed);
      verification := VerdictTree(if verdict.verified then VERIFIED else FAILED, failures);
    }

    /** Grades the outcome, remembers it, and records the trace if one can be made. */
    method Finish(plan: Plan, receipt: Json, verification: Json) returns (r: Result)
      requires ValidSetting(setting) && receipt.Object? && verification.Object? && WorkflowVerdict(receipt, verification)
      requires TypedPlan(setting, Trace(plan, receipt, verification)) && DistinctTraces()
      modifies this
      ensures DistinctTraces()
      ensures memory == old(memory) + [CreateOutcome(setting, receipt, verification)]
      ensures r.Raised? <==> ContainsTranscript(setting.rules, Supplied(setting, Trace(plan, receipt, verification)))
      ensures r.Raised? ==> journal == old(journal)
      ensures !r.Raised? ==> r.Finished? && r.receipt == receipt && r.verification == verification && SinksAgree(setting, plan, r)
      ensures !r.Raised? ==> r.status == WorkflowStatus(receipt, verification)
      ensures !r.Raised? ==> Journalled(setting, plan, r, old(journal), journal)
    {
      hide ValidSetting, WorkflowVerdict, TypedPlan, PassesGate, Body, Supplied, Marked, ContainsTranscript, StateAllows;
      var outcome := CreateOutcome(setting, receipt, verification);
      memory := memory + [outcome];
      var input := Trace(plan, receipt, verification);
      var trace := MakeTrace(setting, input);
      if trace.None? { return Raised; }
      MadeTracesAreRecordable(setting, input);
      var appended := Append(trace.value);
      PromotedIffVerified(setting, receipt, verification);
      GateIffVerified(setting, input);
      r := Finished(WorkflowStatus(receipt, verification), receipt, verification, outcome.grade, PassesGate(setting, Body(setting, input)), appended);
    }

    /** The plan a mutating job must carry for its trace to count as typed. */
    ghost predicate Typed(plan: Plan) {
      forall receipt: Json, verification: Json :: receipt.Object? && verification.Object? ==>
        TypedPlan(setting, Trace(plan, receipt, verification))
    }

    /** The only execution. A lost or refused one leaves an unknown receipt and is not retried. */
    method Attempt(job: Job, plan: Plan) returns (receipt: map<Name, Json>)
      requires gateway.calls == [Query]
      modifies gateway
      ensures receipt == ReceiptOf(job, plan.operations, gateway.answer(1))
      ensures ReceiptTells(plan.operations, Answered(job, gateway.answer(1)), receipt)
      ensures gateway.calls == [Query] + (if job.budget(1) then [Execute] else [])
      ensures Completes(job, receipt) ==> gateway.calls == [Query, Execute]
    {
      receipt := UnknownReceipt();
      UnknownIsNotCompleted(plan.operations);
      if job.budget(1) {
        var reply := gateway.Ask(Execute);
        if reply.Answer? { receipt := reply.entries; }
      }
      receipt := WithCounters(receipt, plan.operations);
      ReceiptIsTold(job, plan.operations, gateway.answer(1));
    }

    /** The execution and what follows it. */
    method Mutate(job: Job, plan: Plan, before: map<Name, Json>) returns (r: Result)
      requires ValidSetting(setting) && gateway.calls == [Query] && Typed(plan) && DistinctTraces()
      modifies this, gateway
      ensures DistinctTraces()
      ensures var receipt := ReceiptOf(job, plan.operations, gateway.answer(1));
              && gateway.calls == CallsOf(job, receipt)
              && (r.Finished? ==>
                    && r.receipt == Object(receipt) && SinksAgree(setting, plan, r)
                    && (r.grade == Promoted <==> Completes(job, receipt) && Confirmed(job, receipt, before, gateway.answer(2)))
                    && ReceiptTells(plan.operations, Answered(job, gateway.answer(1)), receipt)
                    && StatusTells(Answered(job, gateway.answer(1)), r.grade == Promoted, r.status)
                    && Journalled(setting, plan, r, old(journal), journal)
                    && memory == old(memory) + [CreateOutcome(setting, r.receipt, r.verification)])
      ensures !r.Inspected? && (r.Raised? ==> journal == old(journal))
    {
      hide SinksAgree, ValidSetting, Typed, CreateOutcome, WorkflowVerdict, VerdictTree, Says, Get, V.AllHold, Trace, ReceiptOf, Confirmed,
           ReceiptTells, StatusTells, Answered, Journalled;
      var receipt := Attempt(job, plan);
      var verification := VerdictTree(NOT_RUN, [Null]);
      NotRunIsAVerdict(Object(receipt));
      if Completes(job, receipt) {
        verification := Check(job, receipt, before);
      }
      TypedInput(plan, Object(receipt), verification);
      r := Finish(plan, Object(receipt), verification);
      if r.Finished? {
        SinksGrade(setting, plan, r);
        StatusIsTold(job, plan.operations, gateway.answer(1), verification);
      }
    }

    lemma NotRunIsAVerdict(receipt: Json)
      ensures var verification := VerdictTree(NOT_RUN, [Null]);
              WorkflowVerdict(receipt, verification) && verification.Object? && !Says(Get(verification, Status), VERIFIED)
    {
      WordsDiffer();
    }

    lemma TypedInput(plan: Plan, receipt: Json, verification: Json)
      requires Typed(plan) && receipt.Object? && verification.Object?
      ensures TypedPlan(setting, Trace(plan, receipt, verification))
    {}

    /** One run. The host sees a query, then at most one execution, then at most one more query; nothing is executed without
        a compiled mutating plan and a key; and a finished run is promoted exactly when the execution completed and the
        independent verifier confirmed it. */
    method Run(job: Job) returns (r: Result)
      requires ValidSetting(setting) && gateway.calls == [] && DistinctTraces()
      requires job.plan.Some? && job.plan.value.mutates ==> Typed(job.plan.value)
      modifies this, gateway
      ensures DistinctTraces()
      ensures gateway.calls == [] || gateway.calls == [Query] || gateway.calls == [Query, Execute] || gateway.calls == [Query, Execute, Query]
      ensures |gateway.calls| >= 2 ==> job.plan.Some? && job.plan.value.mutates && !job.keyBlank
      ensures r.Inspected? <==> job.plan.Some? && job.budget(0) && gateway.answer(0).Answer? && !job.plan.value.mutates
      ensures !r.Finished? ==> journal == old(journal)
      ensures r.Finished? ==>
                && job.plan.Some? && gateway.answer(0).Answer? && SinksAgree(setting, job.plan.value, r)
                && var receipt := ReceiptOf(job, job.plan.value.operations, gateway.answer(1));
                   var done := !job.dryRun && Status in receipt && receipt[Status] == Text("completed");
                   && gateway.calls == [Query] + (if job.budget(1) then [Execute] else []) + (if done && job.budget(2) then [Query] else [])
                   && r.receipt == Object(receipt) && memory == old(memory) + [CreateOutcome(setting, r.receipt, r.verification)]
                   && (r.grade == Promoted <==>
                         done && job.budget(2) && gateway.answer(2).Answer?
                         && Verifies(job.reader, receipt, gateway.answer(0).entries, gateway.answer(2).entries))
                   && ReceiptTells(job.plan.value.operations, Answered(job, gateway.answer(1)), receipt)
                   && StatusTells(Answered(job, gateway.answer(1)), r.grade == Promoted, r.status)
                   && Journalled(setting, job.plan.value, r, old(journal), journal)
    {
      hide SinksAgree, ValidSetting, Typed, CreateOutcome, ReceiptOf, Verifies, ReceiptTells, StatusTells, Answered, Journalled;
      if job.plan.None? || !job.budget(0) { return Raised; }
      var plan := job.plan.value;
      var before := gateway.Ask(Query);
      if before.Fails? { return Raised; }
      if !plan.mutates { return Inspected; }
      if job.keyBlank { return Raised; }
      r := Mutate(job, plan, before.entries);
      CompletedWasSent(job, plan.operations, gateway.answer(1));
    }
  }

  lemma SinksGrade(s: Setting, plan: Plan, r: Result)
    requires r.Finished?
    ensures SinksAgree(s, plan, r) ==> (r.grade == Promoted <==> Says(Get(r.verification, Status), VERIFIED))
  {}

  /** Where the host kept no counters, the filled-in ones agree exactly on completed batches with some operation. */
  lemma FilledCountersMatch(s: Setting, receipt: map<Name, Json>, operations: nat)
    requires ActionsAttempted !in receipt && ActionsCompleted !in receipt
    ensures var filled := WithCounters(receipt, operations);
            && (ActionsMatch(s, Object(filled)) <==> operations > 0 && Says(Get(Object(receipt), Status), COMPLETED))
            && forall n :: n in receipt ==> n in filled && filled[n] == receipt[n]
  {
    assert Get(Object(receipt[ActionsAttempted := Int(operations)]), Status) == Get(Object(receipt), Status);
  }

  lemma CompletedWasSent(job: Job, operations: nat, execution: Reply)
    ensures Completes(job, ReceiptOf(job, operations, execution)) ==> job.budget(1)
  {
    UnknownIsNotCompleted(operations);
  }

  lemma UnknownIsNotCompleted(operations: nat)
    ensures !Says(Get(Object(WithCounters(UnknownReceipt(), operations)), Status), COMPLETED)
  {
    assert |UNKNOWN| == 7 && |COMPLETED| == 9;
  }
}
