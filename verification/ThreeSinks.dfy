/** The three places a workflow's outcome goes agree: its status, the memory grade and the training gate. */
module ThreeSinks {
  import opened Wrappers
  import opened Sanitizer
  import opened Evidence

  /** The status the workflow reports. */
  function WorkflowStatus(receipt: Json, verification: Json): Json {
    if Says(Get(verification, Status), VERIFIED) then Text(VERIFIED)
    else if Says(Get(receipt, Status), COMPLETED) then Text("unverified")
    else if Get(receipt, Status).Some? then Get(receipt, Status).value
    else Text(FAILED)
  }

  function VerdictTree(status: string, failed: seq<Json>): Json {
    Object(map[Status := Text(status), Failed := List(failed)])
  }

  /** Every verification a workflow hands on: not run, or the verdict on a completed receipt. */
  predicate WorkflowVerdict(receipt: Json, verification: Json) {
    && Get(verification, Failed).Some? && Get(verification, Failed).value.List?
    && var failures := Get(verification, Failed).value.items;
       (Says(Get(verification, Status), NOT_RUN) && failures != [])
       || (Says(Get(receipt, Status), COMPLETED)
           && ((Says(Get(verification, Status), VERIFIED) && failures == []) || (Says(Get(verification, Status), FAILED) && failures != [])))
  }

  lemma WordsDiffer()
    ensures NOT_RUN != VERIFIED && FAILED != VERIFIED && NOT_RUN != PASSED && FAILED != PASSED
  {
    assert |NOT_RUN| == 7 && |VERIFIED| == 8 && |FAILED| == 6 && |PASSED| == 6;
    assert FAILED[0] == 'f' && PASSED[0] == 'p';
  }

  // ---------------------------------------------------------------- the memory grade

  /** A redacted selection shows a selected text cleaned, and a selected list empty exactly when it was. */
  lemma RedactedField(s: Setting, v: Json, names: set<Name>, n: Name)
    requires ValidSetting(s) && v.Object? && n in names && !n.OtherName?
    ensures var v' := Redact(s.rules, Restricted(v, names));
            && (Get(v', n).Some? <==> Get(v, n).Some?)
            && (Get(v, n).Some? ==> Get(v', n).value == Redact(s.rules, Get(v, n).value))
  {
    assert Plain(s.rules, n);
  }

  /** The words the workflow compares are what redaction leaves of themselves. */
  lemma WordsSurvive(s: Setting, w: string)
    requires ValidSetting(s) && w in [COMPLETED, VERIFIED, PASSED, NOT_RUN, FAILED, s.schema]
    ensures Redact(s.rules, Text(w)) == Text(w) && Safe(s.rules, Text(w)) == Text(w)
  {}

  lemma RedactedList(r: Rules, items: seq<Json>)
    ensures Redact(r, List(items)).List? && (Redact(r, List(items)).items == [] <==> items == [])
    ensures Safe(r, List(items)).List? && (Safe(r, List(items)).items == [] <==> items == [])
  {}

  /** Memory promotes an outcome exactly when the workflow is verified, unless the host itself called its receipt
      "verified"; under the default policy nothing is quarantined. */
  lemma PromotedIffVerified(s: Setting, receipt: Json, verification: Json)
    requires ValidSetting(s) && receipt.Object? && verification.Object? && WorkflowVerdict(receipt, verification)
    ensures var outcome := CreateOutcome(s, receipt, verification);
            && (outcome.grade == Promoted <==> Says(Get(verification, Status), VERIFIED))
            && (WorkflowStatus(receipt, verification) == Text(VERIFIED) <==> outcome.grade == Promoted || Says(Get(receipt, Status), VERIFIED))
            && outcome.grade != Quarantined
            && (outcome.grade == Promoted <==> outcome.score >= 85)
  {
    hide ValidSetting, Redact, Restricted;
    RedactedField(s, receipt, RECEIPT_FIELDS, Status);
    RedactedField(s, verification, VERIFICATION_FIELDS, Status);
    RedactedField(s, verification, VERIFICATION_FIELDS, Failed);
    RedactedList(s.rules, Get(verification, Failed).value.items);
    WordsSurvive(s, COMPLETED);
    WordsSurvive(s, VERIFIED);
    WordsSurvive(s, NOT_RUN);
    WordsSurvive(s, FAILED);
    WordsDiffer();
    StatusWords();
  }

  /** Redaction leaves that word of the entry. */
  predicate ReadsAs(s: Setting, v: Option<Json>, word: string) {
    match v
    case Some(Text(t)) => s.rules.clean(t) == word
    case Some(Other(t)) => s.rules.clean(t) == word
    case _ => false
  }

  lemma RedactedWord(s: Setting, v: Json, word: string)
    requires word != NON_FINITE
    ensures Redact(s.rules, v) == Text(word) <==> ReadsAs(s, Some(v), word)
  {}

  /** Memory promotes a completed, verified receipt without a failed check and rejects every other, whatever it is handed. */
  lemma MemoryGrades(s: Setting, receipt: Json, verification: Json)
    requires ValidSetting(s) && receipt.Object? && verification.Object?
    ensures var failed := Get(verification, Failed);
            CreateOutcome(s, receipt, verification).grade ==
              if ReadsAs(s, Get(receipt, Status), "completed") && ReadsAs(s, Get(verification, Status), "verified")
                 && !(failed.Some? && Truthy(Some(Redact(s.rules, failed.value))))
              then Promoted else Rejected
  {
    hide ValidSetting, ReadsAs, ActionsMatch, Redact, Restricted;
    MemoryReads(s, receipt, verification);
  }

  /** It keeps eight entries of the receipt and four of the verification, redacted. */
  lemma MemoryKeeps(s: Setting, receipt: Json, verification: Json, n: Name)
    requires ValidSetting(s) && receipt.Object? && verification.Object?
    ensures var outcome := CreateOutcome(s, receipt, verification);
            && Get(outcome.receipt, n) ==
                 (if n in {SchemaVersion, TransactionId, Status, ActionsAttempted, ActionsCompleted, CreatedIds, DeletedIds, ErrorCode}
                     && Get(receipt, n).Some? then Some(Redact(s.rules, Get(receipt, n).value)) else None)
            && Get(outcome.verification, n) ==
                 (if n in {SchemaVersion, Status, Passed, Failed} && Get(verification, n).Some?
                  then Some(Redact(s.rules, Get(verification, n).value)) else None)
  {
    hide ValidSetting, ActionsMatch, Redact, Restricted, Quality, IsVerified, Get;
    RedactedEntry(s, receipt, RECEIPT_FIELDS, n);
    RedactedEntry(s, verification, VERIFICATION_FIELDS, n);
  }

  lemma MemoryReads(s: Setting, receipt: Json, verification: Json)
    requires ValidSetting(s) && receipt.Object? && verification.Object?
    ensures var outcome, failed := CreateOutcome(s, receipt, verification), Get(verification, Failed);
            && (Says(Get(outcome.receipt, Status), COMPLETED) <==> ReadsAs(s, Get(receipt, Status), "completed"))
            && (Says(Get(outcome.verification, Status), VERIFIED) <==> ReadsAs(s, Get(verification, Status), "verified"))
            && (Truthy(Get(outcome.verification, Failed)) <==> failed.Some? && Truthy(Some(Redact(s.rules, failed.value))))
  {
    hide ValidSetting, Redact, Restricted, ActionsMatch;
    RedactedField(s, receipt, RECEIPT_FIELDS, Status);
    RedactedField(s, verification, VERIFICATION_FIELDS, Status);
    RedactedField(s, verification, VERIFICATION_FIELDS, Failed);
    assert |NON_FINITE| == 12 && |COMPLETED| == 9 && |VERIFIED| == 8;
    if Get(receipt, Status).Some? { RedactedWord(s, Get(receipt, Status).value, COMPLETED); }
    if Get(verification, Status).Some? { RedactedWord(s, Get(verification, Status).value, VERIFIED); }
  }

  /** A redacted selection holds the selected entries redacted, and nothing else. */
  lemma RedactedEntry(s: Setting, v: Json, names: set<Name>, n: Name)
    requires ValidSetting(s) && v.Object? && forall m :: m in names ==> !m.OtherName?
    ensures Get(Redact(s.rules, Restricted(v, names)), n)
         == if n in names && Get(v, n).Some? then Some(Redact(s.rules, Get(v, n).value)) else None
  {
    if n in names { assert Plain(s.rules, n); }
  }

  /** A counter entry stands for a number: an absent one for zero, a fraction for its whole part. */
  ghost predicate CountsAs(s: Setting, v: Option<Json>, n: int) {
    match v
    case None => n == 0
    case Some(Bool(b)) => n == if b then 1 else 0
    case Some(Int(i)) => n == i
    case Some(Num(r)) => if r >= 0.0 then n as real <= r < n as real + 1.0 else n as real - 1.0 < r <= n as real
    case Some(Text(t)) => s.parseInt(t) == Some(n)
    case _ => false
  }

  lemma CountersRead(s: Setting, v: Option<Json>, n: int)
    ensures ToInt(s, v) == Some(n) <==> CountsAs(s, v, n)
  {}

  /** Full marks go exactly to a promoted outcome whose sanitised counters agree on a positive number of actions. */
  lemma FullMarks(s: Setting, receipt: Json, verification: Json)
    requires ValidSetting(s) && receipt.Object? && verification.Object? && WorkflowVerdict(receipt, verification)
    ensures var outcome := CreateOutcome(s, receipt, verification);
            && (outcome.score == 100 <==>
                  outcome.grade == Promoted
                  && exists n :: n > 0 && CountsAs(s, Get(outcome.receipt, ActionsAttempted), n) && CountsAs(s, Get(outcome.receipt, ActionsCompleted), n))
            && (outcome.grade == Promoted && outcome.score < 100 ==> outcome.score == 85)
  {
    hide ValidSetting, WorkflowVerdict, Redact, Restricted, CountsAs, ToInt;
    var receipt := CreateOutcome(s, receipt, verification).receipt;
    forall n ensures ToInt(s, Get(receipt, ActionsAttempted)) == Some(n) <==> CountsAs(s, Get(receipt, ActionsAttempted), n) {
      CountersRead(s, Get(receipt, ActionsAttempted), n);
    }
    forall n ensures ToInt(s, Get(receipt, ActionsCompleted)) == Some(n) <==> CountsAs(s, Get(receipt, ActionsCompleted), n) {
      CountersRead(s, Get(receipt, ActionsCompleted), n);
    }
  }

  lemma StatusWords()
    ensures Text("unverified") != Text(VERIFIED) && Text(COMPLETED) != Text(VERIFIED)
  {
    assert |"unverified"| == 10 && |VERIFIED| == 8 && |COMPLETED| == 9;
  }

  // ---------------------------------------------------------------- the trace

  /** What the sanitiser makes of one supplied entry. */
  lemma BodyEntry(s: Setting, t: TraceInput, n: Name, v: Json)
    requires ValidSetting(s) && Get(Supplied(s, t), n) == Some(v) && !n.OtherName? && n != TraceId
    ensures Get(Body(s, t), n) == Some(Redact(s.rules, Safe(s.rules, v)))
  {
    hide Safe, Redact;
    assert Plain(s.rules, n);
    SafeKeepsPlainKeys(s.rules, Supplied(s, t).entries, n);
  }

  /** A sanitised object is left alone by redaction, and shows its plain entries sanitised. */
  lemma SafeObject(r: Rules, v: Json, n: Name)
    requires Valid(r) && v.Object? && Plain(r, n)
    ensures Redact(r, Safe(r, v)) == Safe(r, v) && Safe(r, v).Object?
    ensures Get(Safe(r, v), n).Some? <==> Get(v, n).Some?
    ensures Get(v, n).Some? ==> Get(Safe(r, v), n).value == Redact(r, Safe(r, Get(v, n).value))
  {
    hide Safe, Redact, Valid;
    SafeKeepsPlainKeys(r, v.entries, n);
    SafeIsTidy(r, v);
    assert Settled(r, Safe(r, v));
    SettledIsFixed(r, Safe(r, v));
  }

  /** A typed plan: operations of cleaned kinds other than a script, a request and a route with something to show. */
  predicate TypedPlan(s: Setting, t: TraceInput) {
    && t.receipt.Object? && t.verification.Object? && t.transaction.Object? && t.route.Object?
    && t.request != []
    && (exists n :: n in t.route.entries && Plain(s.rules, n))
    && Get(t.transaction, Operations).Some? && Get(t.transaction, Operations).value.List?
    && var ops := Get(t.transaction, Operations).value.items;
       ops != [] && forall i :: 0 <= i < |ops| ==> TypedOp(s, ops[i])
  }

  predicate TypedOp(s: Setting, op: Json) {
    op.Object? && Get(op, Op).Some? && Get(op, Op).value.Text?
    && s.rules.clean(Get(op, Op).value.s) == Get(op, Op).value.s != SCRIPT
  }

  /** What the sanitiser leaves of a text is the word for a script. */
  predicate ReadsScript(s: Setting, v: Json) {
    (v.Text? && s.rules.clean(v.s) == SCRIPT) || (v.Other? && s.rules.clean(v.shown) == SCRIPT)
  }

  lemma LeafReads(s: Setting, v: Json)
    requires ValidSetting(s)
    ensures Redact(s.rules, Safe(s.rules, v)) == Text(SCRIPT) <==> ReadsScript(s, v)
  {
    assert |NON_FINITE| == 12 && |SCRIPT| == 6;
  }

  predicate ScriptOp(s: Setting, op: Json) {
    op.Object? && Get(op, Op).Some? && ReadsScript(s, Get(op, Op).value)
  }

  lemma OpReads(s: Setting, op: Json)
    requires ValidSetting(s)
    ensures IsScript(Redact(s.rules, Safe(s.rules, op))) <==> ScriptOp(s, op)
  {
    assert Plain(s.rules, Op);
    if op.Object? {
      hide Redact, Safe;
      SafeObject(s.rules, op, Op);
      if Get(op, Op).Some? { LeafReads(s, Get(op, Op).value); }
    }
  }

  /** The gate looks at a list of operations, none of the first hundred a script; the sanitiser cuts off the rest. */
  predicate ShowsTyped(s: Setting, transaction: Json) {
    && Get(transaction, Operations).Some? && Get(transaction, Operations).value.List?
    && var ops := Get(transaction, Operations).value.items;
       ops != [] && forall i :: 0 <= i < |ops| && i < 100 ==> !ScriptOp(s, ops[i])
  }

  lemma ListReads(s: Setting, v: Json)
    requires ValidSetting(s)
    ensures var kept := Redact(s.rules, Safe(s.rules, v));
            && (kept.List? <==> v.List?)
            && (v.List? ==> && |kept.items| == (if |v.items| < 100 then |v.items| else 100)
                            && forall i :: 0 <= i < |kept.items| ==> kept.items[i] == Redact(s.rules, Safe(s.rules, v.items[i])))
  {}

  lemma OperationsRead(s: Setting, v: Json)
    requires ValidSetting(s)
    ensures var kept := Redact(s.rules, Safe(s.rules, v));
            kept.List? && kept.items != [] && (forall i :: 0 <= i < |kept.items| ==> !IsScript(kept.items[i]))
            <==> v.List? && v.items != [] && forall i :: 0 <= i < |v.items| && i < 100 ==> !ScriptOp(s, v.items[i])
  {
    hide Redact, Safe, IsScript, ScriptOp;
    ListReads(s, v);
    if v.List? {
      forall i | 0 <= i < |v.items| ensures IsScript(Redact(s.rules, Safe(s.rules, v.items[i]))) <==> ScriptOp(s, v.items[i]) {
        OpReads(s, v.items[i]);
      }
    }
  }

  lemma TransactionReads(s: Setting, t: TraceInput)
    requires ValidSetting(s) && t.transaction.Object?
    ensures TypedOperations(Or(Get(Body(s, t), Transaction))) <==> ShowsTyped(s, t.transaction)
  {
    hide Redact, Safe, IsScript, ScriptOp, Body;
    BodyEntry(s, t, Transaction, t.transaction);
    assert Plain(s.rules, Operations);
    SafeObject(s.rules, t.transaction, Operations);
    if Get(t.transaction, Operations).Some? { OperationsRead(s, Get(t.transaction, Operations).value); }
  }

  /** The route keeps some key. */
  predicate ShowsRoute(s: Setting, route: Json) {
    route.Object? && exists n :: n in route.entries && !s.rules.denied(n) && (s.rules.secret(n) || !s.rules.dropped(n))
  }

  lemma RouteReads(s: Setting, t: TraceInput)
    requires ValidSetting(s) && t.route.Object?
    ensures Truthy(Get(Body(s, t), Route)) <==> ShowsRoute(s, t.route)
  {
    hide Body;
    BodyEntry(s, t, Route, t.route);
    RouteKeys(s.rules, t.route.entries);
    var kept := Redact(s.rules, Safe(s.rules, t.route)).entries;
    if n :| n in kept { assert kept != map[]; }
    if kept != map[] { assert kept.Keys != {}; }
  }

  /** The keys that sanitising and redacting leave. */
  lemma RouteKeys(r: Rules, entries: map<Name, Json>)
    ensures var kept := Redact(r, Safe(r, Object(entries)));
            kept.Object? && forall n :: n in kept.entries <==> n in entries && !r.denied(n) && (r.secret(n) || !r.dropped(n))
  {
    var inner := map k | k in entries && !r.denied(k) :: Safe(r, entries[k]);
    assert forall n :: n in inner <==> n in entries && !r.denied(n);
    var once := Redact(r, Object(inner));
    assert once == Safe(r, Object(entries));
  }

  lemma RequestReads(s: Setting, t: TraceInput)
    requires ValidSetting(s)
    ensures Truthy(Get(Body(s, t), Request)) <==> t.request != []
  {
    hide Body;
    BodyEntry(s, t, Request, Text(t.request));
  }

  lemma TypedIsShown(s: Setting, t: TraceInput)
    requires ValidSetting(s) && TypedPlan(s, t)
    ensures t.transaction.Object? && t.route.Object? && ShowsTyped(s, t.transaction) && ShowsRoute(s, t.route) && t.request != []
  {}

  lemma AddingKeepsFree(banned: Name -> bool, entries: map<Name, Json>, n: Name, v: Json)
    requires FreeOf(banned, Object(entries)) && !banned(n) && FreeOf(banned, v)
    ensures FreeOf(banned, Object(entries[n := v]))
  {}

  /** The identity digest and the quality mark are not transcript-shaped. */
  lemma BodyIsFree(s: Setting, t: TraceInput, accepted: bool)
    requires ValidSetting(s)
    ensures FreeOf(s.rules.denied, Body(s, t)) && FreeOf(s.rules.denied, Marked(Body(s, t), accepted))
  {
    hide Safe, FreeOf;
    var safe := Safe(s.rules, Supplied(s, t));
    SafeIsFree(s.rules, Supplied(s, t));
    assert Plain(s.rules, TraceId) && Plain(s.rules, TrainingQuality) && Plain(s.rules, Accepted) && Plain(s.rules, Reasons);
    if safe.Object? {
      LeafIsFree(s.rules.denied, s.digest(Identity(safe.entries)));
      AddingKeepsFree(s.rules.denied, safe.entries, TraceId, Text(s.digest(Identity(safe.entries))));
    }
    if Body(s, t).Object? {
      MarkIsFree(s, accepted);
      AddingKeepsFree(s.rules.denied, Body(s, t).entries, TrainingQuality, Object(map[Accepted := Bool(accepted), Reasons := List([])]));
    }
  }

  lemma LeafIsFree(banned: Name -> bool, text: string)
    ensures FreeOf(banned, Text(text))
  {}

  lemma MarkIsFree(s: Setting, accepted: bool)
    requires ValidSetting(s)
    ensures FreeOf(s.rules.denied, Object(map[Accepted := Bool(accepted), Reasons := List([])]))
  {
    assert Plain(s.rules, Accepted) && Plain(s.rules, Reasons);
  }

  /** The state the gate reads: a `state` entry, sanitised, or else the status. */
  predicate StateAllows(s: Setting, receipt: Json) {
    Get(receipt, State).Some? ==> Redact(s.rules, Safe(s.rules, Get(receipt, State).value)) == Text(COMPLETED)
  }

  /** The gate sees the receipt's status and state as the workflow does. */
  lemma GateSeesReceipt(s: Setting, t: TraceInput)
    requires ValidSetting(s) && t.receipt.Object?
    ensures var receipt := Or(Get(Body(s, t), Name.Receipt));
            && (Get(receipt, State).Some? <==> Get(t.receipt, State).Some?)
            && (Get(t.receipt, State).Some? ==> Get(receipt, State) == Some(Redact(s.rules, Safe(s.rules, Get(t.receipt, State).value))))
            && (Says(Get(t.receipt, Status), COMPLETED) ==> Says(Get(receipt, Status), COMPLETED))
  {
    hide Redact, Safe, Body, Supplied;
    SuppliedEvidence(s, t);
    BodyEntry(s, t, Name.Receipt, t.receipt);
    assert Plain(s.rules, State) && Plain(s.rules, Status);
    SafeObject(s.rules, t.receipt, State);
    SafeObject(s.rules, t.receipt, Status);
    OrKeeps(Safe(s.rules, t.receipt));
    WordsStay(s);
  }

  lemma VerdictWords(receipt: Json, verification: Json)
    requires WorkflowVerdict(receipt, verification)
    ensures exists w :: w in [NOT_RUN, VERIFIED, FAILED] && Get(verification, Status) == Some(Text(w))
    ensures Get(verification, Failed).Some?
    ensures Says(Get(verification, Status), VERIFIED) ==> Get(verification, Failed) == Some(List([]))
  {
    WordsDiffer();
  }

  /** The gate sees the verdict as the workflow does. */
  lemma GateSeesVerdict(s: Setting, t: TraceInput)
    requires ValidSetting(s) && t.verification.Object? && WorkflowVerdict(t.receipt, t.verification)
    ensures var verification := Or(Get(Body(s, t), Name.Verification));
            && (Says(Get(verification, Status), VERIFIED) <==> Says(Get(t.verification, Status), VERIFIED))
            && !Says(Get(verification, Status), PASSED)
            && (Says(Get(t.verification, Status), VERIFIED) ==> !Truthy(Get(verification, Failed)))
  {
    hide Redact, Safe, Body, Supplied, WorkflowVerdict;
    SuppliedEvidence(s, t);
    VerdictWords(t.receipt, t.verification);
    BodyEntry(s, t, Name.Verification, t.verification);
    assert Plain(s.rules, Status) && Plain(s.rules, Failed);
    SafeObject(s.rules, t.verification, Status);
    SafeObject(s.rules, t.verification, Failed);
    OrKeeps(Safe(s.rules, t.verification));
    WordsStay(s);
    EmptyListStays(s.rules);
    WordsDiffer();
  }

  lemma SuppliedEvidence(s: Setting, t: TraceInput)
    ensures Get(Supplied(s, t), Name.Receipt) == Some(t.receipt) && Get(Supplied(s, t), Name.Verification) == Some(t.verification)
  {}

  lemma OrKeeps(v: Json)
    requires v.Object?
    ensures Or(Some(v)) == v
  {}

  lemma WordsStay(s: Setting)
    requires ValidSetting(s)
    ensures forall w :: w in [COMPLETED, VERIFIED, NOT_RUN, FAILED] ==> Redact(s.rules, Safe(s.rules, Text(w))) == Text(w)
  {
    forall w | w in [COMPLETED, VERIFIED, NOT_RUN, FAILED] ensures Redact(s.rules, Safe(s.rules, Text(w))) == Text(w) {
      WordsSurvive(s, w);
    }
  }

  lemma EmptyListStays(r: Rules)
    ensures Redact(r, Safe(r, List([]))) == List([])
  {}

  /** Exactly when the training gate accepts a workflow's trace: it is verified, no `state` entry of the receipt contradicts its
      status, there is a request and a route, and there are operations, no script among the first hundred. */
  lemma GateDecides(s: Setting, t: TraceInput)
    requires ValidSetting(s) && WorkflowVerdict(t.receipt, t.verification)
    requires t.receipt.Object? && t.verification.Object? && t.transaction.Object? && t.route.Object?
    ensures PassesGate(s, Body(s, t)) <==>
              && Says(Get(t.verification, Status), VERIFIED) && StateAllows(s, t.receipt)
              && t.request != [] && ShowsRoute(s, t.route) && ShowsTyped(s, t.transaction)
  {
    hide Redact, Safe, Body, TypedOperations, WorkflowVerdict, ShowsTyped, ShowsRoute;
    GateSeesReceipt(s, t);
    GateSeesVerdict(s, t);
    TransactionReads(s, t);
    RequestReads(s, t);
    RouteReads(s, t);
    BodyIsFree(s, t, true);
    FreeIsClean(s.rules, Body(s, t));
    if Says(Get(t.verification, Status), VERIFIED) { StatusAlone(t.receipt, t.verification); }
  }

  /** The training gate accepts a typed workflow's trace exactly when it is verified and no `state` entry of the receipt
      contradicts its status. */
  lemma GateIffVerified(s: Setting, t: TraceInput)
    requires ValidSetting(s) && TypedPlan(s, t) && WorkflowVerdict(t.receipt, t.verification)
    ensures PassesGate(s, Body(s, t)) <==> Says(Get(t.verification, Status), VERIFIED) && StateAllows(s, t.receipt)
  {
    hide PassesGate, Body, TypedPlan, WorkflowVerdict, ShowsTyped, ShowsRoute, StateAllows;
    PlanObjects(s, t);
    TypedIsShown(s, t);
    GateDecides(s, t);
  }

  lemma PlanObjects(s: Setting, t: TraceInput)
    requires TypedPlan(s, t)
    ensures t.receipt.Object? && t.verification.Object?
  {}

  lemma StatusAlone(receipt: Json, verification: Json)
    requires WorkflowVerdict(receipt, verification) && Says(Get(verification, Status), VERIFIED)
    ensures Says(Get(receipt, Status), COMPLETED)
  {
    WordsDiffer();
  }

  ghost predicate InjectiveDigest(s: Setting) {
    forall a, b :: s.digest(a) == s.digest(b) ==> a == b
  }

  /** Two runs' traces carry one id exactly if they agree in everything but the time they were made at. */
  lemma TraceIdTells(s: Setting, t: TraceInput, u: TraceInput)
    requires ValidSetting(s) && InjectiveDigest(s)
    ensures Get(Body(s, t), TraceId).Some?
    ensures Get(Body(s, t), TraceId) == Get(Body(s, u), TraceId)
       <==> forall n: Name :: n != CreatedAt && n != TraceId ==> Get(Body(s, t), n) == Get(Body(s, u), n)
  {
    hide ValidSetting, Body, Identity, Safe, Supplied;
    BodyIsSafe(s, t);
    BodyIsSafe(s, u);
    var a, b := Safe(s.rules, Supplied(s, t)), Safe(s.rules, Supplied(s, u));
    SameIdentity(a.entries, b.entries);
    forall n: Name | n != TraceId ensures Get(Body(s, t), n) == Get(a, n) && Get(Body(s, u), n) == Get(b, n) {
      BodyShows(s, t, n);
      BodyShows(s, u, n);
    }
    BodyShows(s, t, TraceId);
    BodyShows(s, u, TraceId);
    if forall n: Name :: n != CreatedAt && n != TraceId ==> Get(Body(s, t), n) == Get(Body(s, u), n) {
      forall n: Name | n != CreatedAt ensures Get(a, n) == Get(b, n) {
        if n != TraceId { assert Get(Body(s, t), n) == Get(Body(s, u), n); }
      }
    }
  }

  lemma SameIdentity(a: map<Name, Json>, b: map<Name, Json>)
    ensures Identity(a) == Identity(b) <==> forall n: Name :: n != CreatedAt ==> Get(Object(a), n) == Get(Object(b), n)
  {
    if forall n: Name :: n != CreatedAt ==> Get(Object(a), n) == Get(Object(b), n) {
      forall n: Name ensures n in Identity(a).entries <==> n in Identity(b).entries {
        if n != CreatedAt { assert Get(Object(a), n) == Get(Object(b), n); }
      }
      forall n: Name | n in Identity(a).entries ensures Identity(a).entries[n] == Identity(b).entries[n] {
        assert Get(Object(a), n) == Get(Object(b), n);
      }
    }
    if Identity(a) == Identity(b) {
      forall n: Name | n != CreatedAt ensures Get(Object(a), n) == Get(Object(b), n) {
        assert n in a <==> n in Identity(a).entries;
        assert n in b <==> n in Identity(b).entries;
      }
    }
  }

  lemma BodyShows(s: Setting, t: TraceInput, n: Name)
    requires Safe(s.rules, Supplied(s, t)).Object?
    ensures var safe := Safe(s.rules, Supplied(s, t));
            Get(Body(s, t), n) == if n == TraceId then Some(Text(s.digest(Identity(safe.entries)))) else Get(safe, n)
  {
    hide Safe, Supplied, Identity;
  }

  /** Sanitising what a trace is made of leaves an object. */
  lemma BodyIsSafe(s: Setting, t: TraceInput)
    requires ValidSetting(s)
    ensures Safe(s.rules, Supplied(s, t)).Object? && TraceId !in Safe(s.rules, Supplied(s, t)).entries
  {
    assert Plain(s.rules, SchemaVersion) && Plain(s.rules, TraceId);
    SafeKeepsPlainKeys(s.rules, Supplied(s, t).entries, TraceId);
  }

  /** What a part of the trace is once sanitised. */
  function Kept(s: Setting, v: Json): Option<Json> {
    Some(Redact(s.rules, Safe(s.rules, v)))
  }

  /** What is handed in for each part of a trace. */
  function Part(s: Setting, t: TraceInput, n: Name): Option<Json> {
    match n
    case SchemaVersion => Some(Text(s.schema))
    case CreatedAt => Some(Int(t.createdAt))
    case Request => Some(Text(t.request))
    case Route => Some(t.route)
    case SceneSubset => Some(t.scene)
    case Transaction => Some(t.transaction)
    case Timing => Some(t.timing)
    case ToolOutcomes => Some(List(t.outcomes))
    case Receipt => Some(t.receipt)
    case Verification => Some(t.verification)
    case Recovery => Some(Object(map[]))
    case Model => Some(t.model)
    case TokenUsage => Some(t.usage)
    case CorrelationId => Some(Text(t.correlation))
    case _ => None
  }

  /** Each part of a trace is what was handed in for it, sanitised; beside the parts there is only the trace's id. */
  lemma TraceHolds(s: Setting, t: TraceInput, n: Name)
    requires ValidSetting(s)
    ensures Part(s, t, n).Some? ==> Get(Body(s, t), n) == Some(Redact(s.rules, Safe(s.rules, Part(s, t, n).value)))
    ensures Part(s, t, n).None? && n != TraceId ==> Get(Body(s, t), n) == None
  {
    hide ValidSetting, Safe, Redact, Body, Supplied, Part;
    SuppliedParts(s, t, n);
    if Part(s, t, n).Some? { BodyEntry(s, t, n, Part(s, t, n).value); }
    NothingElse(s, t, n);
  }

  lemma SuppliedParts(s: Setting, t: TraceInput, n: Name)
    ensures Get(Supplied(s, t), n) == Part(s, t, n)
    ensures Part(s, t, n).Some? ==> !n.OtherName? && n != TraceId
  {}

  lemma NothingElse(s: Setting, t: TraceInput, n: Name)
    ensures Get(Supplied(s, t), n).None? && n != TraceId ==> Get(Body(s, t), n).None?
  {
    hide Safe, Redact;
    SafeKeepsPlainKeys(s.rules, Supplied(s, t).entries, n);
  }

  /** A made trace is its parts, its id, and a mark that says whether the gate accepts it. */
  lemma MarkTells(s: Setting, t: TraceInput, n: Name)
    requires ValidSetting(s) && MakeTrace(s, t).Some?
    ensures Get(MakeTrace(s, t).value, n) ==
              if n == TrainingQuality then Some(Object(map[Accepted := Bool(PassesGate(s, Body(s, t))), Reasons := List([])]))
              else Get(Body(s, t), n)
  {
    hide PassesGate, Safe, Supplied;
    BodyIsSafe(s, t);
  }

  /** The transcript test finds exactly the data that is not free of transcript-shaped keys. */
  lemma {:induction false} TranscriptIsFound(r: Rules, v: Json)
    ensures ContainsTranscript(r, v) <==> !FreeOf(r.transcript, v)
    decreases v
  {
    match v
    case Object(entries) => forall k | k in entries ensures ContainsTranscript(r, entries[k]) <==> !FreeOf(r.transcript, entries[k]) {
      TranscriptIsFound(r, entries[k]);
    }
    case List(items) => forall i | 0 <= i < |items| ensures ContainsTranscript(r, items[i]) <==> !FreeOf(r.transcript, items[i]) {
      TranscriptIsFound(r, items[i]);
    }
    case _ =>
  }

  /** A trace that was made is recordable: the journal never refuses it as a transcript or as foreign. */
  lemma MadeTracesAreRecordable(s: Setting, t: TraceInput)
    requires ValidSetting(s)
    ensures MakeTrace(s, t).Some? ==> Recordable(s, MakeTrace(s, t).value)
  {
    hide Safe, Redact, PassesGate, Body;
    var accepted := PassesGate(s, Body(s, t));
    BodyIsFree(s, t, accepted);
    FreeIsClean(s.rules, Marked(Body(s, t), accepted));
    MarkedFields(s, t, accepted);
    assert Plain(s.rules, SchemaVersion) && Plain(s.rules, TraceId);
    SafeObject(s.rules, Marked(Body(s, t), accepted), SchemaVersion);
    SafeObject(s.rules, Marked(Body(s, t), accepted), TraceId);
  }

  lemma MarkedFields(s: Setting, t: TraceInput, accepted: bool)
    requires ValidSetting(s)
    ensures var trace := Marked(Body(s, t), accepted);
            && trace.Object? && Get(trace, SchemaVersion).Some? && Get(trace, TraceId).Some?
            && Redact(s.rules, Safe(s.rules, Get(trace, SchemaVersion).value)) == Text(s.schema)
            && Truthy(Some(Redact(s.rules, Safe(s.rules, Get(trace, TraceId).value))))
  {
    BodyEntry(s, t, SchemaVersion, Text(s.schema));
  }
}
