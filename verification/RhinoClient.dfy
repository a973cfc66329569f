/**
 The script client of Rhino: futures and receipts in memory, and one receipt per key persisted in the document,
 which alone survives a restart of the sidecar. Code between two awaits is one event.

 Rhino serves requests in order: `pending` holds sent scripts it has not served, and serving any later request
 drops the earlier ones for good. A served script runs, undoes itself on error and persists its receipt in one go.
 The client's lock only removes interleavings, so it is not part of the state.
 */
module RhinoClient {
  import opened Wrappers

  type Caller = nat

  /** The open document: each object's id with whatever else there is to it. */
  type Doc = map<string, nat>

  /** What a script does: the document it leaves, whether it raised, and whether its undo record could be taken back. */
  datatype Effect = Effect(doc: Doc, raised: bool, recorded: bool, undoes: bool)

  /** `immediate` calls are answered without touching Rhino: dry runs and scripts that break the policy. */
  datatype Request = Request(key: string, fingerprint: nat, immediate: bool, script: Doc -> Effect)

  datatype World = World(requests: Caller -> Request, start: Doc)

  /** What the wrapper around a script reports, and the document it leaves: a script that raised is undone if it can be. */
  datatype Report = Report(failed: bool, created: set<string>, deleted: set<string>, rolledBack: bool)

  function Left(effect: Effect, before: Doc): Doc {
    if effect.raised && effect.recorded && effect.undoes then before else effect.doc
  }

  function ReportOf(effect: Effect, before: Doc): Report {
    var after := Left(effect, before);
    Report(effect.raised, after.Keys - before.Keys, before.Keys - after.Keys,
           effect.raised && effect.recorded && effect.undoes && after.Keys == before.Keys)
  }

  /** The document after these scripts. */
  function DocAfter(w: World, executions: seq<Caller>): Doc {
    if executions == [] then w.start
    else
      var before := DocAfter(w, executions[..|executions| - 1]);
      Left(w.requests(executions[|executions| - 1]).script(before), before)
  }

  /** The report of the first script of `c` among these; None when there is none. */
  function ReportAt(w: World, executions: seq<Caller>, c: Caller): Option<Report> {
    if executions == [] then None
    else
      var init, last := executions[..|executions| - 1], executions[|executions| - 1];
      if c in init then ReportAt(w, init, c)
      else if c == last then Some(ReportOf(w.requests(c).script(DocAfter(w, init)), DocAfter(w, init)))
      else None
  }

  /** `report` is None for the receipt of a run whose fate could not be read back. */
  datatype Receipt = Receipt(owner: Caller, fingerprint: nat, report: Option<Report>)

  datatype Answer = Ran(receipt: Receipt) | Replayed(receipt: Receipt) | Conflict(receipt: Receipt) | Immediate | Raised

  datatype Pc = Idle | Awaiting(owner: Caller) | Checking | Armed | Sent | Rechecking | Done(answer: Answer) | Gone

  datatype State = State(
    callers: map<Caller, Pc>,
    recent: map<string, Receipt>,
    inflight: map<string, Caller>,
    persisted: map<string, Receipt>,
    pending: seq<Caller>,
    executions: seq<Caller>,
    blind: set<Caller>
  )

  datatype Event =
    | Start(c: Caller) | ReadServed(c: Caller) | ReadFailed(c: Caller) | Send(c: Caller) | Reply(c: Caller) | Lost(c: Caller)
    | RecheckServed(c: Caller) | RecheckFailed(c: Caller) | Fail(c: Caller) | Wake(c: Caller)
    | ServeScript(n: nat) | OtherRequest | Restart

  function At(s: State, c: Caller): Pc {
    if c in s.callers then s.callers[c] else Idle
  }

  function Initial(): State {
    State(map[], map[], map[], map[], [], [], {})
  }

  predicate Serving(pc: Pc) {
    pc.Checking? || pc.Armed? || pc.Sent? || pc.Rechecking?
  }

  function Move(s: State, c: Caller, pc: Pc): State {
    s.(callers := s.callers[c := pc])
  }

  /** The owner's future settles and the key leaves the in-flight table. */
  function Leave(w: World, s: State, c: Caller, answer: Answer): State {
    Move(s, c, Done(answer)).(inflight := s.inflight - {w.requests(c).key})
  }

  /** The owner finishes a real run: its receipt is remembered under the key. */
  function Finish(w: World, s: State, c: Caller, receipt: Receipt): State {
    var s' := Leave(w, s, c, Ran(receipt));
    if w.requests(c).key == "" then s' else s'.(recent := s.recent[w.requests(c).key := receipt])
  }

  function AnswerFrom(prior: Receipt, fingerprint: nat): Answer {
    if prior.fingerprint == fingerprint then Replayed(prior) else Conflict(prior)
  }

  function Begin(w: World, s: State, c: Caller): State {
    var r := w.requests(c);
    if r.key != "" && r.key in s.recent then Move(s, c, Done(AnswerFrom(s.recent[r.key], r.fingerprint)))
    else if r.key != "" && r.key in s.inflight then Move(s, c, Awaiting(s.inflight[r.key]))
    else if r.immediate then Move(s, c, Done(Immediate))
    else if r.key == "" then Move(s, c, Armed)
    else Move(s, c, Checking).(inflight := s.inflight[r.key := c])
  }

  /** The recovery read before the mutation: Rhino serves it, so every earlier script has run or never will. */
  function Check(w: World, s: State, c: Caller): State {
    var key := w.requests(c).key;
    var s1 := s.(pending := []);
    if key !in s.persisted then Move(s1, c, Armed)
    else if s.persisted[key].fingerprint == w.requests(c).fingerprint then
      Leave(w, s1, c, Replayed(s.persisted[key])).(recent := s.recent[key := s.persisted[key]])
    else Leave(w, s1, c, Conflict(s.persisted[key]))
  }

  function Unread(w: World, c: Caller): Receipt {
    Receipt(c, w.requests(c).fingerprint, None)
  }

  /** The recovery read after a lost reply takes whatever receipt the document holds for the key. */
  function Recheck(w: World, s: State, c: Caller): State {
    var key := w.requests(c).key;
    Finish(w, s.(pending := []), c, if key != "" && key in s.persisted then s.persisted[key] else Unread(w, c))
  }

  /** The receipt that the script of `c` printed and persisted when it ran. */
  function ReceiptOf(w: World, executions: seq<Caller>, c: Caller): Receipt {
    Receipt(c, w.requests(c).fingerprint, ReportAt(w, executions, c))
  }

  /** Rhino serves the n-th pending script and forgets the earlier ones. */
  function Serve(w: World, s: State, n: nat): State
    requires n < |s.pending|
  {
    var c := s.pending[n];
    var key := w.requests(c).key;
    var s1 := s.(executions := s.executions + [c], pending := s.pending[n + 1..]);
    if key == "" then s1 else s1.(persisted := s.persisted[key := ReceiptOf(w, s1.executions, c)])
  }

  /** The sidecar restarts: its memory is empty and its unfinished calls are gone; document and network stay. */
  function Reboot(s: State): State {
    s.(callers := map c | c in s.callers :: if s.callers[c].Done? then s.callers[c] else Gone, recent := map[], inflight := map[])
  }

  /** One event; an event that is not enabled changes nothing. */
  function Step(w: World, s: State, e: Event): State {
    match e
    case Start(c) => if At(s, c) == Idle then Begin(w, s, c) else s
    case ReadServed(c) => if At(s, c) == Checking then Check(w, s, c) else s
    case ReadFailed(c) => if At(s, c) == Checking then Move(s, c, Armed).(blind := s.blind + {c}) else s
    case Send(c) => if At(s, c) == Armed then Move(s, c, Sent).(pending := s.pending + [c]) else s
    case Reply(c) =>
      if At(s, c) == Sent && c in s.executions then Finish(w, s, c, ReceiptOf(w, s.executions, c)) else s
    case Lost(c) => if At(s, c) == Sent then Move(s, c, Rechecking) else s
    case RecheckServed(c) => if At(s, c) == Rechecking then Recheck(w, s, c) else s
    case RecheckFailed(c) => if At(s, c) == Rechecking then Finish(w, s, c, Unread(w, c)) else s
    case Fail(c) =>
      if Serving(At(s, c)) then Leave(w, s, c, Raised)
      else if At(s, c).Awaiting? then Move(s, c, Done(Raised))
      else s
    case Wake(c) =>
      if At(s, c).Awaiting? && At(s, At(s, c).owner).Done? then
        match At(s, At(s, c).owner).answer
        case Ran(r) => Move(s, c, Done(AnswerFrom(r, w.requests(c).fingerprint)))
        case Replayed(r) => Move(s, c, Done(AnswerFrom(r, w.requests(c).fingerprint)))
        case Conflict(r) => Move(s, c, Done(Conflict(r)))
        case Immediate => s
        case Raised => Move(s, c, Done(Raised))
      else s
    case ServeScript(n) => if n < |s.pending| then Serve(w, s, n) else s
    case OtherRequest => s.(pending := [])
    case Restart => Reboot(s)
  }

  function Run(w: World, s: State, schedule: seq<Event>): State
    decreases |schedule|
  {
    if schedule == [] then s else Run(w, Step(w, s, schedule[0]), schedule[1..])
  }

  // ---------------------------------------------------------------- the invariant

  /** Scripts that ran, followed by those that still may. */
  function Trace(s: State): seq<Caller> {
    s.executions + s.pending
  }

  predicate SameKey(w: World, a: Caller, b: Caller) {
    w.requests(a).key == w.requests(b).key != ""
  }

  /** No script occurs twice, and of two scripts under one key the later one was sent blind. */
  ghost predicate Ordered(w: World, blind: set<Caller>, trace: seq<Caller>) {
    forall i, j :: 0 <= i < j < |trace| ==> trace[i] != trace[j] && (SameKey(w, trace[i], trace[j]) ==> trace[j] in blind)
  }

  /** A receipt with a report is that of a script of the key that ran. */
  predicate Truthful(w: World, s: State, key: string, r: Receipt) {
    r.report.Some? ==> r.owner in s.executions && w.requests(r.owner).key == key && r == ReceiptOf(w, s.executions, r.owner)
  }

  predicate Carries(answer: Answer) {
    answer.Ran? || answer.Replayed? || answer.Conflict?
  }

  predicate AnswerOk(w: World, s: State, c: Caller, answer: Answer) {
    && (Carries(answer) ==> Truthful(w, s, w.requests(c).key, answer.receipt))
    && (answer.Replayed? ==> answer.receipt.fingerprint == w.requests(c).fingerprint)
  }

  ghost predicate CallerOk(w: World, s: State, c: Caller) {
    && (Serving(At(s, c)) && w.requests(c).key != "" ==> w.requests(c).key in s.inflight && s.inflight[w.requests(c).key] == c)
    && (c in Trace(s) ==> At(s, c).Sent? || At(s, c).Rechecking? || At(s, c).Done? || At(s, c).Gone?)
    && match At(s, c)
       case Awaiting(owner) => w.requests(c).key == w.requests(owner).key != ""
       case Checking => w.requests(c).key != ""
       case Armed => c !in s.blind && w.requests(c).key != "" ==> forall d :: d in Trace(s) ==> w.requests(d).key != w.requests(c).key
       case Done(answer) => AnswerOk(w, s, c, answer)
       case _ => true
  }

  predicate KeyOk(w: World, s: State, key: string) {
    && (key in s.inflight ==> key != "" && key !in s.recent && w.requests(s.inflight[key]).key == key)
    && (key in s.recent ==> Truthful(w, s, key, s.recent[key]))
    && (key in s.persisted ==> s.persisted[key].report.Some? && Truthful(w, s, key, s.persisted[key]))
  }

  ghost predicate ExecutionsPersist(w: World, s: State) {
    forall c :: c in s.executions && w.requests(c).key != "" ==> w.requests(c).key in s.persisted
  }

  ghost predicate Inv(w: World, s: State) {
    && (forall c :: CallerOk(w, s, c)) && (forall key :: KeyOk(w, s, key))
    && ExecutionsPersist(w, s) && Ordered(w, s.blind, Trace(s))
  }
}
