/**
 The Blender and FreeCAD gateways: a receipt check, the lock, the check again, then one script send between two scene
 reads. A script whose reply is lost may still run later, when the lock has long been given up.
 Code between two awaits is one event; a schedule is any sequence of events, task cancellations included.
 */
module LockedGateway {
  import opened Wrappers
  import opened HostContract

  type Caller = nat

  /** What the host application has open. */
  datatype Doc = Doc(id: string, units: string, objects: seq<SceneObject>)

  /** `valid` is false for a blank key and for operations that do not compile. `script` is what they compile to. */
  datatype Request = Request(key: string, fingerprint: nat, valid: bool, dryRun: bool, expected: Option<string>, script: Doc -> Doc)

  datatype World = World(text: Text, digest: Digest, start: Doc, requests: Caller -> Request) {
    function Key(c: Caller): string {
      requests(c).key
    }

    function Fingerprint(c: Caller): nat {
      requests(c).fingerprint
    }
  }

  datatype Status = Completed | Unknown

  datatype Receipt = Receipt(owner: Caller, fingerprint: nat, status: Status, delta: Delta)

  const NO_DELTA := Delta({}, {}, {})

  datatype Answer = Own(receipt: Receipt) | Replayed(prior: Receipt) | Conflict(prior: Receipt) | Validated | Stale | Raised

  /** A sender keeps the objects of its before-scene. */
  datatype Pc =
    | Idle | WantLock | Reading | Sending(before: seq<SceneObject>) | ReadingAfter(before: seq<SceneObject>)
    | Done(answer: Answer) | Cancelled

  /** `sends` are the callers whose scripts went out, `ran` those whose scripts have run, each in that order. */
  datatype State = State(
    callers: map<Caller, Pc>, receipts: map<string, Receipt>, lock: Option<Caller>, sends: seq<Caller>, ran: seq<Caller>)

  datatype Event =
    | Start(c: Caller) | Acquire(c: Caller) | ReadBefore(c: Caller) | Runs(c: Caller) | Replies(c: Caller)
    | ReadAfter(c: Caller) | Fail(c: Caller) | Cancel(c: Caller)

  /** The document after these scripts. */
  function DocAfter(w: World, ran: seq<Caller>): Doc {
    if ran == [] then w.start else w.requests(ran[|ran| - 1]).script(DocAfter(w, ran[..|ran| - 1]))
  }

  /** What a scene read shows after these scripts; scenes with missing or repeated ids are refused. */
  function SceneAfter(w: World, ran: seq<Caller>): Finalized {
    var doc := DocAfter(w, ran);
    FinalizeScene(w.text, w.digest, doc.id, doc.units, doc.objects)
  }

  function At(s: State, c: Caller): Pc {
    if c in s.callers then s.callers[c] else Idle
  }

  function Initial(): State {
    State(map[], map[], None, [], [])
  }

  predicate Critical(pc: Pc) {
    pc.Reading? || pc.Sending? || pc.ReadingAfter?
  }

  function AnswerFrom(prior: Receipt, fingerprint: nat): Answer {
    if prior.fingerprint == fingerprint then Replayed(prior) else Conflict(prior)
  }

  function Move(s: State, c: Caller, pc: Pc): State {
    s.(callers := s.callers[c := pc])
  }

  /** The lock holder stores its receipt and releases the lock. */
  function Settle(w: World, s: State, c: Caller, status: Status, delta: Delta): State {
    var receipt := Receipt(c, w.Fingerprint(c), status, delta);
    Move(s, c, Done(Own(receipt))).(receipts := s.receipts[w.Key(c) := receipt], lock := None)
  }

  /** The before-scene decides: unreadable, of another revision than expected, or the script goes out. */
  function Decide(w: World, s: State, c: Caller): State {
    match SceneAfter(w, s.ran)
    case Scene(_, _, revision, objects) =>
      if w.requests(c).expected.Some? && w.requests(c).expected.value != revision then Move(s, c, Done(Stale)).(lock := None)
      else Move(s, c, Sending(objects)).(sends := s.sends + [c])
    case _ => Settle(w, s, c, Unknown, NO_DELTA)
  }

  /** The after-scene completes the receipt. */
  function Complete(w: World, s: State, c: Caller, before: seq<SceneObject>): State {
    match SceneAfter(w, s.ran)
    case Scene(_, _, _, objects) => Settle(w, s, c, Completed, SceneDelta(before, objects))
    case _ => Settle(w, s, c, Unknown, NO_DELTA)
  }

  /** One event; an event that is not enabled changes nothing. */
  function Step(w: World, s: State, e: Event): State {
    var c := e.c;
    match e
    case Start(_) =>
      if At(s, c) != Idle then s
      else if !w.requests(c).valid then Move(s, c, Done(Raised))
      else if w.Key(c) in s.receipts then Move(s, c, Done(AnswerFrom(s.receipts[w.Key(c)], w.Fingerprint(c))))
      else if w.requests(c).dryRun then Move(s, c, Done(Validated))
      else Move(s, c, WantLock)
    case Acquire(_) =>
      if At(s, c) != WantLock || s.lock.Some? then s
      else if w.Key(c) in s.receipts then Move(s, c, Done(AnswerFrom(s.receipts[w.Key(c)], w.Fingerprint(c))))
      else Move(s, c, Reading).(lock := Some(c))
    case ReadBefore(_) => if At(s, c) == Reading then Decide(w, s, c) else s
    case Runs(_) => if c in s.sends && c !in s.ran then s.(ran := s.ran + [c]) else s
    case Replies(_) => if At(s, c).Sending? && c in s.ran then Move(s, c, ReadingAfter(At(s, c).before)) else s
    case ReadAfter(_) => if At(s, c).ReadingAfter? then Complete(w, s, c, At(s, c).before) else s
    case Fail(_) => if Critical(At(s, c)) then Settle(w, s, c, Unknown, NO_DELTA) else s
    case Cancel(_) =>
      if Critical(At(s, c)) then Move(s, c, Cancelled).(lock := None)
      else if At(s, c) == WantLock then Move(s, c, Cancelled)
      else s
  }

  function Run(w: World, s: State, schedule: seq<Event>): State
    decreases |schedule|
  {
    if schedule == [] then s else Run(w, Step(w, s, schedule[0]), schedule[1..])
  }

  // ---------------------------------------------------------------- the invariant

  /** The caller gave up on its script's reply, or its receipt says nothing about it. */
  predicate Lost(s: State, c: Caller) {
    At(s, c) == Cancelled || (At(s, c).Done? && At(s, c).answer.Own? && At(s, c).answer.receipt.status == Unknown)
  }

  /** Scripts run after they are sent, and once. */
  predicate RunsOk(s: State) {
    && (forall i :: 0 <= i < |s.ran| ==> s.ran[i] in s.sends)
    && (forall i, j :: 0 <= i < j < |s.ran| ==> s.ran[i] != s.ran[j])
  }

  predicate NeverSent(s: State, c: Caller) {
    c !in s.sends
  }

  predicate SentAtMostOnce(s: State, c: Caller) {
    forall i, j :: 0 <= i < |s.sends| && 0 <= j < |s.sends| && s.sends[i] == c && s.sends[j] == c ==> i == j
  }

  /** `objects` is the scene after the first `m` scripts, and a revision the call accepts. */
  predicate ReadAt(w: World, s: State, c: Caller, m: nat, objects: seq<SceneObject>) {
    && m <= |s.ran| && SceneAfter(w, s.ran[..m]).Scene? && SceneAfter(w, s.ran[..m]).objects == objects
    && w.requests(c).expected in {None, Some(SceneAfter(w, s.ran[..m]).revision)}
  }

  /** Of the scripts from the m-th to before the n-th, all but that of `c` were lost. */
  predicate OnlyStrays(s: State, c: Caller, m: nat, n: nat) {
    n <= |s.ran| && forall i :: m <= i < n && s.ran[i] != c ==> Lost(s, s.ran[i])
  }

  /** A sender read its before-scene when its own script had not run; since then only lost scripts have, beside its own. */
  ghost predicate SenderOk(w: World, s: State, c: Caller, before: seq<SceneObject>) {
    c in s.sends && SentAtMostOnce(s, c)
    && exists m: nat :: ReadAt(w, s, c, m, before) && c !in s.ran[..m] && OnlyStrays(s, c, m, |s.ran|)
  }

  /** A completed receipt compares the scenes around the caller's script and the lost scripts that ran beside it. */
  predicate Spans(w: World, s: State, c: Caller, m: nat, n: nat, delta: Delta) {
    && m <= n <= |s.ran| && SceneAfter(w, s.ran[..m]).Scene? && SceneAfter(w, s.ran[..n]).Scene?
    && w.requests(c).expected in {None, Some(SceneAfter(w, s.ran[..m]).revision)}
    && delta == SceneDelta(SceneAfter(w, s.ran[..m]).objects, SceneAfter(w, s.ran[..n]).objects)
    && c in s.ran[m..n] && OnlyStrays(s, c, m, n)
  }

  ghost predicate ReceiptOk(w: World, s: State, c: Caller, r: Receipt) {
    && r.owner == c && r.fingerprint == w.Fingerprint(c) && w.Key(c) in s.receipts && s.receipts[w.Key(c)] == r && !w.requests(c).dryRun
    && SentAtMostOnce(s, c)
    && if r.status == Completed then c in s.sends && c in s.ran && exists m: nat, n: nat :: Spans(w, s, c, m, n, r.delta)
       else r.delta == NO_DELTA
  }

  ghost predicate AnswerOk(w: World, s: State, c: Caller, answer: Answer) {
    match answer
    case Own(r) => ReceiptOk(w, s, c, r)
    case Replayed(r) => NeverSent(s, c) && w.Key(c) in s.receipts && s.receipts[w.Key(c)] == r && r.fingerprint == w.Fingerprint(c)
    case Conflict(r) => NeverSent(s, c) && w.Key(c) in s.receipts && s.receipts[w.Key(c)] == r && r.fingerprint != w.Fingerprint(c)
    case Validated => NeverSent(s, c)
    case Stale => NeverSent(s, c) && StaleAt(w, s, c)
    case Raised => NeverSent(s, c)
  }

  /** The call found another revision than it expected. */
  ghost predicate StaleAt(w: World, s: State, c: Caller) {
    exists m: nat :: m <= |s.ran| && SceneAfter(w, s.ran[..m]).Scene?
                     && w.requests(c).expected !in {None, Some(SceneAfter(w, s.ran[..m]).revision)}
  }

  ghost predicate CallerOk(w: World, s: State, c: Caller) {
    && (s.lock == Some(c) <==> Critical(At(s, c)))
    && match At(s, c)
       case Idle => NeverSent(s, c)
       case WantLock => NeverSent(s, c) && !w.requests(c).dryRun
       case Reading => NeverSent(s, c) && w.Key(c) !in s.receipts && !w.requests(c).dryRun
       case Sending(before) => SenderOk(w, s, c, before) && w.Key(c) !in s.receipts && !w.requests(c).dryRun
       case ReadingAfter(before) => SenderOk(w, s, c, before) && c in s.ran && w.Key(c) !in s.receipts && !w.requests(c).dryRun
       case Done(answer) => AnswerOk(w, s, c, answer)
       case Cancelled => SentAtMostOnce(s, c) && !w.requests(c).dryRun
  }

  predicate KeyOk(w: World, s: State, key: string) {
    key in s.receipts ==>
      var r := s.receipts[key];
      w.Key(r.owner) == key && At(s, r.owner) == Done(Own(r))
  }

  ghost predicate Inv(w: World, s: State) {
    (forall c :: CallerOk(w, s, c)) && (forall key :: KeyOk(w, s, key)) && RunsOk(s)
  }

  /** Of two sends under one key, the earlier caller was cancelled. */
  predicate LogOk(w: World, s: State) {
    forall i, j :: 0 <= i < j < |s.sends| && w.Key(s.sends[i]) == w.Key(s.sends[j]) ==> At(s, s.sends[i]) == Cancelled
  }
}
