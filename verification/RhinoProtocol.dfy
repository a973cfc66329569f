/**
 The concurrent protocol of the Rhino gateway: idempotency keys, in-flight futures, the write lock, and the document
 that the lock's holders change one command at a time. A command whose caller no longer waits for it may still take
 effect later, when the lock has long been given up. Code between two awaits is one event; a schedule is any sequence of
 events.
 */
module RhinoProtocol {
  import opened Wrappers
  import opened Values
  import opened Operations
  import opened Mapping
  import opened Host
  import Plugin
  import R = Receipts

  type Caller = nat
  type Fingerprint = nat

  /** `expected` is None for a missing or empty revision; `immediate` requests (dry runs and batches that do not compile) finish
      without an await. */
  datatype Request = Request(
    key: string, fingerprint: Fingerprint, valid: bool, immediate: bool, expected: Option<string>, commands: seq<Command>)

  /** Everything the protocol does not decide: the plugin, what scene reads show, the calls, and what happens to each of
      their commands. */
  datatype World = World(
    kernel: Kernel,
    scene: Document -> R.Scene,
    revision: R.Scene -> string,
    requests: Caller -> Request,
    fates: Caller -> nat -> R.Fate,
    start: Document)
  {
    function Key(c: Caller): string {
      requests(c).key
    }

    function Fingerprint(c: Caller): Fingerprint {
      requests(c).fingerprint
    }

    function Commands(c: Caller): seq<Command> {
      requests(c).commands
    }

    /** What the sending loop of `c` comes to when nobody else touches the document. */
    function Ending(c: Caller, before: Document): R.Ending {
      R.SendAll(kernel, Commands(c), Plugin.Begin(before), fates(c), 0)
    }

    /** The receipt of such an execution. */
    function ReceiptOf(c: Caller, before: Document): R.Receipt {
      R.ReceiptOf(Commands(c), Ending(c, before), scene(before), scene(Ending(c, before).s.doc))
    }
  }

  datatype Report = Early | Incompatible | Stale | Executed(receipt: R.Receipt)

  datatype Receipt = Receipt(owner: Caller, fingerprint: Fingerprint, report: Report)

  datatype Answer = Own(receipt: Receipt) | Replayed(receipt: Receipt) | Conflict(receipt: Receipt) | Raised

  /** `Locked` callers have not read the scene yet. */
  datatype Pc = Idle | Awaiting(owner: Caller) | WantLock | Locked | Executing | Done(answer: Answer)

  datatype Future = Pending | Resolved(receipt: Receipt) | Broken

  /** How far a holder's sending loop has come. */
  datatype Progress = Going(s: Plugin.RunState, at: nat) | Ended(ending: R.Ending)

  function DocOf(p: Progress): Document {
    if p.Going? then p.s.doc else p.ending.s.doc
  }

  /** One holder's time with the document, from its before-read on. `left` is the document up to the next turn; `clean`
      says that no stray command took effect before the turn was over. */
  datatype Turn = Turn(c: Caller, before: Document, progress: Progress, left: Document, clean: bool)

  function NewTurn(c: Caller, doc: Document): Turn {
    Turn(c, doc, Going(Plugin.Begin(doc), 0), doc, true)
  }

  /** A command that was sent, or is being sent, for a caller that does not wait for it any more. */
  datatype Stray = Stray(c: Caller, at: nat, name: CommandName, params: map<Key, Value>)

  datatype State = State(
    callers: map<Caller, Pc>,
    receipts: map<string, Receipt>,
    inflight: map<string, Caller>,
    futures: map<Caller, Future>,
    lock: Option<Caller>,
    doc: Document,
    turns: seq<Turn>,
    strays: set<Stray>
  )

  datatype Event =
    | Start(c: Caller) | Acquire(c: Caller) | Refuse(c: Caller) | ReadBefore(c: Caller) | Send(c: Caller)
    | Finish(c: Caller) | Fail(c: Caller) | Wake(c: Caller) | Lands(c: Caller, stray: Stray)

  function At(s: State, c: Caller): Pc {
    if c in s.callers then s.callers[c] else Idle
  }

  function Initial(w: World): State {
    State(map[], map[], map[], map[], None, w.start, [], {})
  }

  function AnswerFrom(prior: Receipt, fingerprint: Fingerprint): Answer {
    if prior.fingerprint == fingerprint then Replayed(prior) else Conflict(prior)
  }

  function Move(s: State, c: Caller, pc: Pc): State {
    s.(callers := s.callers[c := pc])
  }

  function Freed(lock: Option<Caller>, c: Caller): Option<Caller> {
    if lock == Some(c) then None else lock
  }

  /** The owner stores its receipt, resolves its future, leaves the in-flight table and gives up the lock. */
  function Settle(w: World, s: State, c: Caller, report: Report): State {
    var key, receipt := w.Key(c), Receipt(c, w.Fingerprint(c), report);
    var s' := Move(s, c, Done(Own(receipt))).(lock := Freed(s.lock, c));
    if key == "" then s'
    else s'.(receipts := s.receipts[key := receipt], futures := s.futures[c := Resolved(receipt)], inflight := s.inflight - {key})
  }

  /** The owner's exception breaks its future, frees the key and gives up the lock. */
  function Abandon(w: World, s: State, c: Caller): State {
    var s' := Move(s, c, Done(Raised)).(lock := Freed(s.lock, c));
    if w.Key(c) == "" then s' else s'.(futures := s.futures[c := Broken], inflight := s.inflight - {w.Key(c)})
  }

  function Begin(w: World, s: State, c: Caller): State {
    var r := w.requests(c);
    if !r.valid then Move(s, c, Done(Raised))
    else if r.key != "" && r.key in s.receipts then Move(s, c, Done(AnswerFrom(s.receipts[r.key], r.fingerprint)))
    else if r.key != "" && r.key in s.inflight then Move(s, c, Awaiting(s.inflight[r.key]))
    else if r.immediate then Settle(w, s, c, Early)
    else if r.key == "" then Move(s, c, WantLock)
    else Move(s, c, WantLock).(futures := s.futures[c := Pending], inflight := s.inflight[r.key := c])
  }

  /** One round of the sending loop: the next command, or the end. */
  function Next(w: World, c: Caller, p: Progress): Progress {
    match p
    case Ended(_) => p
    case Going(run, at) =>
      if at >= |w.Commands(c)| then Ended(R.Ending(run, R.Finished, at))
      else
        match R.SendOne(w.kernel, run, w.Commands(c)[at], w.fates(c)(at))
        case Continue(next) => Going(next, at + 1)
        case Stop(last, how) => Ended(R.Ending(last, how, at))
  }

  function LastTurn(s: State): Turn
    requires s.turns != []
  {
    s.turns[|s.turns| - 1]
  }

  predicate HasTurn(s: State, c: Caller) {
    s.turns != [] && LastTurn(s).c == c
  }

  function Latest(s: State, turn: Turn): State
    requires s.turns != []
  {
    s.(doc := turn.left, turns := s.turns[|s.turns| - 1 := turn])
  }

  /** The document is what the holder's latest command left. */
  function Progressed(s: State, p: Progress): State
    requires s.turns != []
  {
    Latest(s, LastTurn(s).(progress := p, left := DocOf(p)))
  }

  /** The command a holder has out. */
  function Out(w: World, c: Caller, p: Progress): set<Stray> {
    if p.Going? && p.at < |w.Commands(c)| then
      var command := w.Commands(c)[p.at];
      var params := Plugin.ResolveParams(command.params, p.s.aliases);
      if params.Ok? then {Stray(c, p.at, command.name, params.value)} else {}
    else {}
  }

  /** What a round of the loop leaves unaccounted for: the command whose reply is lost and that has not been applied. */
  function Unanswered(w: World, c: Caller, p: Progress): set<Stray> {
    if p.Going? && w.fates(c)(p.at) == R.LostUnapplied then Out(w, c, p) else {}
  }

  function WithDoc(p: Progress, doc: Document): Progress {
    if p.Going? then Going(p.s.(doc := doc), p.at) else Ended(p.ending.(s := p.ending.s.(doc := doc)))
  }

  /** The document after a stray command: the plugin accepts it or not. */
  function Landed(w: World, doc: Document, stray: Stray): Document {
    var reply := Plugin.PluginCall(w.kernel, doc, stray.name, stray.params);
    if reply.Ok? then reply.value.0 else doc
  }

  /** A stray command takes effect, in the middle of the last turn or after it. */
  function Land(w: World, s: State, stray: Stray): State
    requires s.turns != []
  {
    var last, doc := LastTurn(s), Landed(w, s.doc, stray);
    var turn := if At(s, last.c) == Executing then last.(progress := WithDoc(last.progress, doc), left := doc, clean := false)
                else last.(left := doc);
    Latest(s, turn).(strays := s.strays - {stray})
  }

  /** One event; an event that is not enabled changes nothing. */
  function Step(w: World, s: State, e: Event): State {
    var c := e.c;
    match e
    case Start(_) => if At(s, c) == Idle then Begin(w, s, c) else s
    case Acquire(_) => if At(s, c) == WantLock && s.lock == None then Move(s, c, Locked).(lock := Some(c)) else s
    case Refuse(_) => if At(s, c) == Locked then Settle(w, s, c, Incompatible) else s
    case ReadBefore(_) =>
      if At(s, c) != Locked then s
      else if w.requests(c).expected.Some? && w.requests(c).expected.value != w.revision(w.scene(s.doc)) then Settle(w, s, c, Stale)
      else Move(s, c, Executing).(turns := s.turns + [NewTurn(c, s.doc)])
    case Send(_) =>
      if At(s, c) == Executing && HasTurn(s, c) then
        var p := LastTurn(s).progress;
        Progressed(s, Next(w, c, p)).(strays := s.strays + Unanswered(w, c, p))
      else s
    case Finish(_) =>
      if At(s, c) == Executing && HasTurn(s, c) && LastTurn(s).progress.Ended? && LastTurn(s).progress.ending.at <= |w.Commands(c)| then
        var turn := LastTurn(s);
        Settle(w, s, c, Executed(R.ReceiptOf(w.Commands(c), turn.progress.ending, w.scene(turn.before), w.scene(s.doc))))
      else s
    case Fail(_) =>
      if At(s, c) == Executing && HasTurn(s, c) then
        Abandon(w, s, c).(strays := s.strays + Out(w, c, LastTurn(s).progress))
      else if Owning(At(s, c)) then Abandon(w, s, c)
      else if At(s, c).Awaiting? then Move(s, c, Done(Raised))
      else s
    case Wake(_) =>
      if At(s, c).Awaiting? && At(s, c).owner in s.futures then
        match s.futures[At(s, c).owner]
        case Pending => s
        case Resolved(receipt) => Move(s, c, Done(AnswerFrom(receipt, w.Fingerprint(c))))
        case Broken => Move(s, c, Done(Raised))
      else s
    case Lands(_, stray) => if stray in s.strays && s.turns != [] then Land(w, s, stray) else s
  }

  function Run(w: World, s: State, schedule: seq<Event>): State
    decreases |schedule|
  {
    if schedule == [] then s else Run(w, Step(w, s, schedule[0]), schedule[1..])
  }

  // ---------------------------------------------------------------- the invariant

  predicate Holding(pc: Pc) {
    pc.Locked? || pc.Executing?
  }

  predicate Owning(pc: Pc) {
    pc.WantLock? || Holding(pc)
  }

  predicate NoTurn(s: State, c: Caller) {
    forall i :: 0 <= i < |s.turns| ==> s.turns[i].c != c
  }

  /** `c` had exactly the i-th turn. */
  predicate OnlyTurn(s: State, c: Caller, i: nat) {
    i < |s.turns| && s.turns[i].c == c && forall j :: 0 <= j < |s.turns| && s.turns[j].c == c ==> j == i
  }

  /** The caller served under a key is the one in the in-flight table. */
  predicate Registered(w: World, s: State, c: Caller) {
    w.Key(c) != "" ==> w.Key(c) in s.inflight && s.inflight[w.Key(c)] == c
  }

  /** The receipt stored for the key of `c` is `r`. */
  predicate Stored(w: World, s: State, c: Caller, r: Receipt) {
    w.Key(c) != "" && w.Key(c) in s.receipts && s.receipts[w.Key(c)] == r
  }

  /** A waiter's future belongs to an owner of its key and is pending only while that owner is served. */
  predicate WaiterOk(w: World, s: State, c: Caller, owner: Caller) {
    && w.Key(c) != "" && w.Key(owner) == w.Key(c) && owner in s.futures
    && (s.futures[owner] == Pending ==> w.Key(c) in s.inflight && s.inflight[w.Key(c)] == owner)
    && (s.futures[owner].Resolved? ==> Stored(w, s, c, s.futures[owner].receipt))
  }

  /** The receipt of a finished turn compares the scenes of its two reads. */
  predicate Reports(w: World, turn: Turn, receipt: R.Receipt) {
    && turn.progress.Ended? && turn.progress.ending.at <= |w.Commands(turn.c)|
    && receipt == R.ReceiptOf(w.Commands(turn.c), turn.progress.ending, w.scene(turn.before), w.scene(DocOf(turn.progress)))
  }

  /** An executed report comes from the caller's one, finished turn; any other report from none. */
  ghost predicate ReportOk(w: World, s: State, c: Caller, report: Report) {
    if report.Executed? then exists i: nat :: OnlyTurn(s, c, i) && Reports(w, s.turns[i], report.receipt)
    else NoTurn(s, c)
  }

  ghost predicate AnswerOk(w: World, s: State, c: Caller, answer: Answer) {
    match answer
    case Own(r) =>
      r.owner == c && r.fingerprint == w.Fingerprint(c) && ReportOk(w, s, c, r.report) && (w.Key(c) != "" ==> Stored(w, s, c, r))
    case Replayed(r) => Stored(w, s, c, r) && r.fingerprint == w.Fingerprint(c) && NoTurn(s, c)
    case Conflict(r) => Stored(w, s, c, r) && r.fingerprint != w.Fingerprint(c) && NoTurn(s, c)
    case Raised => NoTurn(s, c) || exists i: nat :: OnlyTurn(s, c, i)
  }

  ghost predicate CallerOk(w: World, s: State, c: Caller) {
    && (s.lock == Some(c) <==> Holding(At(s, c)))
    && match At(s, c)
       case Idle => NoTurn(s, c)
       case WantLock => NoTurn(s, c) && Registered(w, s, c)
       case Locked => NoTurn(s, c) && Registered(w, s, c)
       case Executing =>
         s.turns != [] && OnlyTurn(s, c, |s.turns| - 1) && Registered(w, s, c) && LastTurn(s).left == DocOf(LastTurn(s).progress)
       case Awaiting(owner) => NoTurn(s, c) && WaiterOk(w, s, c, owner)
       case Done(answer) => AnswerOk(w, s, c, answer)
  }

  predicate KeyOk(w: World, s: State, key: string) {
    && (key in s.inflight ==>
          && key != "" && key !in s.receipts && w.Key(s.inflight[key]) == key && Owning(At(s, s.inflight[key]))
          && s.inflight[key] in s.futures && s.futures[s.inflight[key]] == Pending)
    && (key in s.receipts ==>
          var r := s.receipts[key];
          key != "" && w.Key(r.owner) == key && At(s, r.owner) == Done(Own(r)))
  }

  /** A clean turn is on its way to, or has reached, what its holder's loop comes to on its own. */
  predicate TurnOk(w: World, turn: Turn) {
    match turn.progress
    case Going(run, at) =>
      at <= |w.Commands(turn.c)|
      && (turn.clean ==> R.SendAll(w.kernel, w.Commands(turn.c), run, w.fates(turn.c), at) == w.Ending(turn.c, turn.before))
    case Ended(ending) => ending.at <= |w.Commands(turn.c)| && (turn.clean ==> ending == w.Ending(turn.c, turn.before))
  }

  /** The document the i-th turn finds. */
  function DocBefore(w: World, turns: seq<Turn>, i: nat): Document
    requires i <= |turns|
  {
    if i == 0 then w.start else turns[i - 1].left
  }

  /** Turns follow one another: each begins with the document its predecessor left, and the last one left the present one. */
  predicate Serial(w: World, s: State) {
    && (forall i :: 0 <= i < |s.turns| ==> s.turns[i].before == DocBefore(w, s.turns, i) && TurnOk(w, s.turns[i]))
    && s.doc == DocBefore(w, s.turns, |s.turns|)
  }

  /** Of two turns under one key, the earlier holder ended by exception. */
  predicate LogOk(w: World, s: State) {
    forall i, j :: 0 <= i < j < |s.turns| && w.Key(s.turns[i].c) == w.Key(s.turns[j].c) != "" ==> At(s, s.turns[i].c) == Done(Raised)
  }

  ghost predicate Inv(w: World, s: State) {
    (forall c :: CallerOk(w, s, c)) && (forall key :: KeyOk(w, s, key)) && Serial(w, s)
  }
}
