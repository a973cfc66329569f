/** Redaction of receipts and traces: the memory redactor, the recorder's sanitiser around it, and the transcript test. */
module Sanitizer {
  import opened Wrappers

  /** Object keys: the field names of receipts and traces, and every other text. */
  datatype Name =
    | SchemaVersion | TransactionId | Status | State | ActionsAttempted | ActionsCompleted | CreatedIds | DeletedIds
    | ErrorCode | Recovery | Passed | Failed | CreatedAt | Request | Route | SceneSubset | Transaction | Timing
    | ToolOutcomes | Receipt | Verification | Model | TokenUsage | CorrelationId | TraceId | TrainingQuality
    | Accepted | Reasons | Operations | Op
    | OtherName(text: string)

  /** JSON-like data without sharing. `Other` is any further value, by its printed text. */
  datatype Json =
    | Null
    | Bool(b: bool)
    | Int(i: int)
    | Num(r: real)
    | NonFinite
    | Text(s: string)
    | List(items: seq<Json>)
    | Object(entries: map<Name, Json>)
    | Other(shown: string)

  /** The patterns on keys and the text cleaner. */
  datatype Rules = Rules(
    denied: Name -> bool,
    transcript: Name -> bool,
    secret: Name -> bool,
    dropped: Name -> bool,
    clean: string -> string
  )

  const REDACTED := "[REDACTED]"
  const NON_FINITE := "[NON_FINITE]"

  /** What the patterns and the cleaner are known to satisfy. */
  ghost predicate Valid(r: Rules) {
    && (forall k :: r.transcript(k) ==> r.denied(k))
    && (forall t :: r.clean(r.clean(t)) == r.clean(t))
    && r.clean(NON_FINITE) == NON_FINITE
  }

  function First<T>(s: seq<T>, n: nat): seq<T> {
    if |s| <= n then s else s[..n]
  }

  /** The memory redactor. */
  function Redact(r: Rules, v: Json): Json
    decreases v
  {
    match v
    case Object(entries) =>
      Object(map k | k in entries && (r.secret(k) || !r.dropped(k)) :: if r.secret(k) then Text(REDACTED) else Redact(r, entries[k]))
    case List(items) =>
      var kept := First(items, 100);
      List(seq(|kept|, i requires 0 <= i < |kept| => Redact(r, kept[i])))
    case Text(s) => Text(r.clean(s))
    case NonFinite => Text(NON_FINITE)
    case Other(s) => Text(r.clean(s))
    case _ => v
  }

  /** The recorder's sanitiser: denied keys go, and every mapping is redacted once its values are sanitised. */
  function Safe(r: Rules, v: Json): Json
    decreases v
  {
    match v
    case Object(entries) => Redact(r, Object(map k | k in entries && !r.denied(k) :: Safe(r, entries[k])))
    case List(items) =>
      var kept := First(items, 1000);
      List(seq(|kept|, i requires 0 <= i < |kept| => Safe(r, kept[i])))
    case _ => Redact(r, v)
  }

  /** Some mapping at some depth has a transcript-shaped key. */
  predicate ContainsTranscript(r: Rules, v: Json)
    decreases v
  {
    match v
    case Object(entries) => exists k :: k in entries && (r.transcript(k) || ContainsTranscript(r, entries[k]))
    case List(items) => exists i :: 0 <= i < |items| && ContainsTranscript(r, items[i])
    case _ => false
  }

  // ---------------------------------------------------------------- what sanitised data looks like

  /** No mapping at any depth has a key that `banned` rejects. */
  predicate FreeOf(banned: Name -> bool, v: Json)
    decreases v
  {
    match v
    case Object(entries) => forall k :: k in entries ==> !banned(k) && FreeOf(banned, entries[k])
    case List(items) => forall i :: 0 <= i < |items| ==> FreeOf(banned, items[i])
    case _ => true
  }

  /** Every secret-named key at any depth shows the redaction marker. */
  predicate SecretsHidden(r: Rules, v: Json)
    decreases v
  {
    match v
    case Object(entries) => forall k :: k in entries ==> if r.secret(k) then entries[k] == Text("[REDACTED]") else SecretsHidden(r, entries[k])
    case List(items) => forall i :: 0 <= i < |items| ==> SecretsHidden(r, items[i])
    case _ => true
  }

  /** The data the redactor leaves as it is. */
  predicate Settled(r: Rules, v: Json)
    decreases v
  {
    match v
    case Object(entries) =>
      forall k :: k in entries ==> if r.secret(k) then entries[k] == Text(REDACTED) else !r.dropped(k) && Settled(r, entries[k])
    case List(items) => |items| <= 100 && forall i :: 0 <= i < |items| ==> Settled(r, items[i])
    case Text(s) => r.clean(s) == s
    case NonFinite => false
    case Other(_) => false
    case _ => true
  }

  /** The data the sanitiser leaves as it is: outside mappings lists may have a thousand items. */
  predicate Tidy(r: Rules, v: Json)
    decreases v
  {
    match v
    case Object(_) => Settled(r, v) && FreeOf(r.denied, v)
    case List(items) => |items| <= 1000 && forall i :: 0 <= i < |items| ==> Tidy(r, items[i])
    case _ => Settled(r, v)
  }

  lemma {:induction false} RedactSettles(r: Rules, v: Json)
    requires Valid(r)
    ensures Settled(r, Redact(r, v))
    decreases v
  {
    match v
    case Object(entries) => forall k | k in entries ensures Settled(r, Redact(r, entries[k])) { RedactSettles(r, entries[k]); }
    case List(items) => forall i | 0 <= i < |items| ensures Settled(r, Redact(r, items[i])) { RedactSettles(r, items[i]); }
    case _ =>
  }

  lemma {:induction false} SettledIsFixed(r: Rules, v: Json)
    requires Settled(r, v)
    ensures Redact(r, v) == v
    decreases v
  {
    match v
    case Object(entries) =>
      forall k | k in entries && !r.secret(k) ensures Redact(r, entries[k]) == entries[k] { SettledIsFixed(r, entries[k]); }
      assert Redact(r, v).entries == entries;
    case List(items) =>
      forall i | 0 <= i < |items| ensures Redact(r, items[i]) == items[i] { SettledIsFixed(r, items[i]); }
      assert Redact(r, v).items == items;
    case _ =>
  }

  /** Redaction never adds a key. */
  lemma {:induction false} RedactKeepsFree(r: Rules, banned: Name -> bool, v: Json)
    requires FreeOf(banned, v)
    ensures FreeOf(banned, Redact(r, v))
    decreases v
  {
    match v
    case Object(entries) => forall k | k in entries ensures FreeOf(banned, Redact(r, entries[k])) { RedactKeepsFree(r, banned, entries[k]); }
    case List(items) => forall i | 0 <= i < |items| ensures FreeOf(banned, Redact(r, items[i])) { RedactKeepsFree(r, banned, items[i]); }
    case _ =>
  }

  lemma {:induction false} SafeIsFree(r: Rules, v: Json)
    ensures FreeOf(r.denied, Safe(r, v))
    decreases v
  {
    match v
    case Object(entries) =>
      forall k | k in entries ensures FreeOf(r.denied, Safe(r, entries[k])) { SafeIsFree(r, entries[k]); }
      RedactKeepsFree(r, r.denied, Object(map k | k in entries && !r.denied(k) :: Safe(r, entries[k])));
    case List(items) => forall i | 0 <= i < |items| ensures FreeOf(r.denied, Safe(r, items[i])) { SafeIsFree(r, items[i]); }
    case _ =>
  }

  lemma {:induction false} SafeIsTidy(r: Rules, v: Json)
    requires Valid(r)
    ensures Tidy(r, Safe(r, v))
    decreases v
  {
    match v
    case Object(entries) =>
      RedactSettles(r, Object(map k | k in entries && !r.denied(k) :: Safe(r, entries[k])));
      SafeIsFree(r, v);
    case List(items) => forall i | 0 <= i < |items| ensures Tidy(r, Safe(r, items[i])) { SafeIsTidy(r, items[i]); }
    case _ =>
  }

  lemma {:induction false} SettledIsTidy(r: Rules, v: Json)
    requires Settled(r, v) && FreeOf(r.denied, v)
    ensures Tidy(r, v)
    decreases v
  {
    match v
    case List(items) => forall i | 0 <= i < |items| ensures Tidy(r, items[i]) { SettledIsTidy(r, items[i]); }
    case _ =>
  }

  lemma {:induction false} TidyIsFixed(r: Rules, v: Json)
    requires Tidy(r, v)
    ensures Safe(r, v) == v
    decreases v
  {
    match v
    case Object(entries) =>
      forall k | k in entries && !r.secret(k) ensures Safe(r, entries[k]) == entries[k] {
        SettledIsTidy(r, entries[k]);
        TidyIsFixed(r, entries[k]);
      }
      SafeOfFixed(r, entries);
    case List(items) =>
      forall i | 0 <= i < |items| ensures Safe(r, items[i]) == items[i] { TidyIsFixed(r, items[i]); }
      assert Safe(r, v).items == items;
    case _ => SettledIsFixed(r, v);
  }

  lemma SafeOfFixed(r: Rules, entries: map<Name, Json>)
    requires Settled(r, Object(entries))
    requires forall k :: k in entries ==> !r.denied(k) && (!r.secret(k) ==> Safe(r, entries[k]) == entries[k])
    ensures Safe(r, Object(entries)) == Object(entries)
  {
    var inner := map k | k in entries && !r.denied(k) :: Safe(r, entries[k]);
    forall k | k in entries && !r.secret(k) ensures Redact(r, entries[k]) == entries[k] { SettledIsFixed(r, entries[k]); }
    assert Redact(r, Object(inner)).entries == entries;
  }

  /** Sanitising twice changes nothing more. */
  lemma SafeIsIdempotent(r: Rules, v: Json)
    requires Valid(r)
    ensures Safe(r, Safe(r, v)) == Safe(r, v)
  {
    SafeIsTidy(r, v);
    TidyIsFixed(r, Safe(r, v));
  }

  lemma {:induction false} FreeIsClean(r: Rules, v: Json)
    requires Valid(r) && FreeOf(r.denied, v)
    ensures !ContainsTranscript(r, v)
    decreases v
  {
    match v
    case Object(entries) => forall k | k in entries ensures !ContainsTranscript(r, entries[k]) { FreeIsClean(r, entries[k]); }
    case List(items) => forall i | 0 <= i < |items| ensures !ContainsTranscript(r, items[i]) { FreeIsClean(r, items[i]); }
    case _ =>
  }

  lemma {:induction false} SettledHidesSecrets(r: Rules, v: Json)
    requires Settled(r, v)
    ensures SecretsHidden(r, v)
    decreases v
  {
    match v
    case Object(entries) => forall k | k in entries && !r.secret(k) ensures SecretsHidden(r, entries[k]) { SettledHidesSecrets(r, entries[k]); }
    case List(items) => forall i | 0 <= i < |items| ensures SecretsHidden(r, items[i]) { SettledHidesSecrets(r, items[i]); }
    case _ =>
  }

  lemma {:induction false} TidyHidesSecrets(r: Rules, v: Json)
    requires Tidy(r, v)
    ensures SecretsHidden(r, v)
    decreases v
  {
    match v
    case List(items) => forall i | 0 <= i < |items| ensures SecretsHidden(r, items[i]) { TidyHidesSecrets(r, items[i]); }
    case _ => SettledHidesSecrets(r, v);
  }

  /** The sanitiser closes off every tree: no denied or transcript key anywhere, every secret masked. */
  lemma SafeIsClosed(r: Rules, v: Json)
    requires Valid(r)
    ensures FreeOf(r.denied, Safe(r, v)) && !ContainsTranscript(r, Safe(r, v)) && SecretsHidden(r, Safe(r, v))
  {
    SafeIsFree(r, v);
    SafeIsTidy(r, v);
    FreeIsClean(r, Safe(r, v));
    TidyHidesSecrets(r, Safe(r, v));
  }

  /** A key no pattern speaks of. */
  predicate Plain(r: Rules, k: Name) {
    !r.denied(k) && !r.transcript(k) && !r.secret(k) && !r.dropped(k)
  }

  /** Sanitising keeps every plain key, with a value sanitised once and redacted once more, and invents none. */
  lemma SafeKeepsPlainKeys(r: Rules, entries: map<Name, Json>, k: Name)
    ensures Safe(r, Object(entries)).Object?
    ensures k in Safe(r, Object(entries)).entries ==> k in entries
    ensures k in entries && Plain(r, k) ==>
              k in Safe(r, Object(entries)).entries && Safe(r, Object(entries)).entries[k] == Redact(r, Safe(r, entries[k]))
  {
    var inner := map n | n in entries && !r.denied(n) :: Safe(r, entries[n]);
    assert forall n :: n in inner <==> n in entries && !r.denied(n);
  }

  /** Of anything but a mapping sanitising keeps the first thousand items in order, each sanitised, texts cleaned, and
      everything else as it is; a redaction on top keeps the first hundred. */
  lemma SafeKeepsTheRest(r: Rules, v: Json)
    requires Valid(r) && !v.Object?
    ensures v.List? ==>
              && Safe(r, v).List? && |Safe(r, v).items| == (if |v.items| < 1000 then |v.items| else 1000)
              && (forall i :: 0 <= i < |Safe(r, v).items| ==> Safe(r, v).items[i] == Safe(r, v.items[i]))
              && Redact(r, v).List? && |Redact(r, v).items| == (if |v.items| < 100 then |v.items| else 100)
              && (forall i :: 0 <= i < |Redact(r, v).items| ==> Redact(r, v).items[i] == Redact(r, v.items[i]))
    ensures v.Text? ==> Safe(r, v) == Text(r.clean(v.s))
    ensures v.Other? ==> Safe(r, v) == Text(r.clean(v.shown))
    ensures v.NonFinite? ==> Safe(r, v) == Text("[NON_FINITE]")
    ensures v.Null? || v.Bool? || v.Int? || v.Num? ==> Safe(r, v) == v
    ensures !v.List? ==> Redact(r, Safe(r, v)) == Safe(r, v) && Safe(r, v) == Redact(r, v)
  {
    if !v.List? {
      RedactSettles(r, v);
      SettledIsFixed(r, Redact(r, v));
    }
  }
}
