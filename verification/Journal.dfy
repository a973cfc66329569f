/** The flight recorder's journal: one JSON text per line in a file that is only ever appended to. */
module Journal {
  import opened Wrappers

  /** One byte of a UTF-8 file: the k-th byte of the encoding of a character. */
  datatype Byte = Byte(c: char, k: nat)

  const NEWLINE := '\n'

  /** The width of a character in UTF-8 (RFC 3629, section 3). */
  function Width(c: char): (w: nat)
    ensures w > 0
  {
    if c as int < 0x80 then 1 else if c as int < 0x800 then 2 else if c as int < 0x10000 then 3 else 4
  }

  function CharBytes(c: char): (b: seq<Byte>)
    ensures |b| == Width(c)
  {
    seq(Width(c), k requires 0 <= k < Width(c) => Byte(c, k))
  }

  function Encode(text: string): seq<Byte> {
    if text == [] then [] else CharBytes(text[0]) + Encode(text[1..])
  }

  /** The text of the bytes up to the first that cannot be decoded, and whether that was all of them. */
  datatype Decoded = Decoded(text: string, all: bool)

  function Decode(bytes: seq<Byte>): Decoded {
    if bytes == [] then Decoded([], true)
    else
      var c := bytes[0].c;
      if |bytes| < Width(c) || bytes[..Width(c)] != CharBytes(c) then Decoded([], false)
      else var rest := Decode(bytes[Width(c)..]); Decoded([c] + rest.text, rest.all)
  }

  function Break(text: string): (i: nat)
    ensures i <= |text|
    ensures forall j :: 0 <= j < i ==> text[j] != NEWLINE
    ensures i < |text| ==> text[i] == NEWLINE
  {
    if text == [] || text[0] == NEWLINE then 0 else 1 + Break(text[1..])
  }

  /** The lines of a text; a last line without a line break counts when it is not empty. */
  function Lines(text: string): seq<string>
    decreases |text|
  {
    if text == [] then []
    else
      var i := Break(text);
      [text[..i]] + if i < |text| then Lines(text[i + 1..]) else []
  }

  /** Only the lines that end with a line break. */
  function ClosedLines(text: string): seq<string>
    decreases |text|
  {
    var i := Break(text);
    if i < |text| then [text[..i]] + ClosedLines(text[i + 1..]) else []
  }

  /** Traces by their id and content, and the canonical JSON text of each. */
  datatype Trace = Trace(id: string, body: nat)

  datatype Codec = Codec(json: Trace -> string, parse: string -> Option<Trace>)

  /** JSON object texts are one line long, read back, and stop being JSON when cut short. */
  ghost predicate Valid(c: Codec) {
    && (forall t :: NEWLINE !in c.json(t) && c.json(t) != [] && c.parse(c.json(t)) == Some(t))
    && (forall t, n | 0 <= n < |c.json(t)| :: c.parse(c.json(t)[..n]) == None)
  }

  function Line(c: Codec, t: Trace): seq<Byte> {
    Encode(c.json(t) + [NEWLINE])
  }

  function File(c: Codec, traces: seq<Trace>): seq<Byte> {
    if traces == [] then [] else Line(c, traces[0]) + File(c, traces[1..])
  }

  function Parsed(c: Codec, lines: seq<string>): seq<Trace> {
    if lines == [] then []
    else (if c.parse(lines[0]).Some? then [c.parse(lines[0]).value] else []) + Parsed(c, lines[1..])
  }

  /** What a reader of the file is handed one by one, and whether an exception ends it. */
  datatype Reading = Reading(traces: seq<Trace>, raised: bool)

  /** An undecodable byte lets the lines closed before it through and then raises. */
  function ReadBack(c: Codec, file: seq<Byte>): Reading {
    var decoded := Decode(file);
    Reading(Parsed(c, if decoded.all then Lines(decoded.text) else ClosedLines(decoded.text)), !decoded.all)
  }

  // ---------------------------------------------------------------- decoding

  lemma DecodeChar(c: char, rest: seq<Byte>)
    ensures Decode(CharBytes(c) + rest) == Decoded([c] + Decode(rest).text, Decode(rest).all)
  {
    var bytes := CharBytes(c) + rest;
    assert bytes[0] == CharBytes(c)[0] && bytes[..Width(c)] == CharBytes(c) && bytes[Width(c)..] == rest;
  }

  lemma EncodeCons(c: char, rest: string)
    ensures Encode([c] + rest) == CharBytes(c) + Encode(rest)
  {
    assert ([c] + rest)[1..] == rest;
  }

  lemma {:induction false} DecodeEncoded(text: string, tail: seq<Byte>)
    ensures Decode(Encode(text) + tail) == Decoded(text + Decode(tail).text, Decode(tail).all)
  {
    hide Decode, CharBytes;
    if text == [] {
      assert Encode(text) + tail == tail;
      assert text + Decode(tail).text == Decode(tail).text;
    } else {
      assert Encode(text) + tail == CharBytes(text[0]) + (Encode(text[1..]) + tail);
      DecodeChar(text[0], Encode(text[1..]) + tail);
      DecodeEncoded(text[1..], tail);
      assert [text[0]] + (text[1..] + Decode(tail).text) == text + Decode(tail).text;
    }
  }

  lemma {:induction false} EncodeAppend(a: string, b: string)
    ensures Encode(a + b) == Encode(a) + Encode(b)
  {
    hide CharBytes, Encode;
    if a == [] {
      assert a + b == b;
      EncodeNothing(a, b);
    } else {
      EncodeAppend(a[1..], b);
      EncodeCons(a[0], a[1..]);
      EncodeCons(a[0], a[1..] + b);
      assert a == [a[0]] + a[1..] && a + b == [a[0]] + (a[1..] + b);
      assert CharBytes(a[0]) + (Encode(a[1..]) + Encode(b)) == (CharBytes(a[0]) + Encode(a[1..])) + Encode(b);
    }
  }

  lemma EncodeNothing(a: string, b: string)
    requires a == []
    ensures Encode(a) + Encode(b) == Encode(b)
  {}

  /** How many characters of `text` have landed completely among its first n bytes, and how many bytes are left over. */
  function Landed(text: string, n: nat): (r: (nat, nat))
    ensures r.0 <= |text|
  {
    if text == [] || n < Width(text[0]) then (0, n)
    else
      var rest := Landed(text[1..], n - Width(text[0]));
      (1 + rest.0, rest.1)
  }

  lemma {:induction false} CutEncoded(text: string, n: nat)
    requires n <= |Encode(text)|
    ensures var (whole, left) := Landed(text, n);
            && (left > 0 ==> whole < |text| && left < Width(text[whole]))
            && Encode(text)[..n] == Encode(text[..whole]) + (if left > 0 then CharBytes(text[whole])[..left] else [])
  {
    hide CharBytes, Width;
    if text == [] {
    } else if n < Width(text[0]) {
      assert Encode(text)[..n] == CharBytes(text[0])[..n];
      assert text[..0] == [];
    } else {
      var w := Width(text[0]);
      var whole, left := Landed(text[1..], n - w).0, Landed(text[1..], n - w).1;
      CutEncoded(text[1..], n - w);
      assert Encode(text)[..n] == CharBytes(text[0]) + Encode(text[1..])[..n - w];
      assert text[..1 + whole][0] == text[0] && text[..1 + whole][1..] == text[1..][..whole];
    }
  }

  lemma PartialCharStops(c: char, left: nat)
    requires 0 < left < Width(c)
    ensures Decode(CharBytes(c)[..left]) == Decoded([], false)
  {
    assert CharBytes(c)[..left][0].c == c;
  }

  /** Cut bytes decode to the characters that landed; what is left over of a torn character does not. */
  lemma DecodeCut(text: string, n: nat)
    requires n <= |Encode(text)|
    ensures Decode(Encode(text)[..n]) == Decoded(text[..Landed(text, n).0], Landed(text, n).1 == 0)
  {
    var (whole, left) := Landed(text, n);
    CutEncoded(text, n);
    DecodeEncoded(text[..whole], if left > 0 then CharBytes(text[whole])[..left] else []);
    if left > 0 { PartialCharStops(text[whole], left); }
    assert text[..whole] + [] == text[..whole];
  }

  // ---------------------------------------------------------------- lines

  lemma {:induction false} BreakAt(line: string, rest: string)
    requires NEWLINE !in line
    ensures Break(line + [NEWLINE] + rest) == |line|
    ensures Break(line) == |line|
  {
    if line != [] {
      assert line[0] in line;
      assert forall c :: c in line[1..] ==> c in line;
      BreakAt(line[1..], rest);
      assert (line + [NEWLINE] + rest)[1..] == line[1..] + [NEWLINE] + rest;
    }
  }

  lemma FirstLine(line: string, rest: string)
    requires NEWLINE !in line
    ensures Lines(line + [NEWLINE] + rest) == [line] + Lines(rest) && ClosedLines(line + [NEWLINE] + rest) == [line] + ClosedLines(rest)
    ensures ClosedLines(line) == [] && (line != [] ==> Lines(line) == [line])
  {
    BreakAt(line, rest);
    var text := line + [NEWLINE] + rest;
    assert text[..|line|] == line && text[|line| + 1..] == rest;
    assert line[..|line|] == line;
  }

  /** The text of a file of traces. */
  function FileText(c: Codec, traces: seq<Trace>): string {
    if traces == [] then [] else c.json(traces[0]) + [NEWLINE] + FileText(c, traces[1..])
  }

  lemma {:induction false} FileIsText(c: Codec, traces: seq<Trace>)
    ensures File(c, traces) == Encode(FileText(c, traces))
  {
    if traces != [] {
      FileIsText(c, traces[1..]);
      EncodeAppend(c.json(traces[0]) + [NEWLINE], FileText(c, traces[1..]));
    }
  }

  lemma JsonFacts(c: Codec, t: Trace)
    requires Valid(c)
    ensures NEWLINE !in c.json(t) && c.json(t) != [] && c.parse(c.json(t)) == Some(t)
    ensures forall n | 0 <= n < |c.json(t)| :: c.parse(c.json(t)[..n]) == None
  {}

  lemma ParseLine(c: Codec, t: Trace, lines: seq<string>)
    requires Valid(c)
    ensures Parsed(c, [c.json(t)] + lines) == [t] + Parsed(c, lines)
  {
    JsonFacts(c, t);
    assert ([c.json(t)] + lines)[1..] == lines;
  }

  lemma {:induction false} ParseFileText(c: Codec, traces: seq<Trace>, tail: string)
    requires Valid(c)
    ensures Parsed(c, Lines(FileText(c, traces) + tail)) == traces + Parsed(c, Lines(tail))
    ensures Parsed(c, ClosedLines(FileText(c, traces) + tail)) == traces + Parsed(c, ClosedLines(tail))
  {
    hide Valid, Lines, ClosedLines, Parsed;
    if traces == [] {
      assert FileText(c, traces) + tail == tail;
    } else {
      var rest := FileText(c, traces[1..]) + tail;
      assert FileText(c, traces) + tail == c.json(traces[0]) + [NEWLINE] + rest;
      JsonFacts(c, traces[0]);
      FirstLine(c.json(traces[0]), rest);
      ParseFileText(c, traces[1..], tail);
      ParseLine(c, traces[0], Lines(rest));
      ParseLine(c, traces[0], ClosedLines(rest));
      assert [traces[0]] + (traces[1..] + Parsed(c, Lines(tail))) == traces + Parsed(c, Lines(tail));
      assert [traces[0]] + (traces[1..] + Parsed(c, ClosedLines(tail))) == traces + Parsed(c, ClosedLines(tail));
    }
  }

  /** A file of traces reads back as those traces. */
  lemma ReadsBack(c: Codec, traces: seq<Trace>)
    requires Valid(c)
    ensures ReadBack(c, File(c, traces)) == Reading(traces, false)
  {
    hide Valid, Parsed, Encode, Decode, FileText;
    FileIsText(c, traces);
    DecodeEncoded(FileText(c, traces), []);
    assert Encode(FileText(c, traces)) + [] == Encode(FileText(c, traces));
    ParseFileText(c, traces, []);
    EmptyTail(c, FileText(c, traces), traces);
  }

  lemma EmptyTail(c: Codec, text: string, traces: seq<Trace>)
    ensures Decode([]) == Decoded([], true) && Parsed(c, Lines([])) == [] && text + [] == text && traces + [] == traces
  {}

  // ---------------------------------------------------------------- a torn last write

  /** The last write landed up to its n-th byte only. */
  function TornFile(c: Codec, traces: seq<Trace>, last: Trace, n: nat): seq<Byte>
    requires n <= |Line(c, last)|
  {
    File(c, traces) + Line(c, last)[..n]
  }

  /** The n-th byte of the line falls inside a character. */
  predicate TearsCharacter(c: Codec, last: Trace, n: nat) {
    Landed(c.json(last) + [NEWLINE], n).1 > 0
  }

  lemma {:induction false} LandedWhole(text: string, n: nat)
    requires n <= |Encode(text)|
    ensures n >= |Encode(text)| <==> Landed(text, n) == (|text|, 0)
  {
    if text != [] && n >= Width(text[0]) { LandedWhole(text[1..], n - Width(text[0])); }
  }

  lemma {:induction false} LandedBeforeBreak(text: string, n: nat)
    requires n <= |Encode(text + [NEWLINE])|
    ensures n >= |Encode(text)| <==> Landed(text + [NEWLINE], n).0 >= |text|
  {
    if text != [] {
      assert (text + [NEWLINE])[0] == text[0] && (text + [NEWLINE])[1..] == text[1..] + [NEWLINE];
      if n >= Width(text[0]) { LandedBeforeBreak(text[1..], n - Width(text[0])); }
    }
  }

  /** What the landed characters of the last line parse to. */
  lemma ParsePrefix(c: Codec, last: Trace, whole: nat)
    requires Valid(c) && whole <= |c.json(last)| + 1
    ensures Parsed(c, Lines((c.json(last) + [NEWLINE])[..whole])) == if whole >= |c.json(last)| then [last] else []
  {
    JsonFacts(c, last);
    var json := c.json(last);
    if whole > |json| {
      assert (json + [NEWLINE])[..whole] == json + [NEWLINE] + [];
      FirstLine(json, []);
      ParseLine(c, last, []);
      assert [json] + [] == [json];
    } else {
      assert (json + [NEWLINE])[..whole] == json[..whole];
      FirstLine(json[..whole], []);
      if whole == |json| { assert json[..whole] == json; ParseLine(c, last, []); assert [json] + [] == [json]; }
      else if whole > 0 { assert Lines(json[..whole]) == [json[..whole]]; }
    }
  }

  /** After an interrupted write a read gives every earlier trace in order, and the last one exactly when all bytes of its
      JSON landed. It ends with an exception exactly when the write was torn inside a character. */
  lemma TornRead(c: Codec, traces: seq<Trace>, last: Trace, n: nat)
    requires Valid(c) && n <= |Line(c, last)|
    ensures ReadBack(c, TornFile(c, traces, last, n))
         == Reading(traces + (if n >= |Encode(c.json(last))| then [last] else []), TearsCharacter(c, last, n))
  {
    hide Valid, Parsed, Lines, ClosedLines, Encode, Decode, FileText, Landed;
    var line, text := c.json(last) + [NEWLINE], FileText(c, traces);
    FileIsText(c, traces);
    DecodeEncoded(text, Encode(line)[..n]);
    DecodeCut(line, n);
    LandedBeforeBreak(c.json(last), n);
    ParseFileText(c, traces, line[..Landed(line, n).0]);
    ParsePrefix(c, last, Landed(line, n).0);
    if TearsCharacter(c, last, n) { TornIsOpen(c, last, n); }
  }

  /** What lands of a line torn inside a character has no line break and stops short of the whole JSON. */
  lemma TornIsOpen(c: Codec, last: Trace, n: nat)
    requires Valid(c) && n <= |Line(c, last)| && TearsCharacter(c, last, n)
    ensures Parsed(c, ClosedLines((c.json(last) + [NEWLINE])[..Landed(c.json(last) + [NEWLINE], n).0])) == []
    ensures n < |Encode(c.json(last))|
  {
    var json, whole := c.json(last), Landed(c.json(last) + [NEWLINE], n).0;
    JsonFacts(c, last);
    CutEncoded(json + [NEWLINE], n);
    LandedBeforeBreak(json, n);
    assert (json + [NEWLINE])[whole] != NEWLINE;
    assert (json + [NEWLINE])[..whole] == json[..whole];
    FirstLine(json[..whole], []);
  }

  lemma {:induction false} NarrowTextLands(text: string, n: nat)
    requires n <= |Encode(text)| && forall i :: 0 <= i < |text| ==> Width(text[i]) == 1
    ensures Landed(text, n).1 == 0
  {
    if text != [] && n >= 1 { NarrowTextLands(text[1..], n - 1); }
  }

  /** Only characters beyond ASCII can be torn, so an all-ASCII journal always reads back. */
  lemma AsciiNeverTears(c: Codec, last: Trace, n: nat)
    requires n <= |Line(c, last)| && forall i :: 0 <= i < |c.json(last)| ==> c.json(last)[i] as int < 0x80
    ensures !TearsCharacter(c, last, n)
  {
    NarrowTextLands(c.json(last) + [NEWLINE], n);
  }

  lemma {:induction false} WideTextTears(text: string, i: nat)
    requires i < |text| && Width(text[i]) > 1
    ensures exists n :: 0 <= n <= |Encode(text)| && Landed(text, n).1 > 0
  {
    if i == 0 {
      assert Landed(text, 1).1 == 1;
    } else {
      WideTextTears(text[1..], i - 1);
      var n :| 0 <= n <= |Encode(text[1..])| && Landed(text[1..], n).1 > 0;
      assert Landed(text, n + Width(text[0])).1 > 0;
    }
  }

  /** And every trace with a wider character has an interruption point that leaves the journal unreadable. */
  lemma WideTraceCanTear(c: Codec, last: Trace, i: nat)
    requires i < |c.json(last)| && c.json(last)[i] as int >= 0x80
    ensures exists n :: 0 <= n <= |Line(c, last)| && TearsCharacter(c, last, n)
  {
    var line := c.json(last) + [NEWLINE];
    WideTextTears(line, i);
    var n :| 0 <= n <= |Encode(line)| && Landed(line, n).1 > 0;
    assert TearsCharacter(c, last, n);
  }

  // ---------------------------------------------------------------- the recorder

  predicate Known(traces: seq<Trace>, id: string) {
    exists i :: 0 <= i < |traces| && traces[i].id == id
  }

  /** The first trace of every id, in order of first appearance. */
  function FirstOfEach(traces: seq<Trace>): seq<Trace> {
    if traces == [] then []
    else
      var init, last := FirstOfEach(traces[..|traces| - 1]), traces[|traces| - 1];
      if Known(init, last.id) then init else init + [last]
  }

  lemma {:induction false} FileAppend(c: Codec, traces: seq<Trace>, t: Trace)
    ensures File(c, traces + [t]) == File(c, traces) + Line(c, t)
  {
    if traces == [] {
      assert traces + [t] == [t] && [t][1..] == [];
      assert File(c, [t]) == Line(c, t) + [];
    } else {
      FileAppend(c, traces[1..], t);
      assert (traces + [t])[0] == traces[0] && (traces + [t])[1..] == traces[1..] + [t];
      assert Line(c, traces[0]) + (File(c, traces[1..]) + Line(c, t)) == (Line(c, traces[0]) + File(c, traces[1..])) + Line(c, t);
    }
  }

  class FlightRecorder {
    const codec: Codec
    var file: seq<Byte>
    ghost var appended: seq<Trace>

    /** The file holds the first trace of every id handed in so far. */
    ghost predicate Intact()
      reads this
    {
      Valid(codec) && file == File(codec, FirstOfEach(appended))
    }

    constructor (codec: Codec)
      requires Valid(codec)
      ensures Intact() && appended == [] && this.codec == codec
    {
      this.codec := codec;
      file, appended := [], [];
    }

    /** Every trace of the file up to the first undecodable byte. Lines that are not JSON are skipped. */
    method Read() returns (r: Reading)
      ensures r == ReadBack(codec, file)
      ensures Intact() ==> r == Reading(FirstOfEach(appended), false)
    {
      if Intact() { ReadsBack(codec, FirstOfEach(appended)); }
      var decoded := Decode(file);
      var lines := if decoded.all then Lines(decoded.text) else ClosedLines(decoded.text);
      var traces: seq<Trace> := [];
      assert lines[0..] == lines;
      for n := 0 to |lines|
        invariant Parsed(codec, lines) == traces + Parsed(codec, lines[n..])
      {
        var parsed := codec.parse(lines[n]);
        ghost var rest := Parsed(codec, lines[n + 1..]);
        assert lines[n..][0] == lines[n] && lines[n..][1..] == lines[n + 1..];
        if parsed.Some? {
          assert traces + ([parsed.value] + rest) == (traces + [parsed.value]) + rest;
          traces := traces + [parsed.value];
        } else {
          assert [] + rest == rest;
        }
      }
      assert lines[|lines|..] == [] && traces + [] == traces;
      r := Reading(traces, !decoded.all);
    }

    /** Writes the trace's line unless its id is known; None when the reading raises, and then nothing is written. */
    method Append(t: Trace) returns (r: Option<bool>)
      modifies this
      ensures var known := ReadBack(codec, old(file)); r == if known.raised then None else Some(!Known(known.traces, t.id))
      ensures file == if r == Some(true) then old(file) + Line(codec, t) else old(file)
      ensures appended == old(appended) + [t]
      ensures old(Intact()) ==> Intact() && r == Some(!Known(FirstOfEach(old(appended)), t.id))
    {
      ghost var before := appended;
      var known := Read();
      appended := appended + [t];
      assert appended[..|appended| - 1] == before;
      if known.raised { return None; }
      var isNew := !exists i :: 0 <= i < |known.traces| && known.traces[i].id == t.id;
      if isNew {
        FileAppend(codec, FirstOfEach(before), t);
        file := file + Line(codec, t);
      }
      r := Some(isNew);
    }
  }

  /** Each id occurs once in the journal, and every id handed in occurs. */
  lemma {:induction false} FirstOfEachIsDistinct(traces: seq<Trace>)
    ensures forall i, j :: 0 <= i < j < |FirstOfEach(traces)| ==> FirstOfEach(traces)[i].id != FirstOfEach(traces)[j].id
    ensures forall id :: Known(FirstOfEach(traces), id) <==> Known(traces, id)
  {
    if traces != [] {
      var init, last := traces[..|traces| - 1], traces[|traces| - 1];
      FirstOfEachIsDistinct(init);
      assert traces == init + [last];
      forall id ensures Known(FirstOfEach(traces), id) <==> Known(traces, id) {
        KnownAppend(init, last, id);
        KnownAppend(FirstOfEach(init), last, id);
      }
    }
  }

  lemma KnownAppend(traces: seq<Trace>, t: Trace, id: string)
    ensures Known(traces + [t], id) <==> Known(traces, id) || t.id == id
  {
    if Known(traces, id) {
      var i :| 0 <= i < |traces| && traces[i].id == id;
      assert (traces + [t])[i].id == id;
    }
    if t.id == id { assert (traces + [t])[|traces|].id == id; }
  }
}
