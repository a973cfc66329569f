/** Length-prefixed frames over a byte stream, and how a broken exchange is reported. */
module Framing {
  import opened Wrappers

  newtype byte = x: int | 0 <= x < 0x100

  const HEADER_SIZE := 4
  const MAX_FRAME_SIZE := 64 * 1024 * 1024
  const RECEIVE_LIMIT := 65536
  const OPENING_BRACE: byte := 0x7B

  /** Four bytes, most significant first. */
  function Header(n: nat): seq<byte>
    requires n < 0x1_0000_0000
  {
    [(n / 0x100_0000) as byte, (n / 0x1_0000 % 0x100) as byte, (n / 0x100 % 0x100) as byte, (n % 0x100) as byte]
  }

  function FromHeader(h: seq<byte>): nat
    requires |h| == HEADER_SIZE
  {
    h[0] as nat * 0x100_0000 + h[1] as nat * 0x1_0000 + h[2] as nat * 0x100 + h[3] as nat
  }

  lemma HeaderRoundTrip(n: nat)
    requires n < 0x1_0000_0000
    ensures FromHeader(Header(n)) == n
    ensures Header(n)[0] == OPENING_BRACE <==> 0x7B00_0000 <= n < 0x7C00_0000
  {
    var a, b := n / 0x100, n / 0x1_0000;
    assert b == a / 0x100 && n / 0x100_0000 == b / 0x100;
  }

  function Frame(body: seq<byte>): seq<byte>
    requires |body| < 0x1_0000_0000
  {
    Header(|body|) + body
  }

  /** A connected socket: the bytes still to arrive before the peer closes, handed out in pieces of the network's choice. */
  class Socket {
    const grain: nat -> nat
    var incoming: seq<byte>
    var turn: nat

    constructor (grain: nat -> nat, incoming: seq<byte>)
      ensures this.grain == grain && this.incoming == incoming
    {
      this.grain, this.incoming, turn := grain, incoming, 0;
    }

    /** Some bytes, at most `limit`; none only when the peer has closed. */
    method Receive(limit: nat) returns (part: seq<byte>)
      requires limit > 0
      modifies this
      ensures |part| <= limit && part + incoming == old(incoming)
      ensures part == [] <==> old(incoming) == []
    {
      var size := grain(turn) + 1;
      if size > limit { size := limit; }
      if size > |incoming| { size := |incoming|; }
      part := incoming[..size];
      incoming := incoming[size..];
      turn := turn + 1;
    }

    /** Exactly the next `length` bytes, however the stream is split; nothing when the stream ends first. */
    method ReceiveExactly(length: nat) returns (r: Option<seq<byte>>)
      modifies this
      ensures r.Some? <==> length <= |old(incoming)|
      ensures r.Some? ==> r.value == old(incoming)[..length] && incoming == old(incoming)[length..]
      ensures r.None? ==> incoming == []
    {
      var chunks: seq<byte> := [];
      while |chunks| < length
        invariant |chunks| <= length
        invariant chunks + incoming == old(incoming)
      {
        var wanted := length - |chunks|;
        var part := Receive(if wanted < RECEIVE_LIMIT then wanted else RECEIVE_LIMIT);
        if part == [] { return None; }
        chunks := chunks + part;
      }
      r := Some(chunks);
    }
  }

  datatype Received = Body(bytes: seq<byte>) | Unframed | BadLength | Lost

  /** What a response stream is taken for. */
  function Parse(stream: seq<byte>, cap: nat): Received {
    if |stream| < HEADER_SIZE then Lost
    else if stream[0] == OPENING_BRACE then Unframed
    else
      var length := FromHeader(stream[..HEADER_SIZE]);
      if length == 0 || length > cap then BadLength
      else if |stream| < HEADER_SIZE + length then Lost
      else Body(stream[HEADER_SIZE..HEADER_SIZE + length])
  }

  /** The length that the first four bytes of a stream spell, most significant first. */
  function Announced(stream: seq<byte>): nat
    requires |stream| >= 4
  {
    ((stream[0] as nat * 256 + stream[1] as nat) * 256 + stream[2] as nat) * 256 + stream[3] as nat
  }

  /** A stream is lost if it ends before its header or before the body that the header announces; text that begins with an
      opening brace has no header; and a header may announce neither nothing nor more than the cap. */
  lemma ParseDecides(stream: seq<byte>, cap: nat)
    ensures var r, headed := Parse(stream, cap), |stream| >= 4 && stream[0] != 0x7B;
            && (r == Unframed <==> |stream| >= 4 && stream[0] == 0x7B)
            && (r == BadLength <==> headed && !(0 < Announced(stream) <= cap))
            && (r == Lost <==> |stream| < 4 || (headed && 0 < Announced(stream) <= cap && |stream| < 4 + Announced(stream)))
            && (r.Body? ==> headed && |r.bytes| == Announced(stream) && r.bytes == stream[4..4 + Announced(stream)])
  {
    if |stream| >= 4 { assert stream[..4][0] == stream[0] && stream[..4][3] == stream[3]; }
  }

  method ReceiveFrame(sock: Socket, cap: nat) returns (r: Received)
    modifies sock
    ensures r == Parse(old(sock.incoming), cap)
    ensures r.Body? ==> sock.incoming == old(sock.incoming)[HEADER_SIZE + |r.bytes|..]
  {
    var header := sock.ReceiveExactly(HEADER_SIZE);
    if header.None? { return Lost; }
    if header.value[0] == OPENING_BRACE { return Unframed; }
    var length := FromHeader(header.value);
    if length == 0 || length > cap { return BadLength; }
    var raw := sock.ReceiveExactly(length);
    if raw.None? { return Lost; }
    r := Body(raw.value);
  }

  /** A frame within the cap comes back whole, whatever follows it on the stream, and is never taken for unframed text. */
  lemma FrameRoundTrip(body: seq<byte>, tail: seq<byte>, cap: nat)
    requires 0 < |body| <= cap < 0x7B00_0000
    ensures Parse(Frame(body) + tail, cap) == Body(body)
  {
    HeaderRoundTrip(|body|);
    var stream := Frame(body) + tail;
    assert stream[..HEADER_SIZE] == Header(|body|);
    assert stream[HEADER_SIZE..HEADER_SIZE + |body|] == body;
  }

  /** A frame cut anywhere is lost, never a shorter body. */
  lemma CutFrameIsLost(body: seq<byte>, n: nat, cap: nat)
    requires 0 < |body| <= cap < 0x7B00_0000 && n < |Frame(body)|
    ensures Parse(Frame(body)[..n], cap) == Lost
  {
    HeaderRoundTrip(|body|);
    if n >= HEADER_SIZE {
      assert Frame(body)[..n][..HEADER_SIZE] == Header(|body|);
    }
  }

  /** The bound is exact: a cap that admits 0x7B000000 bytes admits a frame that is taken for unframed text. */
  lemma LargeCapMistakesAFrame(body: seq<byte>, cap: nat)
    requires 0 < |body| <= cap && |body| < 0x1_0000_0000
    ensures Parse(Frame(body), cap) == Unframed <==> 0x7B00_0000 <= |body| < 0x7C00_0000
    ensures cap == MAX_FRAME_SIZE ==> Parse(Frame(body), cap) == Body(body)
  {
    HeaderRoundTrip(|body|);
    assert Frame(body)[..HEADER_SIZE] == Header(|body|);
    if cap == MAX_FRAME_SIZE {
      FrameRoundTrip(body, [], cap);
      assert Frame(body) + [] == Frame(body);
    }
  }

  // ---------------------------------------------------------------- how a broken exchange is reported

  /** What the plugin's answer turns out to be once decoded. */
  datatype Reply = NotJson | NotAnEnvelope | Refused | NotAResult | Result

  datatype Report = Success(body: seq<byte>) | AmbiguousWrite | TransportError | CommandError

  /** One exchange after the request has been sent. A write is ambiguous exactly when the stream ended early or the body is
      not JSON; a frame that is malformed from its header on is a plain error even though the write may have run. */
  method Exchange(sock: Socket, cap: nat, isRead: bool, reply: seq<byte> -> Reply) returns (r: Report)
    modifies sock
    ensures var got := Parse(old(sock.incoming), cap);
            && (r.Success? <==> got.Body? && reply(got.bytes) == Result)
            && (r.Success? ==> r.body == got.bytes)
            && (r.AmbiguousWrite? <==> !isRead && (got.Lost? || (got.Body? && reply(got.bytes) == NotJson)))
            && (r.CommandError? <==> got.Body? && reply(got.bytes) == Refused)
  {
    var got := ReceiveFrame(sock, cap);
    match got
    case Unframed => r := TransportError;
    case BadLength => r := TransportError;
    case Lost => r := if isRead then TransportError else AmbiguousWrite;
    case Body(bytes) =>
      match reply(bytes)
      case NotJson => r := if isRead then TransportError else AmbiguousWrite;
      case NotAnEnvelope => r := TransportError;
      case Refused => r := CommandError;
      case NotAResult => r := TransportError;
      case Result => r := Success(bytes);
  }
}
