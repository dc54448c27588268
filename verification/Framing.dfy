/** Length-prefixed framing over a chunked byte stream (enclave/vsock/protocol.py,
    and its Go peer in proxy/main.go:108-162).

    JSON stays abstract: a `Codec` prints frames and parses bytes. A lawful codec reads
    back what it prints, prints JSON objects (so at least two bytes) and, as no proper
    prefix of an object is a JSON text, parses no proper prefix of a printed frame. */
module Framing {

  type Byte = b: int | 0 <= b < 256

  const MAX_MESSAGE_SIZE := 16 * 1024 * 1024
  const HEADER_SIZE := 4

  /** The payload stands for any JSON object. */
  datatype MessageFrame = MessageFrame(msgType: string, payload: string, requestId: string)

  datatype Parsed = Invalid | NotAnObject | Object(frame: MessageFrame)

  datatype Codec = Codec(dump: MessageFrame -> seq<Byte>, parse: seq<Byte> -> Parsed)

  ghost predicate Lawful(c: Codec) {
    && (forall m {:trigger c.dump(m)} :: c.parse(c.dump(m)) == Object(m) && |c.dump(m)| >= 2)
    && (forall m, k: nat {:trigger c.dump(m)[..k]} :: k < |c.dump(m)| ==> !c.parse(c.dump(m)[..k]).Object?)
  }

  datatype FramingError = TooLong | TooShort | Oversized | Empty | Incomplete | BadJson | NotObject

  datatype Result<+T> = Ok(value: T) | Err(error: FramingError)

  // ---- The length header ----

  /** `struct.pack("<I", n)`, and `binary.LittleEndian.PutUint32` of `uint32(n)`. */
  function Header(n: nat): (h: seq<Byte>)
    ensures |h| == HEADER_SIZE
  {
    [n % 256, n / 256 % 256, n / 0x1_0000 % 256, n / 0x100_0000 % 256]
  }

  function Length(h: seq<Byte>): nat
    requires |h| == HEADER_SIZE
  {
    var b0: int, b1: int, b2: int, b3: int := h[0], h[1], h[2], h[3];
    b0 + 256 * b1 + 0x1_0000 * b2 + 0x100_0000 * b3
  }

  /** Four bytes hold the length modulo 2^32. */
  lemma LengthOfHeader(n: nat)
    ensures Length(Header(n)) == n % 0x1_0000_0000
  {
    var q1, q2, q3 := n / 256, n / 0x1_0000, n / 0x100_0000;
    assert q2 == q1 / 256 && q3 == q2 / 256;
    assert n == 256 * q1 + n % 256;
    assert q1 == 256 * q2 + q1 % 256;
    assert q2 == 256 * q3 + q2 % 256;
    assert q3 == 256 * (q3 / 256) + q3 % 256;
    assert n / 0x1_0000_0000 == q3 / 256;
  }

  /** The least significant byte comes first. */
  lemma HeaderIsLittleEndian(n: nat)
    requires n < 0x1_0000_0000
    ensures var h := Header(n);
            n == h[0] as int + 0x100 * (h[1] as int) + 0x1_0000 * (h[2] as int) + 0x100_0000 * (h[3] as int)
  {
    LengthOfHeader(n);
    hide Header;
  }

  // ---- Whole frames ----

  /** A frame of up to sixteen megabytes of payload is encoded, a longer one refused. */
  lemma EncodesExactly(c: Codec, m: MessageFrame)
    ensures Encode(c, m) == if |c.dump(m)| <= 16_777_216 then Ok(Frame(c, m)) else Err(TooLong)
    ensures Encode(c, m).Ok? <==> Fits(c, m)
  {
  }

  function Encode(c: Codec, m: MessageFrame): Result<seq<Byte>> {
    var payload := c.dump(m);
    if |payload| > MAX_MESSAGE_SIZE then Err(TooLong) else Ok(Header(|payload|) + payload)
  }

  predicate Fits(c: Codec, m: MessageFrame) {
    |c.dump(m)| <= MAX_MESSAGE_SIZE
  }

  function Frame(c: Codec, m: MessageFrame): seq<Byte> {
    Header(|c.dump(m)|) + c.dump(m)
  }

  function ParsePayload(c: Codec, payload: seq<Byte>): Result<MessageFrame> {
    match c.parse(payload)
    case Invalid => Err(BadJson)
    case NotAnObject => Err(NotObject)
    case Object(m) => Ok(m)
  }

  function Decode(c: Codec, data: seq<Byte>): Result<MessageFrame> {
    if |data| < HEADER_SIZE then Err(TooShort)
    else
      var n := Length(data[..HEADER_SIZE]);
      if n > MAX_MESSAGE_SIZE then Err(Oversized)
      else if |data| < HEADER_SIZE + n then Err(Incomplete)
      else ParsePayload(c, data[HEADER_SIZE..HEADER_SIZE + n])
  }

  /** Decoding undoes encoding, whatever bytes follow. */
  lemma DecodeUndoesEncode(c: Codec, m: MessageFrame, rest: seq<Byte>)
    requires Lawful(c) && Fits(c, m)
    ensures Encode(c, m) == Ok(Frame(c, m))
    ensures Decode(c, Frame(c, m) + rest) == Ok(m)
  {
    hide Header, Length;
    var payload := c.dump(m);
    LengthOfHeader(|payload|);
    var data := Frame(c, m) + rest;
    assert data[..HEADER_SIZE] == Header(|payload|);
    assert data[HEADER_SIZE..HEADER_SIZE + |payload|] == payload;
  }

  /** No proper prefix of a frame decodes. */
  lemma PrefixDoesNotDecode(c: Codec, m: MessageFrame, k: nat)
    requires Lawful(c) && Fits(c, m) && k < |Frame(c, m)|
    ensures Decode(c, Frame(c, m)[..k]) == Err(if k < HEADER_SIZE then TooShort else Incomplete)
  {
    hide Header, Length;
    LengthOfHeader(|c.dump(m)|);
    if k >= HEADER_SIZE {
      assert Frame(c, m)[..k][..HEADER_SIZE] == Header(|c.dump(m)|);
    }
  }

  /** Frames are self-delimiting: a byte string starts with at most one of them. */
  lemma FramesArePrefixFree(c: Codec, m: MessageFrame, x: seq<Byte>, n: MessageFrame, y: seq<Byte>)
    requires Lawful(c) && Fits(c, m) && Fits(c, n)
    requires Frame(c, m) + x == Frame(c, n) + y
    ensures m == n && x == y
  {
    DecodeUndoesEncode(c, m, x);
    DecodeUndoesEncode(c, n, y);
    var k := |Frame(c, m)|;
    assert x == (Frame(c, m) + x)[k..] && y == (Frame(c, n) + y)[k..];
  }

  // ---- Streams ----

  /** What happens on a connection while a reader waits: bytes arrive, or the reader's
      timeout fires. After the last arrival the peer has closed the connection. */
  datatype Arrival = Chunk(bytes: seq<Byte>) | Timeout

  datatype Stream = Stream(buffer: seq<Byte>, arrivals: seq<Arrival>)

  datatype ReadResult<+T> = Got(value: T) | Closed | TimedOut | Malformed(error: FramingError)

  function Bytes(arrivals: seq<Arrival>): seq<Byte> {
    if arrivals == [] then []
    else (if arrivals[0].Chunk? then arrivals[0].bytes else []) + Bytes(arrivals[1..])
  }

  /** All bytes still to be read. */
  function Pending(s: Stream): seq<Byte> {
    s.buffer + Bytes(s.arrivals)
  }

  /** `readexactly(n)`: consumes nothing until n bytes are there; a timeout leaves them
      in the buffer, the end of the stream discards them. */
  function ReadExactly(s: Stream, n: nat): (r: (ReadResult<seq<Byte>>, Stream))
    ensures r.0.Got? ==> |r.0.value| == n
    decreases |s.arrivals|
  {
    if |s.buffer| >= n then (Got(s.buffer[..n]), Stream(s.buffer[n..], s.arrivals))
    else if s.arrivals == [] then (Closed, Stream([], []))
    else
      match s.arrivals[0]
      case Chunk(bytes) => ReadExactly(Stream(s.buffer + bytes, s.arrivals[1..]), n)
      case Timeout => (TimedOut, Stream(s.buffer, s.arrivals[1..]))
  }

  function ReadPayload(c: Codec, s: Stream, n: nat): (ReadResult<MessageFrame>, Stream) {
    var (r, s') := ReadExactly(s, n);
    match r
    case Got(payload) =>
      (match ParsePayload(c, payload) case Ok(m) => Got(m) case Err(e) => Malformed(e), s')
    case Closed => (Closed, s')
    case TimedOut => (TimedOut, s')
    case Malformed(e) => (Malformed(e), s')
  }

  /** `read_frame`: the header is consumed before the payload is waited for. */
  function ReadFrame(c: Codec, s: Stream): (ReadResult<MessageFrame>, Stream) {
    var (r, s') := ReadExactly(s, HEADER_SIZE);
    match r
    case Got(header) =>
      var n := Length(header);
      if n > MAX_MESSAGE_SIZE then (Malformed(Oversized), s')
      else if n == 0 then (Malformed(Empty), s')
      else ReadPayload(c, s', n)
    case Closed => (Closed, s')
    case TimedOut => (TimedOut, s')
    case Malformed(e) => (Malformed(e), s')
  }

  /** The connection object; reading updates it in place. */
  class StreamReader {
    var buffer: seq<Byte>
    var arrivals: seq<Arrival>

    constructor (arrivals: seq<Arrival>)
      ensures View() == Stream([], arrivals)
    {
      this.buffer, this.arrivals := [], arrivals;
    }

    function View(): Stream
      reads this
    {
      Stream(buffer, arrivals)
    }

    method ReadExactlyBytes(n: nat) returns (r: ReadResult<seq<Byte>>)
      modifies this
      ensures (r, View()) == ReadExactly(old(View()), n)
    {
      while |buffer| < n
        invariant ReadExactly(View(), n) == ReadExactly(old(View()), n)
        decreases |arrivals|
      {
        if arrivals == [] {
          buffer := [];
          return Closed;
        }
        var next := arrivals[0];
        arrivals := arrivals[1..];
        if next.Timeout? {
          return TimedOut;
        }
        buffer := buffer + next.bytes;
      }
      r := Got(buffer[..n]);
      buffer := buffer[n..];
    }

    method ReadOneFrame(c: Codec) returns (r: ReadResult<MessageFrame>)
      modifies this
      ensures (r, View()) == ReadFrame(c, old(View()))
    {
      var header := ReadExactlyBytes(HEADER_SIZE);
      match header
      case Closed => return Closed;
      case TimedOut => return TimedOut;
      case Malformed(e) => return Malformed(e);
      case Got(bytes) =>
        var n := Length(bytes);
        if n > MAX_MESSAGE_SIZE {
          return Malformed(Oversized);
        }
        if n == 0 {
          return Malformed(Empty);
        }
        var payload := ReadExactlyBytes(n);
        match payload
        case Closed => return Closed;
        case TimedOut => return TimedOut;
        case Malformed(e) => return Malformed(e);
        case Got(text) =>
          match ParsePayload(c, text)
          case Ok(m) => return Got(m);
          case Err(e) => return Malformed(e);
    }
  }

  // ---- Reading does not depend on the chunks ----

  lemma {:induction false} ReadExactlyMeets(s: Stream, n: nat)
    ensures var (r, s') := ReadExactly(s, n);
            && !r.Malformed?
            && |s'.arrivals| <= |s.arrivals|
            && (r.Got? ==> n <= |Pending(s)| && r.value == Pending(s)[..n] && Pending(s') == Pending(s)[n..])
            && (r.TimedOut? ==> Pending(s') == Pending(s) && |s'.buffer| < n && |s'.arrivals| < |s.arrivals|)
            && (r.Closed? ==> |Pending(s)| < n && s' == Stream([], []))
    decreases |s.arrivals|
  {
    if |s.buffer| >= n {
      assert Pending(s)[n..] == s.buffer[n..] + Bytes(s.arrivals);
    } else if s.arrivals != [] && s.arrivals[0].Chunk? {
      var next := Stream(s.buffer + s.arrivals[0].bytes, s.arrivals[1..]);
      assert Pending(next) == Pending(s);
      ReadExactlyMeets(next, n);
    } else if s.arrivals != [] {
      assert Pending(Stream(s.buffer, s.arrivals[1..])) == Pending(s);
    }
  }

  /** Waiting for bytes that will come. */
  lemma TakeNext(s: Stream, x: seq<Byte>, rest: seq<Byte>)
    requires Pending(s) == x + rest
    ensures var (r, s') := ReadExactly(s, |x|);
            && (r.Got? || r.TimedOut?)
            && (r.Got? ==> r.value == x && Pending(s') == rest)
            && (r.TimedOut? ==> Pending(s') == Pending(s) && |s'.buffer| < |x|)
  {
    ReadExactlyMeets(s, |x|);
    assert Pending(s)[..|x|] == x && Pending(s)[|x|..] == rest;
  }

  predicate NoTimeouts(arrivals: seq<Arrival>) {
    forall a <- arrivals :: a.Chunk?
  }

  lemma {:induction false} ReadExactlyUndisturbed(s: Stream, n: nat)
    requires NoTimeouts(s.arrivals)
    ensures var (r, s') := ReadExactly(s, n);
            && NoTimeouts(s'.arrivals) && !r.TimedOut?
            && (n <= |Pending(s)| ==> r.Got?)
    decreases |s.arrivals|
  {
    ReadExactlyMeets(s, n);
    if |s.buffer| < n && s.arrivals != [] {
      assert s.arrivals[0].Chunk?;
      var next := Stream(s.buffer + s.arrivals[0].bytes, s.arrivals[1..]);
      assert Pending(next) == Pending(s);
      ReadExactlyUndisturbed(next, n);
    }
  }

  /** If a frame is next on the stream, an undisturbed read returns it and stops right
      behind it, however the bytes were split. */
  lemma ReadFrameUndisturbed(c: Codec, s: Stream, m: MessageFrame, rest: seq<Byte>)
    requires Lawful(c) && Fits(c, m) && NoTimeouts(s.arrivals) && Pending(s) == Frame(c, m) + rest
    ensures var (r, s') := ReadFrame(c, s);
            r == Got(m) && Pending(s') == rest && NoTimeouts(s'.arrivals)
  {
    hide Header, Length;
    var payload := c.dump(m);
    HeaderUndisturbed(s, |payload|, payload + rest);
    PayloadUndisturbed(c, ReadExactly(s, HEADER_SIZE).1, m, rest);
  }

  lemma HeaderUndisturbed(s: Stream, n: nat, rest: seq<Byte>)
    requires n <= MAX_MESSAGE_SIZE && NoTimeouts(s.arrivals) && Pending(s) == Header(n) + rest
    ensures var (r, s') := ReadExactly(s, HEADER_SIZE);
            r == Got(Header(n)) && Length(Header(n)) == n && Pending(s') == rest && NoTimeouts(s'.arrivals)
  {
    hide Header, Length;
    LengthOfHeader(n);
    TakeNext(s, Header(n), rest);
    ReadExactlyUndisturbed(s, HEADER_SIZE);
  }

  lemma PayloadUndisturbed(c: Codec, s: Stream, m: MessageFrame, rest: seq<Byte>)
    requires Lawful(c) && NoTimeouts(s.arrivals) && Pending(s) == c.dump(m) + rest
    ensures var (r, s') := ReadPayload(c, s, |c.dump(m)|);
            r == Got(m) && Pending(s') == rest && NoTimeouts(s'.arrivals)
  {
    TakeNext(s, c.dump(m), rest);
    ReadExactlyUndisturbed(s, |c.dump(m)|);
  }

  /** What a read rejects, and with which error: a header that announces too much or nothing,
      and a payload that is no JSON or no object; its bytes are gone all the same. */
  lemma ReadRejects(c: Codec, s: Stream, n: nat, payload: seq<Byte>, rest: seq<Byte>)
    requires NoTimeouts(s.arrivals) && n < 0x1_0000_0000 && Pending(s) == Header(n) + payload + rest
    ensures n > MAX_MESSAGE_SIZE ==> ReadFrame(c, s).0 == Malformed(Oversized)
    ensures n == 0 ==> ReadFrame(c, s).0 == Malformed(Empty)
    ensures 0 < n <= MAX_MESSAGE_SIZE && |payload| == n ==>
              var (r, s') := ReadFrame(c, s);
              && Pending(s') == rest
              && r == match c.parse(payload)
                      case Invalid => Malformed(BadJson)
                      case NotAnObject => Malformed(NotObject)
                      case Object(m) => Got(m)
  {
    hide Header, Length;
    LengthOfHeader(n);
    assert Header(n) + payload + rest == Header(n) + (payload + rest);
    TakeNext(s, Header(n), payload + rest);
    ReadExactlyUndisturbed(s, HEADER_SIZE);
    if 0 < n <= MAX_MESSAGE_SIZE && |payload| == n {
      var s1 := ReadExactly(s, HEADER_SIZE).1;
      TakeNext(s1, payload, rest);
      ReadExactlyUndisturbed(s1, n);
    }
  }

  function Frames(c: Codec, ms: seq<MessageFrame>): seq<Byte> {
    if ms == [] then [] else Frame(c, ms[0]) + Frames(c, ms[1..])
  }

  predicate AllFit(c: Codec, ms: seq<MessageFrame>) {
    forall m <- ms :: Fits(c, m)
  }

  lemma FirstFrame(c: Codec, ms: seq<MessageFrame>)
    requires ms != [] && AllFit(c, ms)
    ensures Frames(c, ms) == Frame(c, ms[0]) + Frames(c, ms[1..]) && Fits(c, ms[0]) && AllFit(c, ms[1..])
  {
    assert ms[0] in ms;
    hide Fits;
  }

  /** Reads frames until the connection is closed. */
  function ReadAll(c: Codec, s: Stream, count: nat): (seq<MessageFrame>, Stream)
    decreases count
  {
    if count == 0 then ([], s)
    else
      var (r, s') := ReadFrame(c, s);
      if r.Got? then
        var (ms, s'') := ReadAll(c, s', count - 1);
        ([r.value] + ms, s'')
      else ([], s')
  }

  /** For any list of messages and any split of their bytes into chunks, repeated reads
      return exactly that list and leave nothing behind. */
  lemma {:induction false} FramesAreReadBack(c: Codec, s: Stream, ms: seq<MessageFrame>)
    requires Lawful(c) && AllFit(c, ms) && NoTimeouts(s.arrivals) && Pending(s) == Frames(c, ms)
    ensures ReadAll(c, s, |ms|).0 == ms
    ensures ReadFrame(c, ReadAll(c, s, |ms|).1).0 == Closed
    decreases |ms|
  {
    if ms == [] {
      hide Pending, Frames;
      assert Pending(s) == [] by { NoFrames(c); }
      NothingIsRead(c, s);
    } else {
      FirstFrame(c, ms);
      ReadFrameUndisturbed(c, s, ms[0], Frames(c, ms[1..]));
      hide ReadFrame, Lawful, Fits, AllFit, Pending, NoTimeouts, Frame, Frames;
      FramesAreReadBack(c, ReadFrame(c, s).1, ms[1..]);
      assert [ms[0]] + ms[1..] == ms;
    }
  }

  lemma NoFrames(c: Codec)
    ensures Frames(c, []) == []
  {
  }

  lemma NothingIsRead(c: Codec, s: Stream)
    requires NoTimeouts(s.arrivals) && Pending(s) == []
    ensures ReadFrame(c, s).0 == Closed
  {
    ReadExactlyUndisturbed(s, HEADER_SIZE);
    ReadExactlyMeets(s, HEADER_SIZE);
  }

  // ---- The Go peer ----

  /** `writeFrame` of the proxy: header and payload in two writes, without a size check;
      the header holds the length modulo 2^32. */
  function GoWrites(c: Codec, m: MessageFrame): seq<Arrival> {
    [Chunk(Header(|c.dump(m)|)), Chunk(c.dump(m))]
  }

  lemma BytesOfOne(b: seq<Byte>)
    ensures Bytes([Chunk(b)]) == b
  {
    assert Bytes([Chunk(b)][1..]) == [];
  }

  /** A frame written by the proxy is read back exactly when it respects the size limit. */
  lemma GoFramesReadBackExactly(c: Codec, m: MessageFrame)
    requires Lawful(c)
    ensures ReadFrame(c, Stream([], GoWrites(c, m))).0 == Got(m) <==> Fits(c, m)
  {
    hide Header, Length;
    var payload, s := c.dump(m), Stream([], GoWrites(c, m));
    BytesOfOne(payload);
    assert s.arrivals[1..] == [Chunk(payload)];
    assert Pending(s) == Frame(c, m) + [];
    assert NoTimeouts(s.arrivals);
    if Fits(c, m) {
      ReadFrameUndisturbed(c, s, m, []);
    } else {
      LengthOfHeader(|payload|);
      ReadExactlyMeets(s, HEADER_SIZE);
      ReadExactlyUndisturbed(s, HEADER_SIZE);
      var (h, s1) := ReadExactly(s, HEADER_SIZE);
      assert Pending(s)[..HEADER_SIZE] == Header(|payload|) && Pending(s)[HEADER_SIZE..] == payload;
      var n := Length(h.value);
      if n <= MAX_MESSAGE_SIZE && n > 0 {
        ReadExactlyMeets(s1, n);
        assert !c.parse(payload[..n]).Object?;
      }
    }
  }

  /** Decoding a whole buffer and reading it from a stream accept the same frames. */
  lemma DecodeAgreesWithRead(c: Codec, data: seq<Byte>, m: MessageFrame)
    requires Lawful(c)
    ensures Decode(c, data) == Ok(m) <==> ReadFrame(c, Stream([], [Chunk(data)])).0 == Got(m)
  {
    hide Length;
    var s := Stream([], [Chunk(data)]);
    BytesOfOne(data);
    assert Pending(s) == data;
    assert NoTimeouts(s.arrivals);
    ReadExactlyMeets(s, HEADER_SIZE);
    ReadExactlyUndisturbed(s, HEADER_SIZE);
    if |data| >= HEADER_SIZE {
      var (h, s1) := ReadExactly(s, HEADER_SIZE);
      var n := Length(h.value);
      ReadExactlyMeets(s1, n);
      ReadExactlyUndisturbed(s1, n);
      if n <= |data| - HEADER_SIZE {
        assert data[HEADER_SIZE..][..n] == data[HEADER_SIZE..HEADER_SIZE + n];
      }
      if n == 0 {
        assert c.dump(m)[..0] == data[HEADER_SIZE..HEADER_SIZE + n];
      }
    }
  }
}
