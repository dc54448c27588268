/** Read timeouts on the server's side of a connection (enclave/vsock/server.py:68-75): the
    loop reads on after a timeout, which is harmless only near a frame boundary. */
module Timeouts {
  import opened Framing

  /** How many bytes of a stream of frames have arrived, counted from a frame boundary:
      a timeout is harmless while fewer than the four header bytes of the current frame
      are there. */
  predicate NearBoundary(c: Codec, ms: seq<MessageFrame>, arrived: nat)
    decreases |ms|
  {
    || arrived < HEADER_SIZE
    || (ms != [] && arrived >= |Frame(c, ms[0])| && NearBoundary(c, ms[1..], arrived - |Frame(c, ms[0])|))
  }

  /** Every timeout fires near a frame boundary. */
  predicate CleanTimeouts(c: Codec, ms: seq<MessageFrame>, arrived: nat, arrivals: seq<Arrival>)
    decreases |arrivals|
  {
    arrivals != [] ==>
      match arrivals[0]
      case Chunk(bytes) => CleanTimeouts(c, ms, arrived + |bytes|, arrivals[1..])
      case Timeout => NearBoundary(c, ms, arrived) && CleanTimeouts(c, ms, arrived, arrivals[1..])
  }

  /** Every read starts at a frame boundary and the frames come out in order: what the
      server's loop needs, which reads on after a timeout. */
  ghost predicate InSync(c: Codec, s: Stream, ms: seq<MessageFrame>)
    decreases |ms| + |s.arrivals|
  {
    ReadFrameShrinks(c, s);
    var (r, s') := ReadFrame(c, s);
    && Pending(s) == Frames(c, ms)
    && match r
       case Got(m) => ms != [] && m == ms[0] && InSync(c, s', ms[1..])
       case TimedOut => InSync(c, s', ms)
       case Closed => ms == []
       case Malformed(_) => false
  }

  lemma ReadFrameShrinks(c: Codec, s: Stream)
    ensures var (r, s') := ReadFrame(c, s);
            |s'.arrivals| <= |s.arrivals| && (r.TimedOut? ==> |s'.arrivals| < |s.arrivals|)
  {
    ReadExactlyMeets(s, HEADER_SIZE);
    var (r, s1) := ReadExactly(s, HEADER_SIZE);
    if r.Got? {
      ReadExactlyMeets(s1, Length(r.value));
    }
  }

  /** Reading moves along the stream without passing over a timeout. */
  lemma {:induction false} CleanAfterRead(c: Codec, ms: seq<MessageFrame>, consumed: nat, s: Stream, n: nat)
    ensures var (r, s') := ReadExactly(s, n);
            var clean := CleanTimeouts(c, ms, consumed + |s.buffer|, s.arrivals);
            && (r.Got? ==> (clean <==> CleanTimeouts(c, ms, consumed + n + |s'.buffer|, s'.arrivals)))
            && (r.TimedOut? ==>
                  (clean <==> NearBoundary(c, ms, consumed + |s'.buffer|)
                              && CleanTimeouts(c, ms, consumed + |s'.buffer|, s'.arrivals)))
            && (r.Closed? ==> clean)
    decreases |s.arrivals|
  {
    if |s.buffer| < n && s.arrivals != [] && s.arrivals[0].Chunk? {
      CleanAfterRead(c, ms, consumed, Stream(s.buffer + s.arrivals[0].bytes, s.arrivals[1..]), n);
    }
  }

  lemma {:induction false} CleanFromNextFrame(c: Codec, ms: seq<MessageFrame>, arrived: nat, arrivals: seq<Arrival>)
    requires ms != []
    ensures CleanTimeouts(c, ms, |Frame(c, ms[0])| + arrived, arrivals) <==> CleanTimeouts(c, ms[1..], arrived, arrivals)
    decreases |arrivals|
  {
    if arrivals != [] {
      var more := if arrivals[0].Chunk? then |arrivals[0].bytes| else 0;
      CleanFromNextFrame(c, ms, arrived + more, arrivals[1..]);
    }
  }

  /** The payload of a frame being waited for, behind its header. */
  ghost predicate AtPayload(c: Codec, s: Stream, m: MessageFrame, rest: seq<Byte>) {
    Pending(s) == c.dump(m) + rest
  }

  /** Reading the header of the next frame. */
  lemma ReadHeaderBytes(c: Codec, s: Stream, header: seq<Byte>, tail: seq<Byte>)
    requires |header| == HEADER_SIZE && 0 < Length(header) <= MAX_MESSAGE_SIZE && Pending(s) == header + tail
    ensures var (h, s1) := ReadExactly(s, HEADER_SIZE);
            && (h.TimedOut? || h.Got?)
            && (h.TimedOut? ==> ReadFrame(c, s) == (TimedOut, s1) && Pending(s1) == Pending(s) && |s1.buffer| < HEADER_SIZE)
            && (h.Got? ==> ReadFrame(c, s) == ReadPayload(c, s1, Length(header)) && Pending(s1) == tail)
  {
    TakeNext(s, header, tail);
    hide ReadExactly, ReadPayload, Length, Pending;
  }

  lemma ReadHeader(c: Codec, s: Stream, m: MessageFrame, rest: seq<Byte>)
    requires Lawful(c) && Fits(c, m) && Pending(s) == Frame(c, m) + rest
    ensures var (h, s1) := ReadExactly(s, HEADER_SIZE);
            && (h.TimedOut? || h.Got?)
            && (h.TimedOut? ==> ReadFrame(c, s) == (TimedOut, s1) && Pending(s1) == Pending(s) && |s1.buffer| < HEADER_SIZE)
            && (h.Got? ==> ReadFrame(c, s) == ReadPayload(c, s1, |c.dump(m)|) && AtPayload(c, s1, m, rest))
  {
    hide Header, Length, ReadFrame, ReadExactly, ReadPayload, Pending;
    LengthOfHeader(|c.dump(m)|);
    var header := Header(|c.dump(m)|);
    assert Frame(c, m) + rest == header + (c.dump(m) + rest);
    ReadHeaderBytes(c, s, header, c.dump(m) + rest);
  }

  /** Reading its payload. */
  lemma ReadBody(c: Codec, s: Stream, m: MessageFrame, rest: seq<Byte>)
    requires Lawful(c) && AtPayload(c, s, m, rest)
    ensures var (r, s2) := ReadPayload(c, s, |c.dump(m)|);
            && s2 == ReadExactly(s, |c.dump(m)|).1
            && (ReadExactly(s, |c.dump(m)|).0.Got? <==> r == Got(m))
            && (ReadExactly(s, |c.dump(m)|).0.TimedOut? <==> r == TimedOut)
            && (r == Got(m) || r == TimedOut)
            && (r == Got(m) ==> Pending(s2) == rest)
            && (r == TimedOut ==> |Pending(s2)| == |c.dump(m)| + |rest| && |s2.buffer| < |c.dump(m)|)
  {
    TakeNext(s, c.dump(m), rest);
  }

  /** The exact condition for one read: after a timeout the stream is still at the frame
      boundary exactly when the header had not been consumed, that is, when fewer than
      four bytes of the frame had arrived. */
  lemma TimeoutKeepsBoundaryExactly(c: Codec, s: Stream, m: MessageFrame, rest: seq<Byte>)
    requires Lawful(c) && Fits(c, m) && Pending(s) == Frame(c, m) + rest
    requires ReadFrame(c, s).0.TimedOut?
    ensures Pending(ReadFrame(c, s).1) == Pending(s) <==> ReadExactly(s, HEADER_SIZE).0.TimedOut?
  {
    ReadHeader(c, s, m, rest);
    var (h, s1) := ReadExactly(s, HEADER_SIZE);
    if h.Got? {
      ReadBody(c, s1, m, rest);
    }
  }

  /** A frame whose payload is interrupted puts the timeout out of bounds. */
  lemma InterruptedPayload(c: Codec, ms: seq<MessageFrame>, s: Stream)
    requires Lawful(c) && ms != [] && Fits(c, ms[0]) && AtPayload(c, s, ms[0], Frames(c, ms[1..]))
    requires ReadPayload(c, s, |c.dump(ms[0])|).0 == TimedOut
    ensures Pending(ReadPayload(c, s, |c.dump(ms[0])|).1) != Frames(c, ms)
    ensures !CleanTimeouts(c, ms, HEADER_SIZE + |s.buffer|, s.arrivals)
  {
    hide Header, ReadExactly;
    ReadBody(c, s, ms[0], Frames(c, ms[1..]));
    CleanAfterRead(c, ms, HEADER_SIZE, s, |c.dump(ms[0])|);
  }

  /** A frame that is read moves both views on to the next one. */
  lemma FinishedPayload(c: Codec, ms: seq<MessageFrame>, s: Stream)
    requires Lawful(c) && ms != [] && Fits(c, ms[0]) && AtPayload(c, s, ms[0], Frames(c, ms[1..]))
    requires ReadPayload(c, s, |c.dump(ms[0])|).0 != TimedOut
    ensures var (r, s2) := ReadPayload(c, s, |c.dump(ms[0])|);
            && r == Got(ms[0]) && Pending(s2) == Frames(c, ms[1..])
            && (CleanTimeouts(c, ms, HEADER_SIZE + |s.buffer|, s.arrivals)
                <==> CleanTimeouts(c, ms[1..], |s2.buffer|, s2.arrivals))
  {
    hide Lawful, Header, ReadPayload, ReadExactly, AtPayload, CleanTimeouts, NearBoundary, Pending, Frames, Fits;
    ReadBody(c, s, ms[0], Frames(c, ms[1..]));
    var n, s2 := |c.dump(ms[0])|, ReadPayload(c, s, |c.dump(ms[0])|).1;
    assert |Frame(c, ms[0])| == HEADER_SIZE + n;
    hide Frame;
    CleanAfterRead(c, ms, HEADER_SIZE, s, n);
    CleanFromNextFrame(c, ms, |s2.buffer|, s2.arrivals);
  }

  lemma ReadNothing(c: Codec, s: Stream)
    requires Pending(s) == []
    ensures var (h, s1) := ReadExactly(s, HEADER_SIZE);
            && (h.TimedOut? || h.Closed?) && ReadFrame(c, s) == (if h.TimedOut? then TimedOut else Closed, s1)
            && (h.TimedOut? ==> Pending(s1) == [] && |s1.buffer| < HEADER_SIZE)
  {
    ReadExactlyMeets(s, HEADER_SIZE);
  }

  lemma SyncAfterTimeout(c: Codec, s: Stream, next: Stream, ms: seq<MessageFrame>)
    requires Pending(s) == Frames(c, ms) && ReadFrame(c, s) == (TimedOut, next)
    ensures InSync(c, s, ms) <==> InSync(c, next, ms)
  {
  }

  lemma SyncAfterFrame(c: Codec, s: Stream, next: Stream, ms: seq<MessageFrame>)
    requires ms != [] && Pending(s) == Frames(c, ms) && ReadFrame(c, s) == (Got(ms[0]), next)
    ensures InSync(c, s, ms) <==> InSync(c, next, ms[1..])
  {
  }

  lemma SyncAfterClose(c: Codec, s: Stream)
    requires Pending(s) == [] && ReadFrame(c, s).0 == Closed
    ensures InSync(c, s, [])
  {
  }

  lemma NotAtStart(c: Codec, s: Stream, ms: seq<MessageFrame>)
    requires Pending(s) != Frames(c, ms)
    ensures !InSync(c, s, ms)
  {
  }

  /** The server's reads stay in step with the frames exactly when every timeout fires
      near a frame boundary. */
  lemma {:induction false} InSyncExactly(c: Codec, s: Stream, ms: seq<MessageFrame>)
    requires Lawful(c) && AllFit(c, ms) && Pending(s) == Frames(c, ms)
    ensures InSync(c, s, ms) <==> CleanTimeouts(c, ms, |s.buffer|, s.arrivals)
    decreases |ms| + |s.arrivals|
  {
    hide Header, Length, InSync, Lawful, AllFit, Fits;
    ReadFrameShrinks(c, s);
    CleanAfterRead(c, ms, 0, s, HEADER_SIZE);
    var (h, s1) := ReadExactly(s, HEADER_SIZE);
    if ms == [] {
      ReadNothing(c, s);
      hide ReadFrame, ReadExactly, CleanTimeouts;
      if h.TimedOut? {
        SyncAfterTimeout(c, s, s1, ms);
        InSyncExactly(c, s1, ms);
      } else {
        SyncAfterClose(c, s);
      }
    } else {
      FirstFrame(c, ms);
      ReadHeader(c, s, ms[0], Frames(c, ms[1..]));
      hide ReadFrame, ReadExactly, ReadPayload, CleanTimeouts, NearBoundary, Frame, Frames, Pending;
      if h.TimedOut? {
        assert NearBoundary(c, ms, |s1.buffer|) by { NearStart(c, ms, |s1.buffer|); }
        SyncAfterTimeout(c, s, s1, ms);
        InSyncExactly(c, s1, ms);
      } else {
        var (r, s2) := ReadPayload(c, s1, |c.dump(ms[0])|);
        if r == TimedOut {
          SyncAfterTimeout(c, s, s2, ms);
          InterruptedPayload(c, ms, s1);
          NotAtStart(c, s2, ms);
        } else {
          FinishedPayload(c, ms, s1);
          SyncAfterFrame(c, s, s2, ms);
          InSyncExactly(c, s2, ms[1..]);
        }
      }
    }
  }

  lemma NearStart(c: Codec, ms: seq<MessageFrame>, arrived: nat)
    requires arrived < HEADER_SIZE
    ensures NearBoundary(c, ms, arrived)
  {
  }

  /** The smallest case: a timeout between the header of a frame and its payload. */
  function Interrupted(header: seq<Byte>, payload: seq<Byte>): Stream {
    Stream([], [Chunk(header), Timeout, Chunk(payload)])
  }

  lemma InterruptedBytes(header: seq<Byte>, payload: seq<Byte>)
    ensures Pending(Interrupted(header, payload)) == header + payload
  {
    var arrivals := Interrupted(header, payload).arrivals;
    assert arrivals[1..] == [Timeout, Chunk(payload)] && arrivals[1..][1..] == [Chunk(payload)];
    assert Bytes([Chunk(payload)]) == payload;
    assert Bytes(arrivals[1..]) == payload;
  }

  lemma InterruptedHeader(header: seq<Byte>, payload: seq<Byte>)
    requires |header| == HEADER_SIZE
    ensures ReadExactly(Interrupted(header, payload), HEADER_SIZE)
            == (Got(header), Stream([], [Timeout, Chunk(payload)]))
  {
    var arrivals := Interrupted(header, payload).arrivals;
    assert arrivals[1..] == [Timeout, Chunk(payload)];
    assert [] + header == header && header[..HEADER_SIZE] == header && header[HEADER_SIZE..] == [];
  }

  /** The header is gone, and the server goes on reading in the middle of the frame. */
  lemma TimeoutInsideFrame(c: Codec, m: MessageFrame)
    requires Lawful(c) && Fits(c, m)
    ensures var s := Interrupted(Header(|c.dump(m)|), c.dump(m));
            && Pending(s) == Frames(c, [m])
            && ReadFrame(c, s) == (TimedOut, Stream([], [Chunk(c.dump(m))]))
            && !InSync(c, s, [m])
  {
    var payload := c.dump(m);
    var header := Header(|payload|);
    var s := Interrupted(header, payload);
    LengthOfHeader(|payload|);
    hide Header, Length;
    InterruptedBytes(header, payload);
    InterruptedHeader(header, payload);
    assert Frames(c, [m]) == header + payload by {
      assert [m][1..] == [];
    }
    var rest := Stream([], [Timeout, Chunk(payload)]);
    assert ReadExactly(rest, |payload|) == (TimedOut, Stream([], [Chunk(payload)]));
    assert ReadFrame(c, s) == ReadPayload(c, rest, |payload|);
    hide Lawful, ReadFrame, ReadExactly, ReadPayload, Frames, Pending;
    assert !CleanTimeouts(c, [m], 0, s.arrivals) by {
      assert !CleanTimeouts(c, [m], HEADER_SIZE, rest.arrivals);
      assert s.arrivals[1..] == rest.arrivals;
    }
    InSyncExactly(c, s, [m]);
  }
}
