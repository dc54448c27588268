/** The client's side of an exchange (enclave/vsock/client.py:49-129). */
module Client {
  import opened Framing
  import opened Timeouts
  import opened Exchange

  /** `send` after its request is written: the first frame that is no step event. */
  function AwaitReply(c: Codec, s: Stream): ReadResult<MessageFrame>
    decreases |Pending(s)| + |s.arrivals|
  {
    ReadFrameConsumes(c, s);
    var (r, s') := ReadFrame(c, s);
    if r.Got? && r.value.msgType == "step_event" then AwaitReply(c, s') else r
  }

  predicate EndsStream(m: MessageFrame) {
    m.msgType in {"task_result", "task_error", "error"}
  }

  /** `send_stream` after its request is written: the frames it yields, and whether it
      ends by itself rather than with the exception of a further read. */
  function StreamReplies(c: Codec, s: Stream): (seq<MessageFrame>, bool)
    decreases |Pending(s)| + |s.arrivals|
  {
    ReadFrameConsumes(c, s);
    var (r, s') := ReadFrame(c, s);
    if !r.Got? then ([], false)
    else if EndsStream(r.value) then ([r.value], true)
    else
      var (rest, ended) := StreamReplies(c, s');
      ([r.value] + rest, ended)
  }

  class VsockClient {
    const codec: Codec
    const connection: StreamReader
    var sent: seq<Byte>

    constructor (codec: Codec, connection: StreamReader)
      ensures this.codec == codec && this.connection == connection && sent == []
    {
      this.codec, this.connection, this.sent := codec, connection, [];
    }

    /** Sends a request, under a fresh id if it has none, and waits for its reply. */
    method Send(msg: MessageFrame, freshId: string) returns (r: ReadResult<MessageFrame>)
      modifies this, connection
      ensures var request := Identified(msg, freshId);
              if Fits(codec, request) then
                sent == old(sent) + Frame(codec, request) && r == AwaitReply(codec, old(connection.View()))
              else sent == old(sent) && r == Malformed(TooLong)
    {
      var request := Identified(msg, freshId);
      var encoded := Encode(codec, request);
      if encoded.Err? {
        return Malformed(encoded.error);
      }
      sent := sent + encoded.value;
      ReadFrameConsumes(codec, connection.View());
      r := connection.ReadOneFrame(codec);
      while r.Got? && r.value.msgType == "step_event"
        invariant sent == old(sent) + Frame(codec, request)
        invariant AwaitReply(codec, old(connection.View()))
               == if r.Got? && r.value.msgType == "step_event" then AwaitReply(codec, connection.View()) else r
        decreases if r.Got? then |Pending(connection.View())| + |connection.View().arrivals| + 1 else 0
      {
        ReadFrameConsumes(codec, connection.View());
        r := connection.ReadOneFrame(codec);
      }
    }
  }

  function Identified(msg: MessageFrame, freshId: string): MessageFrame {
    if msg.requestId == "" then msg.(requestId := freshId) else msg
  }

  /** A request keeps its type and payload, and its own id if it has one. */
  lemma IdentifiedKeeps(msg: MessageFrame, freshId: string)
    ensures var request := Identified(msg, freshId);
            && request.msgType == msg.msgType && request.payload == msg.payload
            && (msg.requestId != "" ==> request == msg)
            && (msg.requestId == "" ==> request.requestId == freshId)
  {
  }

  /** The stream of a request ends by itself exactly if the request was a task or was answered
      by an error; behind any other reply the client reads on, into the end of the connection. */
  lemma StreamEndsItself(svc: Service, m: MessageFrame, outcome: HandlerOutcome)
    ensures EndsStream(Reply(svc, m, outcome))
            <==> m.msgType == "task_request" || outcome.Raised? || m.msgType !in {"attest", "echo", "status", "reconfigure"}
  {
  }

  // ---- Exchanges from end to end ----

  /** Reading frames of which only the last is no step event. */
  lemma {:induction false} AwaitSkipsEvents(c: Codec, s: Stream, steps: seq<MessageFrame>, reply: MessageFrame)
    requires Lawful(c) && AllFit(c, steps) && Fits(c, reply) && NoTimeouts(s.arrivals)
    requires Pending(s) == Frames(c, steps + [reply])
    requires reply.msgType != "step_event" && forall f <- steps :: f.msgType == "step_event"
    ensures AwaitReply(c, s) == Got(reply)
    decreases |steps|
  {
    var all := steps + [reply];
    ReadFrameConsumes(c, s);
    assert all[0] == if steps == [] then reply else steps[0];
    assert steps != [] ==> steps[0] in steps;
    ReadFrameUndisturbed(c, s, all[0], Frames(c, all[1..]));
    if steps != [] {
      assert all[1..] == steps[1..] + [reply];
      AwaitSkipsEvents(c, ReadFrame(c, s).1, steps[1..], reply);
    }
  }

  /** `send_stream` on such frames: it yields all of them, and ends by itself exactly when
      the reply is of a type it takes for the end. */
  lemma {:induction false} StreamYieldsAll(c: Codec, s: Stream, steps: seq<MessageFrame>, reply: MessageFrame)
    requires Lawful(c) && AllFit(c, steps) && Fits(c, reply) && NoTimeouts(s.arrivals)
    requires Pending(s) == Frames(c, steps + [reply])
    requires reply.msgType != "step_event" && forall f <- steps :: f.msgType == "step_event"
    ensures StreamReplies(c, s) == (steps + [reply], EndsStream(reply))
    decreases |steps|
  {
    var all := steps + [reply];
    ReadFrameConsumes(c, s);
    assert all[0] == if steps == [] then reply else steps[0];
    assert steps != [] ==> steps[0] in steps;
    ReadFrameUndisturbed(c, s, all[0], Frames(c, all[1..]));
    var s' := ReadFrame(c, s).1;
    FirstReplied(c, s);
    hide ReadFrame, Frame, Pending, Lawful, Fits, StreamReplies;
    if steps != [] {
      assert all[1..] == steps[1..] + [reply];
      StreamYieldsAll(c, s', steps[1..], reply);
      assert [steps[0]] + (steps[1..] + [reply]) == all;
    } else {
      assert all[1..] == [];
      NothingToStream(c, s');
      assert [reply] + [] == all && all == [reply];
    }
  }

  lemma FirstReplied(c: Codec, s: Stream)
    ensures var (r, s') := ReadFrame(c, s);
            StreamReplies(c, s)
            == if !r.Got? then ([], false)
               else if EndsStream(r.value) then ([r.value], true)
               else ([r.value] + StreamReplies(c, s').0, StreamReplies(c, s').1)
  {
    hide ReadFrame;
  }

  lemma NothingToStream(c: Codec, s: Stream)
    requires Pending(s) == []
    ensures StreamReplies(c, s) == ([], false)
  {
    ReadNothing(c, s);
  }

  /** One request on a fresh connection, its frames cut into chunks in both directions: the
      client gets the reply to its own request. */
  lemma SendReturnsOwnReply(svc: Service, request: MessageFrame, b: nat -> Behaviour, shutdown: nat -> bool,
                            up: Stream, down: Stream)
    requires Lawful(svc.codec) && Fits(svc.codec, request) && Answered(svc, request, b(0))
    requires Pending(up) == Frame(svc.codec, request)
    requires CleanTimeouts(svc.codec, [request], |up.buffer|, up.arrivals)
    requires NeverShutDown(shutdown, 0, |up.arrivals| + 2)
    requires NoTimeouts(down.arrivals)
    requires Pending(down) == Frames(svc.codec, Serve(svc, up, b, shutdown, 0, 0))
    ensures var reply := Reply(svc, request, b(0).outcome);
            && AwaitReply(svc.codec, down) == Got(reply)
            && reply.requestId == request.requestId
            && StreamReplies(svc.codec, down) == (Response(svc, request, b(0)), EndsStream(reply))
  {
    var c, reply := svc.codec, Reply(svc, request, b(0).outcome);
    var steps := StreamedFrames(svc, request, b(0));
    ServedAlone(svc, request, b, shutdown, up);
    ResponseShape(svc, request, b(0));
    StepsAlone(svc, request, b(0));
    hide Serve, Frames, Streamed;
    AwaitSkipsEvents(c, down, steps, reply);
    StreamYieldsAll(c, down, steps, reply);
  }

  lemma ServedAlone(svc: Service, request: MessageFrame, b: nat -> Behaviour, shutdown: nat -> bool, up: Stream)
    requires Lawful(svc.codec) && Fits(svc.codec, request)
    requires Pending(up) == Frame(svc.codec, request)
    requires CleanTimeouts(svc.codec, [request], |up.buffer|, up.arrivals)
    requires NeverShutDown(shutdown, 0, |up.arrivals| + 2)
    ensures Serve(svc, up, b, shutdown, 0, 0) == Response(svc, request, b(0))
  {
    var ms := [request];
    assert ms[1..] == [];
    assert Frames(svc.codec, ms) == Frame(svc.codec, request) + [];
    InSyncExactly(svc.codec, up, ms);
    ServeIsResponses(svc, up, ms, b, shutdown, 0, 0);
    assert Responses(svc, [], b, 1) == [];
    assert Response(svc, request, b(0)) + [] == Response(svc, request, b(0));
  }

  lemma StepsAlone(svc: Service, request: MessageFrame, b: Behaviour)
    ensures var steps := StreamedFrames(svc, request, b);
            AllFit(svc.codec, steps) && forall f <- steps :: f.msgType == "step_event"
    ensures Reply(svc, request, b.outcome).msgType != "step_event"
  {
    WrittenIsPrefix(svc.codec, request.requestId, b.schedule);
    ReplyIsNoStep(svc, request, b.outcome);
  }
}
