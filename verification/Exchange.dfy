/** One connection: the server's read, dispatch and reply loop with its concurrent event
    streamer (enclave/vsock/server.py:58-122, enclave/main.py:208-371). */
module Exchange {
  import opened Framing
  import opened Timeouts

  // ---- Streaming the events of one task ----

  /** One scheduling step of a streamed task: the task emits an event, or the streamer
      runs until it has written one frame. */
  datatype Action = Emit(event: string) | StreamerRuns

  /** The streamer takes events from the queue in order. Encoding an oversized event
      fails and ends the streamer, which leaves the rest of the queue unread. */
  datatype Streaming = Streaming(emitted: seq<string>, queue: seq<string>, written: seq<string>, alive: bool)

  function StepFrame(requestId: string, event: string): MessageFrame {
    MessageFrame("step_event", event, requestId)
  }

  function After(c: Codec, requestId: string, s: Streaming, a: Action): Streaming {
    match a
    case Emit(event) => s.(emitted := s.emitted + [event], queue := s.queue + [event])
    case StreamerRuns =>
      if !s.alive || s.queue == [] then s
      else if Fits(c, StepFrame(requestId, s.queue[0])) then
        s.(queue := s.queue[1..], written := s.written + [s.queue[0]])
      else s.(queue := s.queue[1..], alive := false)
  }

  /** The state when the streamer is cancelled, after any schedule. */
  function Streamed(c: Codec, requestId: string, schedule: seq<Action>): Streaming {
    if schedule == [] then Streaming([], [], [], true)
    else After(c, requestId, Streamed(c, requestId, schedule[..|schedule| - 1]), schedule[|schedule| - 1])
  }

  function StepFrames(requestId: string, events: seq<string>): seq<MessageFrame> {
    seq(|events|, i requires 0 <= i < |events| => StepFrame(requestId, events[i]))
  }

  /** Whatever the schedule and the moment of cancellation, the events written are a
      prefix of the events emitted; while the streamer lives, what is missing is just
      what is still queued, and it dies only of an event too large to send. */
  lemma {:induction false} WrittenIsPrefix(c: Codec, requestId: string, schedule: seq<Action>)
    ensures var s := Streamed(c, requestId, schedule);
            && s.written <= s.emitted
            && (forall e <- s.written :: Fits(c, StepFrame(requestId, e)))
            && (s.alive ==> s.emitted == s.written + s.queue)
            && (!s.alive ==> |s.written| < |s.emitted| && !Fits(c, StepFrame(requestId, s.emitted[|s.written|])))
  {
    if schedule != [] {
      WrittenIsPrefix(c, requestId, schedule[..|schedule| - 1]);
      var s := Streamed(c, requestId, schedule[..|schedule| - 1]);
      hide Fits;
      if schedule[|schedule| - 1].StreamerRuns? && s.alive && s.queue != [] {
        assert s.queue == [s.queue[0]] + s.queue[1..];
        assert s.emitted[|s.written|] == s.queue[0];
      }
    }
  }

  /** The events that a schedule emits, in order. */
  function Emissions(schedule: seq<Action>): seq<string> {
    if schedule == [] then []
    else (if schedule[0].Emit? then [schedule[0].event] else []) + Emissions(schedule[1..])
  }

  lemma {:induction false} EmissionsConcat(a: seq<Action>, b: seq<Action>)
    ensures Emissions(a + b) == Emissions(a) + Emissions(b)
  {
    if a == [] {
      assert a + b == b;
    } else {
      assert (a + b)[1..] == a[1..] + b;
      EmissionsConcat(a[1..], b);
    }
  }

  /** Every event that the task emits gets into the queue. */
  lemma {:induction false} AllAreEmitted(c: Codec, requestId: string, schedule: seq<Action>)
    ensures Streamed(c, requestId, schedule).emitted == Emissions(schedule)
  {
    if schedule != [] {
      var front, a := schedule[..|schedule| - 1], schedule[|schedule| - 1];
      AllAreEmitted(c, requestId, front);
      EmissionsConcat(front, [a]);
      assert schedule == front + [a] && [a][1..] == [];
    }
  }

  lemma StreamedAppend(c: Codec, requestId: string, schedule: seq<Action>, a: Action)
    ensures Streamed(c, requestId, schedule + [a]) == After(c, requestId, Streamed(c, requestId, schedule), a)
  {
    hide After;
    assert (schedule + [a])[..|schedule|] == schedule;
  }

  /** Progress: whenever the streamer runs while it lives and an event is waiting, the event
      is taken from the queue and its frame written, unless it is too large: then the
      streamer ends. */
  lemma StreamerWritesNext(c: Codec, requestId: string, schedule: seq<Action>)
    requires var s := Streamed(c, requestId, schedule); s.alive && s.queue != []
    ensures var s, next := Streamed(c, requestId, schedule), Streamed(c, requestId, schedule + [StreamerRuns]);
            && next.emitted == s.emitted && next.queue == s.queue[1..]
            && (next.alive <==> Fits(c, StepFrame(requestId, s.queue[0])))
            && next.written == if next.alive then s.written + [s.queue[0]] else s.written
  {
    StreamedAppend(c, requestId, schedule, StreamerRuns);
  }

  predicate AllEventsFit(c: Codec, requestId: string, events: seq<string>) {
    forall e <- events :: Fits(c, StepFrame(requestId, e))
  }

  function Runs(n: nat): seq<Action> {
    seq(n, _ => StreamerRuns)
  }

  lemma SmallEventsKeepAlive(c: Codec, requestId: string, schedule: seq<Action>)
    requires AllEventsFit(c, requestId, Emissions(schedule))
    ensures Streamed(c, requestId, schedule).alive
  {
    AllAreEmitted(c, requestId, schedule);
    WrittenIsPrefix(c, requestId, schedule);
    hide Fits, Emissions;
    var s := Streamed(c, requestId, schedule);
    forall i | 0 <= i < |s.emitted| ensures Fits(c, StepFrame(requestId, s.emitted[i])) {
      assert s.emitted[i] in s.emitted;
    }
  }

  /** If all events fit a frame, a streamer that gets to run once more for each event still
      waiting has written every event that was emitted. */
  lemma {:induction false} StreamerCatchesUp(c: Codec, requestId: string, schedule: seq<Action>, n: nat)
    requires AllEventsFit(c, requestId, Emissions(schedule))
    requires n >= |Streamed(c, requestId, schedule).queue|
    ensures var s := Streamed(c, requestId, schedule + Runs(n));
            s.alive && s.queue == [] && s.written == s.emitted == Emissions(schedule)
    decreases n
  {
    SmallEventsKeepAlive(c, requestId, schedule);
    WrittenIsPrefix(c, requestId, schedule);
    AllAreEmitted(c, requestId, schedule);
    var s := Streamed(c, requestId, schedule);
    hide Streamed, Emissions, AllEventsFit;
    if n == 0 {
      assert schedule + Runs(0) == schedule;
    } else {
      var next := schedule + [StreamerRuns];
      assert next + Runs(n - 1) == schedule + Runs(n);
      NoEmission(schedule);
      if s.queue != [] {
        StreamerWritesNext(c, requestId, schedule);
      } else {
        StreamedAppend(c, requestId, schedule, StreamerRuns);
      }
      StreamerCatchesUp(c, requestId, next, n - 1);
    }
  }

  lemma NoEmission(schedule: seq<Action>)
    ensures Emissions(schedule + [StreamerRuns]) == Emissions(schedule)
  {
    EmissionsConcat(schedule, [StreamerRuns]);
    assert [StreamerRuns][1..] == [];
  }

  // ---- Handlers ----

  datatype HandlerOutcome = Returned(payload: string) | Raised(error: string)

  /** What happens while one request is handled. */
  datatype Behaviour = Behaviour(schedule: seq<Action>, outcome: HandlerOutcome)

  /** The service: its codec, and which payloads lack a task description. */
  datatype Service = Service(codec: Codec, undescribed: string -> bool)

  const REPLY_TYPES: map<string, string> := map[
    "task_request" := "task_result",
    "attest" := "attestation",
    "echo" := "echo_response",
    "status" := "status_response",
    "reconfigure" := "reconfigure_response"]

  function Reply(svc: Service, m: MessageFrame, outcome: HandlerOutcome): MessageFrame {
    if m.msgType !in REPLY_TYPES then
      MessageFrame("error", "Unknown message type: " + m.msgType, m.requestId)
    else if m.msgType == "task_request" && svc.undescribed(m.payload) then
      MessageFrame("task_error", "Empty task description", m.requestId)
    else
      match outcome
      case Raised(error) => MessageFrame("error", "Handler error: " + error, m.requestId)
      case Returned(payload) =>
        MessageFrame(REPLY_TYPES[m.msgType], if m.msgType == "echo" then m.payload else payload, m.requestId)
  }

  /** What a client is told: a message of an unknown type gets an error that names the type, a
      task without a description a task error, an echo its own payload back; a handler's
      exception becomes an error that holds its text, and its payload a reply of the type
      that goes with the request. */
  lemma ReplyMeans(svc: Service, m: MessageFrame, outcome: HandlerOutcome)
    ensures var reply := Reply(svc, m, outcome);
            var undescribed := m.msgType == "task_request" && svc.undescribed(m.payload);
            && reply.requestId == m.requestId
            && (m.msgType !in {"task_request", "attest", "echo", "status", "reconfigure"} ==>
                  reply.msgType == "error" && reply.payload == "Unknown message type: " + m.msgType)
            && (undescribed ==> reply.msgType == "task_error" && reply.payload == "Empty task description")
            && (m.msgType in {"task_request", "attest", "echo", "status", "reconfigure"} && !undescribed ==>
                  match outcome
                  case Raised(error) => reply.msgType == "error" && reply.payload == "Handler error: " + error
                  case Returned(payload) =>
                    && reply.msgType == (match m.msgType
                                         case "task_request" => "task_result"
                                         case "attest" => "attestation"
                                         case "echo" => "echo_response"
                                         case "status" => "status_response"
                                         case _ => "reconfigure_response")
                    && reply.payload == if m.msgType == "echo" then m.payload else payload)
  {
  }

  predicate Streams(svc: Service, m: MessageFrame) {
    m.msgType == "task_request" && !svc.undescribed(m.payload)
  }

  /** The step events that reach the connection before the reply. */
  function StreamedFrames(svc: Service, m: MessageFrame, b: Behaviour): seq<MessageFrame> {
    if Streams(svc, m) then StepFrames(m.requestId, Streamed(svc.codec, m.requestId, b.schedule).written) else []
  }

  /** All frames of one request; a reply too large to encode ends the connection. */
  function Response(svc: Service, m: MessageFrame, b: Behaviour): seq<MessageFrame> {
    var reply := Reply(svc, m, b.outcome);
    StreamedFrames(svc, m, b) + if Fits(svc.codec, reply) then [reply] else []
  }

  predicate Answered(svc: Service, m: MessageFrame, b: Behaviour) {
    Fits(svc.codec, Reply(svc, m, b.outcome))
  }

  /** The reply carries the request's id and is no step event; every step event carries
      the id too, and comes first. */
  lemma ResponseShape(svc: Service, m: MessageFrame, b: Behaviour)
    ensures var r := Response(svc, m, b);
            var k := |StreamedFrames(svc, m, b)|;
            && |r| == k + (if Answered(svc, m, b) then 1 else 0)
            && (forall f <- r :: f.requestId == m.requestId && Fits(svc.codec, f))
            && (forall i :: 0 <= i < |r| ==> (r[i].msgType == "step_event" <==> i < k))
  {
    WrittenIsPrefix(svc.codec, m.requestId, b.schedule);
    ReplyIsNoStep(svc, m, b.outcome);
  }

  /** Only a task with a description streams events; any other request is answered by one
      frame alone. */
  lemma OnlyTasksStream(svc: Service, m: MessageFrame, b: Behaviour)
    requires m.msgType != "task_request" || svc.undescribed(m.payload)
    ensures Response(svc, m, b) == if Answered(svc, m, b) then [Reply(svc, m, b.outcome)] else []
  {
  }

  lemma ReplyIsNoStep(svc: Service, m: MessageFrame, outcome: HandlerOutcome)
    ensures Reply(svc, m, outcome).msgType != "step_event"
  {
    assert forall k <- REPLY_TYPES :: REPLY_TYPES[k] != "step_event";
  }

  // ---- The server's loop ----

  /** The frames sent on one connection: requests are answered one after the other,
      until the connection is closed or malformed, a reply is too large, or the server
      shuts down. `i` counts iterations and `k` requests; `b(k)` is what happens while
      request k is handled. */
  function Serve(svc: Service, s: Stream, b: nat -> Behaviour, shutdown: nat -> bool, i: nat, k: nat): seq<MessageFrame>
    decreases |Pending(s)| + |s.arrivals|
  {
    if shutdown(i) then []
    else
      ReadFrameConsumes(svc.codec, s);
      var (r, s') := ReadFrame(svc.codec, s);
      match r
      case TimedOut => Serve(svc, s', b, shutdown, i + 1, k)
      case Got(m) =>
        Response(svc, m, b(k)) + if Answered(svc, m, b(k)) then Serve(svc, s', b, shutdown, i + 1, k + 1) else []
      case Closed => []
      case Malformed(_) => []
  }

  lemma ReadFrameConsumes(c: Codec, s: Stream)
    ensures var (r, s') := ReadFrame(c, s);
            && |s'.arrivals| <= |s.arrivals|
            && (r.TimedOut? ==> |s'.arrivals| < |s.arrivals| && |Pending(s')| <= |Pending(s)|)
            && (r.Got? ==> |Pending(s')| < |Pending(s)|)
  {
    ReadExactlyMeets(s, HEADER_SIZE);
    var (r, s1) := ReadExactly(s, HEADER_SIZE);
    if r.Got? {
      ReadExactlyMeets(s1, Length(r.value));
    }
  }

  lemma {:induction false} FramesConcat(c: Codec, a: seq<MessageFrame>, b: seq<MessageFrame>)
    ensures Frames(c, a + b) == Frames(c, a) + Frames(c, b)
  {
    if a == [] {
      assert a + b == b;
    } else {
      assert (a + b)[1..] == a[1..] + b;
      FramesConcat(c, a[1..], b);
    }
  }

  class ServerConnection {
    const svc: Service
    const reader: StreamReader
    var sent: seq<Byte>

    constructor (svc: Service, reader: StreamReader)
      ensures this.svc == svc && this.reader == reader && sent == []
    {
      this.svc, this.reader, this.sent := svc, reader, [];
    }

    /** `write_frame`: encoding fails before anything is written. */
    method WriteFrame(m: MessageFrame) returns (ok: bool)
      modifies this
      ensures ok == Fits(svc.codec, m)
      ensures sent == old(sent) + if ok then Frame(svc.codec, m) else []
    {
      var encoded := Encode(svc.codec, m);
      ok := encoded.Ok?;
      if ok {
        sent := sent + encoded.value;
      }
    }

    /** Runs a task and its streamer under the given schedule, up to the cancellation of
        the streamer. */
    method StreamEvents(requestId: string, schedule: seq<Action>)
      modifies this
      ensures sent == old(sent) + Frames(svc.codec, StepFrames(requestId, Streamed(svc.codec, requestId, schedule).written))
    {
      hide Frames, Frame, Fits, StepFrames;
      var queue: seq<string>, alive := [], true;
      ghost var written := [];
      assert sent == sent + Frames(svc.codec, StepFrames(requestId, [])) by { NoStepFrames(svc.codec, requestId); }
      for i := 0 to |schedule|
        invariant sent == old(sent) + Frames(svc.codec, StepFrames(requestId, written))
        invariant var s := Streamed(svc.codec, requestId, schedule[..i]);
                  queue == s.queue && alive == s.alive && written == s.written
      {
        StreamedNext(svc.codec, requestId, schedule, i);
        hide Streamed;
        match schedule[i]
        case Emit(event) =>
          queue := queue + [event];
        case StreamerRuns =>
          if alive && queue != [] {
            var event := queue[0];
            queue := queue[1..];
            alive := WriteFrame(StepFrame(requestId, event));
            if alive {
              OneMoreStepFrame(svc.codec, requestId, written, event);
              written := written + [event];
            }
          }
      }
      assert schedule[..|schedule|] == schedule;
    }

    /** Handles one request and writes its reply. */
    method Respond(m: MessageFrame, b: Behaviour) returns (ok: bool)
      modifies this
      ensures ok == Answered(svc, m, b)
      ensures sent == old(sent) + Frames(svc.codec, Response(svc, m, b))
    {
      hide Frame, Fits, Streamed, StepFrames, Reply;
      if Streams(svc, m) {
        StreamEvents(m.requestId, b.schedule);
      }
      assert sent == old(sent) + Frames(svc.codec, StreamedFrames(svc, m, b));
      hide Frames, StreamedFrames;
      var reply := Reply(svc, m, b.outcome);
      ok := WriteFrame(reply);
      FramesConcat(svc.codec, StreamedFrames(svc, m, b), [reply]);
      OneFrame(svc.codec, reply);
      assert StreamedFrames(svc, m, b) + [] == StreamedFrames(svc, m, b);
    }

    method HandleConnection(b: nat -> Behaviour, shutdown: nat -> bool)
      modifies this, reader
      ensures sent == old(sent) + Frames(svc.codec, Serve(svc, old(reader.View()), b, shutdown, 0, 0))
    {
      hide Serve, ReadFrame, Response, Frames, Pending, Answered, Fits;
      ghost var frames: seq<MessageFrame> := [];
      ghost var rest := Serve(svc, reader.View(), b, shutdown, 0, 0);
      ghost var all := rest;
      NoFrames(svc.codec);
      var i, k, open := 0, 0, true;
      while open && !shutdown(i)
        invariant sent == old(sent) + Frames(svc.codec, frames)
        invariant all == frames + rest
        invariant rest == if open then Serve(svc, reader.View(), b, shutdown, i, k) else []
        decreases open, |Pending(reader.View())| + |reader.View().arrivals|
      {
        ghost var before := reader.View();
        ReadFrameConsumes(svc.codec, before);
        var read := reader.ReadOneFrame(svc.codec);
        ghost var after := reader.View();
        match read
        case TimedOut =>
          ServeTimeout(svc, before, after, b, shutdown, i, k);
          i := i + 1;
        case Closed =>
          ServeEnd(svc, before, b, shutdown, i, k);
          open := false;
        case Malformed(_) =>
          ServeEnd(svc, before, b, shutdown, i, k);
          open := false;
        case Got(m) =>
          ServeRequest(svc, before, m, after, b, shutdown, i, k);
          open := Respond(m, b(k));
          assert reader.View() == after;
          ghost var response := Response(svc, m, b(k));
          FramesConcat(svc.codec, frames, response);
          i, k := i + 1, k + 1;
          rest := if open then Serve(svc, after, b, shutdown, i, k) else [];
          assert frames + (response + rest) == frames + response + rest;
          frames := frames + response;
      }
      if open {
        ServeStops(svc, reader.View(), b, shutdown, i, k);
      }
      assert all == frames;
    }
  }

  lemma NoStepFrames(c: Codec, requestId: string)
    ensures Frames(c, StepFrames(requestId, [])) == []
  {
  }

  lemma OneFrame(c: Codec, m: MessageFrame)
    ensures Frames(c, [m]) == Frame(c, m)
  {
    hide Frame;
    assert [m][1..] == [];
  }

  lemma OneMoreStepFrame(c: Codec, requestId: string, written: seq<string>, event: string)
    ensures Frames(c, StepFrames(requestId, written + [event]))
            == Frames(c, StepFrames(requestId, written)) + Frame(c, StepFrame(requestId, event))
  {
    hide Frames, Frame;
    assert StepFrames(requestId, written + [event]) == StepFrames(requestId, written) + [StepFrame(requestId, event)];
    FramesConcat(c, StepFrames(requestId, written), [StepFrame(requestId, event)]);
    OneFrame(c, StepFrame(requestId, event));
  }

  lemma StreamedNext(c: Codec, requestId: string, schedule: seq<Action>, i: nat)
    requires i < |schedule|
    ensures Streamed(c, requestId, schedule[..i + 1]) == After(c, requestId, Streamed(c, requestId, schedule[..i]), schedule[i])
  {
    hide After;
    assert schedule[..i + 1][..i] == schedule[..i];
  }

  lemma ServeStops(svc: Service, s: Stream, b: nat -> Behaviour, shutdown: nat -> bool, i: nat, k: nat)
    requires shutdown(i)
    ensures Serve(svc, s, b, shutdown, i, k) == []
  {
  }

  lemma ServeTimeout(svc: Service, s: Stream, next: Stream, b: nat -> Behaviour, shutdown: nat -> bool, i: nat, k: nat)
    requires !shutdown(i) && ReadFrame(svc.codec, s) == (TimedOut, next)
    ensures Serve(svc, s, b, shutdown, i, k) == Serve(svc, next, b, shutdown, i + 1, k)
  {
  }

  lemma ServeEnd(svc: Service, s: Stream, b: nat -> Behaviour, shutdown: nat -> bool, i: nat, k: nat)
    requires !shutdown(i) && (ReadFrame(svc.codec, s).0.Closed? || ReadFrame(svc.codec, s).0.Malformed?)
    ensures Serve(svc, s, b, shutdown, i, k) == []
  {
  }

  lemma ServeRequest(svc: Service, s: Stream, m: MessageFrame, next: Stream, b: nat -> Behaviour,
                     shutdown: nat -> bool, i: nat, k: nat)
    requires !shutdown(i) && ReadFrame(svc.codec, s) == (Got(m), next)
    ensures Serve(svc, s, b, shutdown, i, k)
            == Response(svc, m, b(k))
               + if Answered(svc, m, b(k)) then Serve(svc, next, b, shutdown, i + 1, k + 1) else []
  {
    hide Response, Answered;
  }

  // ---- Every request gets its one reply, in order ----

  /** The frames of requests handled one after the other. */
  function Responses(svc: Service, ms: seq<MessageFrame>, b: nat -> Behaviour, k: nat): seq<MessageFrame>
    decreases |ms|
  {
    if ms == [] then []
    else
      Response(svc, ms[0], b(k)) + if Answered(svc, ms[0], b(k)) then Responses(svc, ms[1..], b, k + 1) else []
  }

  predicate NeverShutDown(shutdown: nat -> bool, i: nat, n: nat) {
    forall j: nat :: i <= j < i + n ==> !shutdown(j)
  }

  /** While its reads are in step with the requests, the server sends the responses of
      exactly these requests. */
  lemma {:induction false} ServeIsResponses(svc: Service, s: Stream, ms: seq<MessageFrame>, b: nat -> Behaviour,
                                            shutdown: nat -> bool, i: nat, k: nat)
    requires InSync(svc.codec, s, ms) && NeverShutDown(shutdown, i, |ms| + |s.arrivals| + 1)
    ensures Serve(svc, s, b, shutdown, i, k) == Responses(svc, ms, b, k)
    decreases |ms| + |s.arrivals|
  {
    ReadFrameShrinks(svc.codec, s);
    hide Serve, ReadFrame, Response;
    var (r, s') := ReadFrame(svc.codec, s);
    match r
    case TimedOut =>
      ServeTimeout(svc, s, s', b, shutdown, i, k);
      ServeIsResponses(svc, s', ms, b, shutdown, i + 1, k);
    case Got(m) =>
      ServeRequest(svc, s, m, s', b, shutdown, i, k);
      ServeIsResponses(svc, s', ms[1..], b, shutdown, i + 1, k + 1);
    case Closed =>
      ServeEnd(svc, s, b, shutdown, i, k);
  }

  function RepliesIn(frames: seq<MessageFrame>): seq<MessageFrame> {
    if frames == [] then []
    else (if frames[0].msgType == "step_event" then [] else [frames[0]]) + RepliesIn(frames[1..])
  }

  lemma {:induction false} RepliesConcat(a: seq<MessageFrame>, b: seq<MessageFrame>)
    ensures RepliesIn(a + b) == RepliesIn(a) + RepliesIn(b)
  {
    if a == [] {
      assert a + b == b;
    } else {
      assert (a + b)[1..] == a[1..] + b;
      RepliesConcat(a[1..], b);
    }
  }

  lemma {:induction false} NoReplies(frames: seq<MessageFrame>)
    requires forall f <- frames :: f.msgType == "step_event"
    ensures RepliesIn(frames) == []
  {
    if frames != [] {
      assert frames[0] in frames;
      NoReplies(frames[1..]);
    }
  }

  lemma ReplyOfResponse(svc: Service, m: MessageFrame, b: Behaviour)
    requires Answered(svc, m, b)
    ensures RepliesIn(Response(svc, m, b)) == [Reply(svc, m, b.outcome)]
  {
    var reply := Reply(svc, m, b.outcome);
    ReplyIsNoStep(svc, m, b.outcome);
    NoReplies(StreamedFrames(svc, m, b));
    RepliesConcat(StreamedFrames(svc, m, b), [reply]);
    assert [reply][1..] == [];
  }

  predicate AllAnswered(svc: Service, ms: seq<MessageFrame>, b: nat -> Behaviour, k: nat)
    decreases |ms|
  {
    ms == [] || (Answered(svc, ms[0], b(k)) && AllAnswered(svc, ms[1..], b, k + 1))
  }

  /** One reply for each request, in order. */
  function RepliesTo(svc: Service, ms: seq<MessageFrame>, b: nat -> Behaviour, k: nat): seq<MessageFrame>
    decreases |ms|
  {
    if ms == [] then [] else [Reply(svc, ms[0], b(k).outcome)] + RepliesTo(svc, ms[1..], b, k + 1)
  }

  lemma {:induction false} RepliesToAt(svc: Service, ms: seq<MessageFrame>, b: nat -> Behaviour, k: nat)
    ensures var replies := RepliesTo(svc, ms, b, k);
            && |replies| == |ms|
            && forall j :: 0 <= j < |ms| ==>
                 replies[j] == Reply(svc, ms[j], b(k + j).outcome) && replies[j].requestId == ms[j].requestId
    decreases |ms|
  {
    hide Reply;
    if ms != [] {
      RepliesToAt(svc, ms[1..], b, k + 1);
      forall j | 0 <= j < |ms|
        ensures RepliesTo(svc, ms, b, k)[j] == Reply(svc, ms[j], b(k + j).outcome)
        ensures RepliesTo(svc, ms, b, k)[j].requestId == ms[j].requestId
      {
        ReplyKeepsId(svc, ms[j], b(k + j).outcome);
        if j > 0 {
          assert b(k + 1 + (j - 1)) == b(k + j);
        }
      }
    }
  }

  lemma RepliesFromStart(svc: Service, ms: seq<MessageFrame>, b: nat -> Behaviour)
    ensures var replies := RepliesTo(svc, ms, b, 0);
            && |replies| == |ms|
            && forall j :: 0 <= j < |ms| ==>
                 replies[j] == Reply(svc, ms[j], b(j).outcome) && replies[j].requestId == ms[j].requestId
  {
    RepliesToAt(svc, ms, b, 0);
    hide Reply, RepliesTo;
    var replies := RepliesTo(svc, ms, b, 0);
    forall j | 0 <= j < |ms|
      ensures replies[j] == Reply(svc, ms[j], b(j).outcome) && replies[j].requestId == ms[j].requestId
    {
      assert 0 + j == j;
    }
  }

  lemma ReplyKeepsId(svc: Service, m: MessageFrame, outcome: HandlerOutcome)
    ensures Reply(svc, m, outcome).requestId == m.requestId
  {
  }

  lemma {:induction false} OneReplyEach(svc: Service, ms: seq<MessageFrame>, b: nat -> Behaviour, k: nat)
    requires AllAnswered(svc, ms, b, k)
    ensures RepliesIn(Responses(svc, ms, b, k)) == RepliesTo(svc, ms, b, k)
    decreases |ms|
  {
    hide Response, Reply, Answered;
    if ms != [] {
      OneReplyEach(svc, ms[1..], b, k + 1);
      ReplyOfResponse(svc, ms[0], b(k));
      RepliesConcat(Response(svc, ms[0], b(k)), Responses(svc, ms[1..], b, k + 1));
    }
  }

  /** On one connection whose timeouts fire near frame boundaries, the requests get
      exactly one reply each, in request order and under their own ids, whatever the
      chunks, the handlers and the streamer's schedule. */
  lemma RequestsAreAnsweredInOrder(svc: Service, s: Stream, ms: seq<MessageFrame>, b: nat -> Behaviour,
                                   shutdown: nat -> bool)
    requires Lawful(svc.codec) && AllFit(svc.codec, ms) && Pending(s) == Frames(svc.codec, ms)
    requires CleanTimeouts(svc.codec, ms, |s.buffer|, s.arrivals)
    requires NeverShutDown(shutdown, 0, |ms| + |s.arrivals| + 1)
    requires AllAnswered(svc, ms, b, 0)
    ensures var replies := RepliesIn(Serve(svc, s, b, shutdown, 0, 0));
            && |replies| == |ms|
            && forall j :: 0 <= j < |ms| ==>
                 replies[j] == Reply(svc, ms[j], b(j).outcome) && replies[j].requestId == ms[j].requestId
  {
    hide Serve, Reply, Lawful, CleanTimeouts, RepliesTo, RepliesIn, Responses, InSync, Frames, Pending, AllAnswered,
         NeverShutDown, AllFit;
    RepliesFromStart(svc, ms, b);
    InSyncExactly(svc.codec, s, ms);
    ServeIsResponses(svc, s, ms, b, shutdown, 0, 0);
    OneReplyEach(svc, ms, b, 0);
  }
}
