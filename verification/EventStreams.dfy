/** From the step loop to the streaming client: what `send_stream` yields of a task
    (enclave/agent/controller.py:301-309, enclave/main.py:244-281,
    enclave/vsock/client.py:94-129). */
module EventStreams {
  import opened Framing
  import opened Timeouts
  import opened Exchange
  import opened Client
  import A = AgentLoop
  import E = LoopEvents
  import Q = SharedQueue

  /** Events as the texts that are queued and sent. */
  function Shown(show: A.StepEvent -> string, events: seq<A.StepEvent>): seq<string> {
    seq(|events|, i requires 0 <= i < |events| => show(events[i]))
  }

  function TextsOf(sent: seq<Q.Sent>): seq<string> {
    seq(|sent|, i requires 0 <= i < |sent| => sent[i].event)
  }

  /** The connection of task `t` streams the queue that the task was given, and the task is
      a run of the step loop that has come to its end. */
  ghost predicate Carries(svc: Service, request: MessageFrame, b: Behaviour, t: nat, run: seq<Q.Action>,
                          show: A.StepEvent -> string, trace: seq<A.StepEvent>) {
    && Streams(svc, request)
    && Streamed(svc.codec, request.requestId, b.schedule).emitted == TextsOf(Q.QueueOf(t, run))
    && TextsOf(Q.EmittedBy(t, run)) == Shown(show, trace)
  }

  lemma WrittenIsTrace(svc: Service, request: MessageFrame, b: Behaviour, t: nat, run: seq<Q.Action>,
                       show: A.StepEvent -> string, trace: seq<A.StepEvent>)
    requires Q.Lifetimes(run) && Q.Undisturbed(run)
    requires Carries(svc, request, b, t, run, show, trace)
    ensures var s := Streamed(svc.codec, request.requestId, b.schedule);
            var k := |s.written|;
            && k <= |trace|
            && StreamedFrames(svc, request, b) == StepFrames(request.requestId, Shown(show, trace[..k]))
            && (s.alive && s.queue == [] ==> k == |trace|)
  {
    Q.QueuesAreOwnExactly(run);
    WrittenIsPrefix(svc.codec, request.requestId, b.schedule);
    hide Streamed, Q.QueueOf, Q.EmittedBy, Q.Undisturbed, Q.Lifetimes, Fits;
    var s := Streamed(svc.codec, request.requestId, b.schedule);
    assert s.written == s.emitted[..|s.written|] == Shown(show, trace[..|s.written|]);
  }

  /** End to end: if no task starts between another one's start and last event, then
      `send_stream` yields a prefix of the task's trace, in order and whole, and then the
      reply; the trace is one that the grammar accepts; and all of it is yielded if the
      streamer had emptied the queue before it was cancelled. */
  lemma StreamYieldsTrace(svc: Service, request: MessageFrame, b: nat -> Behaviour, shutdown: nat -> bool,
                          up: Stream, down: Stream, t: nat, run: seq<Q.Action>, show: A.StepEvent -> string,
                          w: A.World, cfg: A.Config, start: A.Run)
    requires Lawful(svc.codec) && Fits(svc.codec, request) && Answered(svc, request, b(0))
    requires Pending(up) == Frame(svc.codec, request)
    requires CleanTimeouts(svc.codec, [request], |up.buffer|, up.arrivals)
    requires NeverShutDown(shutdown, 0, |up.arrivals| + 2)
    requires NoTimeouts(down.arrivals)
    requires Pending(down) == Frames(svc.codec, Serve(svc, up, b, shutdown, 0, 0))
    requires Q.Lifetimes(run) && Q.Undisturbed(run) && start.events == []
    requires Carries(svc, request, b(0), t, run, show, A.Execute(w, cfg, start).run.events)
    ensures var trace := A.Execute(w, cfg, start).run.events;
            var s := Streamed(svc.codec, request.requestId, b(0).schedule);
            var frames := StreamReplies(svc.codec, down).0;
            var k := |frames| - 1;
            && E.PhaseAfter(trace) == E.Done
            && 0 <= k <= |trace|
            && frames == StepFrames(request.requestId, Shown(show, trace[..k])) + [Reply(svc, request, b(0).outcome)]
            && (s.alive && s.queue == [] ==> k == |trace|)
  {
    var trace := A.Execute(w, cfg, start).run.events;
    E.EventsFollowGrammar(w, cfg, start);
    WrittenIsTrace(svc, request, b(0), t, run, show, trace);
    SendReturnsOwnReply(svc, request, b, shutdown, up, down);
    hide Serve, Frames, Streamed, Carries, StreamReplies, Reply, Q.Undisturbed, Q.Lifetimes, A.Execute, E.PhaseAfter;
  }

  /** The frames of a task's events, spelled out. */
  predicate Delivers(frames: seq<MessageFrame>, requestId: string, show: A.StepEvent -> string, trace: seq<A.StepEvent>) {
    && |frames| == |trace|
    && forall i :: 0 <= i < |trace| ==> frames[i] == MessageFrame("step_event", show(trace[i]), requestId)
  }

  /** When the events fit their frames and the streamer gets to run once more for each event
      still waiting before it is cancelled, the client is given the whole trace, event by
      event, and then the reply. */
  lemma StreamYieldsWholeTrace(svc: Service, request: MessageFrame, b: nat -> Behaviour, shutdown: nat -> bool,
                               up: Stream, down: Stream, t: nat, run: seq<Q.Action>, show: A.StepEvent -> string,
                               w: A.World, cfg: A.Config, start: A.Run, schedule: seq<Action>, n: nat)
    requires Lawful(svc.codec) && Fits(svc.codec, request) && Answered(svc, request, b(0))
    requires Pending(up) == Frame(svc.codec, request)
    requires CleanTimeouts(svc.codec, [request], |up.buffer|, up.arrivals)
    requires NeverShutDown(shutdown, 0, |up.arrivals| + 2)
    requires NoTimeouts(down.arrivals)
    requires Pending(down) == Frames(svc.codec, Serve(svc, up, b, shutdown, 0, 0))
    requires Q.Lifetimes(run) && Q.Undisturbed(run) && start.events == []
    requires Carries(svc, request, b(0), t, run, show, A.Execute(w, cfg, start).run.events)
    requires b(0).schedule == schedule + Runs(n) && n >= |Streamed(svc.codec, request.requestId, schedule).queue|
    requires AllEventsFit(svc.codec, request.requestId, Emissions(schedule))
    ensures var trace := A.Execute(w, cfg, start).run.events;
            var frames := StreamReplies(svc.codec, down).0;
            && |frames| == |trace| + 1
            && Delivers(frames[..|trace|], request.requestId, show, trace)
            && frames[|trace|] == Reply(svc, request, b(0).outcome)
  {
    StreamYieldsTrace(svc, request, b, shutdown, up, down, t, run, show, w, cfg, start);
    StreamerCatchesUp(svc.codec, request.requestId, schedule, n);
    hide Serve, Frames, Streamed, Carries, StreamReplies, Reply, Q.Undisturbed, Q.Lifetimes, A.Execute,
         Lawful, Fits, Answered, CleanTimeouts, NeverShutDown, NoTimeouts, Pending, AllEventsFit, Emissions, Runs;
    var trace := A.Execute(w, cfg, start).run.events;
    assert trace[..|trace|] == trace;
  }
}
