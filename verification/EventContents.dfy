/** What the events of a run tell: the chunks that were streamed, the tools that were called
    and how they fared (enclave/agent/controller.py:475-512, 576-638). */
module EventContents {
  import opened Models
  import opened Text
  import opened AgentLoop
  import opened LoopAccounts
  import opened LoopEvents
  import opened Pairing

  // ---- Chunks and calls, step by step ----

  predicate IsHeard(e: StepEvent, n: int) {
    e.stepNumber == n && (e.body.Delta? || e.body.ToolCalled?)
  }

  /** The chunks and calls that a reader of the stream finds under step `n`. */
  function Heard(events: seq<StepEvent>, n: int): seq<EventBody> {
    if events == [] then []
    else
      var e := events[|events| - 1];
      Heard(events[..|events| - 1], n) + if IsHeard(e, n) then [e.body] else []
  }

  lemma {:induction false} HeardConcat(a: seq<StepEvent>, b: seq<StepEvent>, n: int)
    ensures Heard(a + b, n) == Heard(a, n) + Heard(b, n)
  {
    if b == [] {
      assert a + b == a;
    } else {
      assert (a + b)[..|a + b| - 1] == a + b[..|b| - 1];
      HeardConcat(a, b[..|b| - 1], n);
    }
  }

  lemma {:induction false} NothingHeard(events: seq<StepEvent>, n: int)
    requires forall i :: 0 <= i < |events| ==> !IsHeard(events[i], n)
    ensures Heard(events, n) == []
  {
    if events != [] {
      NothingHeard(events[..|events| - 1], n);
    }
  }

  lemma {:induction false} AllHeard(events: seq<StepEvent>, n: int)
    requires forall i :: 0 <= i < |events| ==> IsHeard(events[i], n)
    ensures |Heard(events, n)| == |events| && forall i :: 0 <= i < |events| ==> Heard(events, n)[i] == events[i].body
  {
    if events != [] {
      AllHeard(events[..|events| - 1], n);
    }
  }

  function Deltas(chunks: seq<Chunk>): seq<EventBody> {
    seq(|chunks|, i requires 0 <= i < |chunks| => Delta(chunks[i]))
  }

  function Names(uses: seq<ToolUse>): seq<EventBody> {
    seq(|uses|, i requires 0 <= i < |uses| => ToolCalled(uses[i].name))
  }

  function UsesOf(c: LlmCall): seq<ToolUse> {
    if c.outcome.Replied? then ToolUses(c.outcome.response.content) else []
  }

  /** What is heard of a call of the provider: its chunks, each once and in order, and then
      the names of the tools asked for, in order. */
  predicate HeardFully(heard: seq<EventBody>, c: LlmCall) {
    heard == Deltas(c.outcome.chunks) + Names(UsesOf(c))
  }

  /** Or of the first few of them. */
  ghost predicate HeardAs(heard: seq<EventBody>, c: LlmCall) {
    exists k: nat :: heard == Deltas(c.outcome.chunks) + Names(Take(UsesOf(c), k))
  }

  /** Step `i + 1` made call `i`; all calls but the last were heard fully. */
  ghost predicate AllHeardFully(events: seq<StepEvent>, calls: seq<LlmCall>) {
    forall i :: 0 <= i < |calls| ==> HeardFully(Heard(events, i + 1), calls[i])
  }

  ghost predicate NothingFrom(events: seq<StepEvent>, n: int) {
    forall m :: n <= m ==> Heard(events, m) == []
  }

  lemma HeardChunks(n: nat, chunks: seq<Chunk>, m: int)
    ensures Heard(ChunkEvents(n, chunks), m) == if m == n then Deltas(chunks) else []
  {
    if m == n {
      AllHeard(ChunkEvents(n, chunks), n);
    } else {
      NothingHeard(ChunkEvents(n, chunks), m);
    }
  }

  lemma HeardCalls(n: nat, uses: seq<ToolUse>, m: int)
    ensures Heard(CallEvents(n, uses), m) == if m == n then Names(uses) else []
  {
    if m == n {
      AllHeard(CallEvents(n, uses), n);
    } else {
      NothingHeard(CallEvents(n, uses), m);
    }
  }

  /** Events that tell neither chunks nor calls are not heard. */
  lemma QuietTail(events: seq<StepEvent>, more: seq<StepEvent>, n: int)
    requires forall i :: 0 <= i < |more| ==> !more[i].body.Delta? && !more[i].body.ToolCalled?
    ensures Heard(events + more, n) == Heard(events, n)
  {
    HeardConcat(events, more, n);
    NothingHeard(more, n);
  }

  lemma HeardOfGuard(kind: LoopKind, r: Run, n: nat, m: int)
    ensures Heard(Guarded(kind, r, n).events, m) == Heard(r.events, m)
  {
    EventsOfGuard(kind, r, n);
    hide Guarded, Heard;
    QuietTail(r.events, [StepEvent(n, Checkpoint)], m);
  }

  lemma HeardOfAsking(r: Run, n: nat, outcome: LlmOutcome, m: int)
    ensures Heard(Asked(r, n, outcome).events, m)
            == Heard(r.events, m) + if m == n then Deltas(outcome.chunks) else []
  {
    hide Heard, Deltas, ChunkEvents;
    QuietTail(r.events, [StepEvent(n, Thinking)], m);
    HeardConcat(r.events + [StepEvent(n, Thinking)], ChunkEvents(n, outcome.chunks), m);
    HeardChunks(n, outcome.chunks, m);
  }

  /** The calls that a reply announces: all, unless announcing raises. */
  function AnnouncedUses(round: RoundOutcome, uses: seq<ToolUse>): seq<ToolUse> {
    if round.AnnounceRaised? then Take(uses, round.announced) else uses
  }

  lemma HeardOfReply(w: World, kind: LoopKind, r: Run, n: nat, resp: LLMResponse, m: int)
    ensures var p := AfterReply(w, kind, r, n, resp);
            Heard((if p.Running? then p.run else p.outcome.run).events, m)
            == Heard(r.events, m) + if m == n then Names(AnnouncedUses(w.tools(n), ToolUses(resp.content))) else []
  {
    hide Heard, ToolUses, Names, CallEvents;
    var uses := ToolUses(resp.content);
    if uses == [] {
      QuietTail(r.events, [StepEvent(n, Complete(ResponseText(resp)))], m);
      NoNames(AnnouncedUses(w.tools(n), uses));
    } else {
      var announced := AnnouncedUses(w.tools(n), uses);
      HeardConcat(r.events, CallEvents(n, announced), m);
      HeardCalls(n, announced, m);
      if w.tools(n).Gathered? {
        HeardOfReport(kind, Issued(r, n, resp), n, resp, w.tools(n).output, m);
      }
    }
  }

  lemma NoNames(uses: seq<ToolUse>)
    requires uses == []
    ensures Names(uses) == []
  {
  }

  lemma HeardOfReport(kind: LoopKind, r: Run, n: nat, resp: LLMResponse, output: nat -> ToolOutput, m: int)
    ensures Heard(Reported(kind, r, n, resp, output).events, m) == Heard(r.events, m)
  {
    hide Heard, ToolUses;
    var uses := ToolUses(resp.content);
    var count := Reported(kind, r, n, resp, output).toolCallCount;
    var results, tail := ResultEvents(n, uses, output), CheckpointEvents(kind, n, count);
    QuietTail(r.events, results + tail, m);
    assert r.events + (results + tail) == Reported(kind, r, n, resp, output).events;
  }

  /** At the head of step `n`. */
  ghost predicate ToldBefore(r: Run, n: nat) {
    n >= 1 && |r.calls| == n - 1 && AllHeardFully(r.events, r.calls) && NothingFrom(r.events, n)
  }

  /** After the last step: the last call may not be told fully. */
  ghost predicate ToldAtEnd(o: Outcome) {
    forall i: nat :: i < |o.run.calls| ==> ToldCall(o, i)
  }

  ghost predicate ToldCall(o: Outcome, i: nat)
    requires i < |o.run.calls|
  {
    && HeardAs(Heard(o.run.events, i + 1), o.run.calls[i])
    && (i < |o.run.calls| - 1 || !InRound(o.ending) ==> HeardFully(Heard(o.run.events, i + 1), o.run.calls[i]))
  }

  /** One step's part of the stream. */
  lemma HeardOfStep(w: World, cfg: Config, r: Run, n: nat, m: int)
    requires SumCost(r.steps) < cfg.maxCost
    ensures var p := Step(w, cfg, r, n);
            Heard((if p.Running? then p.run else p.outcome.run).events, m)
            == Heard(r.events, m) + if m == n then ToldNow(w, n) else []
  {
    HeardOfGuard(cfg.kind, r, n, m);
    hide Guarded, AfterReply, Heard, ToolUses, SumCost, Asked, Deltas, Names, AnnouncedUses;
    var guarded := Guarded(cfg.kind, r, n);
    HeardOfAsking(guarded, n, w.llm(n), m);
    if w.llm(n).Replied? {
      HeardOfReply(w, cfg.kind, Asked(guarded, n, w.llm(n)), n, w.llm(n).response, m);
    }
  }

  /** What step `n` tells. */
  function ToldNow(w: World, n: nat): seq<EventBody> {
    Deltas(w.llm(n).chunks)
    + if w.llm(n).Replied? then Names(AnnouncedUses(w.tools(n), ToolUses(w.llm(n).response.content))) else []
  }

  /** The call that step `n` made. */
  lemma CallOfStep(w: World, cfg: Config, r: Run, n: nat)
    requires SumCost(r.steps) < cfg.maxCost
    ensures var p := Step(w, cfg, r, n);
            var calls := (if p.Running? then p.run else p.outcome.run).calls;
            && |calls| == |r.calls| + 1 && calls[..|r.calls|] == r.calls && calls[|r.calls|].outcome == w.llm(n)
            && HeardAs(ToldNow(w, n), calls[|r.calls|])
            && (p.Running? || !InRound(p.outcome.ending) ==> HeardFully(ToldNow(w, n), calls[|r.calls|]))
  {
    GuardKeepsAccounts(cfg.kind, r, n);
    hide Guarded, AfterReply, SumCost;
    var asked := Asked(Guarded(cfg.kind, r, n), n, w.llm(n));
    if w.llm(n).Replied? {
      ReplyKeepsCalls(w, cfg.kind, asked, n, w.llm(n).response);
      EndingOfReply(w, cfg.kind, asked, n, w.llm(n).response);
    }
    hide Asked, ToolUses;
    ToldOfCall(w, n, asked.calls[|r.calls|]);
  }

  lemma ToldOfCall(w: World, n: nat, c: LlmCall)
    requires c.outcome == w.llm(n)
    ensures HeardAs(ToldNow(w, n), c)
    ensures (c.outcome.Replied? && w.tools(n).AnnounceRaised? && ToolUses(c.outcome.response.content) != [])
            || HeardFully(ToldNow(w, n), c)
  {
    hide ToolUses, Deltas;
    var uses := UsesOf(c);
    if uses == [] {
      NoNames(uses);
      NoNames(AnnouncedUses(w.tools(n), uses));
      NoNames(Take(uses, 0));
    }
    hide Names;
    var k := if w.tools(n).AnnounceRaised? then w.tools(n).announced else |uses|;
    assert ToldNow(w, n) == Deltas(c.outcome.chunks) + Names(Take(uses, k));
  }

  lemma EndingOfReply(w: World, kind: LoopKind, r: Run, n: nat, resp: LLMResponse)
    ensures var p := AfterReply(w, kind, r, n, resp);
            && (w.tools(n).AnnounceRaised? && ToolUses(resp.content) != [] ==> p.Stopped? && InRound(p.outcome.ending))
  {
    hide ToolUses;
  }

  lemma StepTells(w: World, cfg: Config, r: Run, n: nat)
    requires ToldBefore(r, n)
    ensures match Step(w, cfg, r, n)
            case Running(next) => ToldBefore(next, n + 1)
            case Stopped(o) => ToldAtEnd(o)
  {
    if SumCost(r.steps) >= cfg.maxCost {
      CostGuardTells(r, n);
    } else {
      var p := Step(w, cfg, r, n);
      var next := if p.Running? then p.run else p.outcome.run;
      CallOfStep(w, cfg, r, n);
      forall m: int | m >= 1 ensures Heard(next.events, m) == Heard(r.events, m) + if m == n then ToldNow(w, n) else [] {
        HeardOfStep(w, cfg, r, n, m);
      }
      hide AgentLoop.Step, Heard, HeardAs, HeardFully, SumCost, AllHeardFully, NothingFrom, ToldNow;
      NothingSoFar(r, n);
      assert Heard(next.events, n) == [] + ToldNow(w, n) == ToldNow(w, n);
      forall m: int | m >= 1 && m != n ensures Heard(next.events, m) == Heard(r.events, m) {
        assert Heard(r.events, m) + [] == Heard(r.events, m);
      }
      StepTold(r, n, next);
      if p.Stopped? {
        StepToldAtEnd(p.outcome, n);
      }
    }
  }

  lemma NothingSoFar(r: Run, n: nat)
    requires ToldBefore(r, n)
    ensures Heard(r.events, n) == [] && n >= 1 && |r.calls| == n - 1
  {
  }

  lemma StepToldAtEnd(o: Outcome, n: nat)
    requires n >= 1 && |o.run.calls| == n
    requires forall i: nat :: i < n - 1 ==> HeardFully(Heard(o.run.events, i + 1), o.run.calls[i])
    requires HeardAs(Heard(o.run.events, n), o.run.calls[n - 1])
    requires !InRound(o.ending) ==> HeardFully(Heard(o.run.events, n), o.run.calls[n - 1])
    ensures ToldAtEnd(o)
  {
    forall i: nat | i < n ensures ToldCall(o, i) {
      if i < n - 1 {
        FullyIsAs(Heard(o.run.events, i + 1), o.run.calls[i]);
      }
    }
  }

  lemma FullyIsAs(heard: seq<EventBody>, c: LlmCall)
    requires HeardFully(heard, c)
    ensures HeardAs(heard, c)
  {
    hide Deltas, Names, UsesOf;
    var k := |UsesOf(c)|;
    assert heard == Deltas(c.outcome.chunks) + Names(Take(UsesOf(c), k));
  }

  lemma StepTold(r: Run, n: nat, next: Run)
    requires ToldBefore(r, n) && |next.calls| == n && next.calls[..n - 1] == r.calls
    requires forall m :: m >= 1 && m != n ==> Heard(next.events, m) == Heard(r.events, m)
    ensures HeardFully(Heard(next.events, n), next.calls[n - 1]) ==> ToldBefore(next, n + 1)
    ensures forall i: nat :: i < n - 1 ==> HeardFully(Heard(next.events, i + 1), next.calls[i])
  {
    hide Heard, HeardAs, HeardFully;
    forall i: nat | i < n - 1 ensures HeardFully(Heard(next.events, i + 1), next.calls[i]) {
      assert next.calls[i] == r.calls[i];
      assert HeardFully(Heard(r.events, i + 1), r.calls[i]);
    }
  }

  lemma CostGuardTells(r: Run, n: nat)
    requires ToldBefore(r, n)
    ensures ToldAtEnd(Outcome(Emit(r, n, Error(CostExceeded)), CostExceeded))
  {
    LastErrorTells(Outcome(r, CostExceeded), StepEvent(n, Error(CostExceeded)));
  }

  /** An error event at the end changes nothing. */
  lemma LastErrorTells(o: Outcome, e: StepEvent)
    requires ToldAtEnd(o) || AllHeardFully(o.run.events, o.run.calls)
    requires e.body.Error?
    ensures ToldAtEnd(o.(run := o.run.(events := o.run.events + [e])))
  {
    hide Heard, HeardAs, HeardFully;
    var after := o.(run := o.run.(events := o.run.events + [e]));
    forall i: nat | i < |o.run.calls| ensures ToldCall(after, i) {
      QuietTail(o.run.events, [e], i + 1);
      if ToldAtEnd(o) {
        assert ToldCall(o, i);
      } else {
        FullyIsAs(Heard(o.run.events, i + 1), o.run.calls[i]);
      }
    }
  }

  lemma {:induction false} LoopTells(w: World, cfg: Config, r: Run, n: nat)
    requires ToldBefore(r, n)
    ensures ToldAtEnd(Loop(w, cfg, r, n))
    decreases cfg.maxSteps - n
  {
    if n > cfg.maxSteps {
      LastErrorTells(Outcome(r, StepsExceeded), StepEvent(cfg.maxSteps, Error(StepsExceeded)));
    } else {
      StepTells(w, cfg, r, n);
      hide AgentLoop.Step, ToldBefore, ToldAtEnd;
      match Step(w, cfg, r, n)
      case Running(next) =>
        LoopTells(w, cfg, next, n + 1);
        assert Loop(w, cfg, r, n) == Loop(w, cfg, next, n + 1);
      case Stopped(o) =>
        assert Loop(w, cfg, r, n) == o;
    }
  }

  /** In every run, the stream tells under the number of each step the chunks of its call of
      the provider, each once and in order, and then the tools that the reply asks for, by
      name and in order: all of them, unless the run was cut off while they were announced
      or ran. */
  lemma EventsTellCalls(w: World, cfg: Config, start: Run)
    requires Fresh(start)
    ensures ToldAtEnd(Execute(w, cfg, start))
  {
    assert AllHeardFully(start.events, start.calls) && NothingFrom(start.events, 1);
    hide AgentLoop.Loop, ToldAtEnd, Heard;
    if Starts(w, cfg) {
      LoopTells(w, cfg, start, 1);
    } else {
      NothingToTell(Waited(w, cfg, start));
    }
    var o := Waited(w, cfg, start);
    if CutOff(o.ending) {
      var k := if cfg.kind.TurnLoop? then |o.run.steps| + 1 else |o.run.steps|;
      LastErrorTells(o, StepEvent(k, Error(o.ending)));
    }
  }

  lemma NothingToTell(o: Outcome)
    requires o.run.calls == []
    ensures ToldAtEnd(o)
  {
  }

  // ---- How the tools fared ----

  datatype Fared = Fared(tool: string, success: bool)

  /** What the stream says of the tools that returned. */
  function FaredIn(events: seq<StepEvent>): seq<Fared> {
    if events == [] then []
    else
      var e := events[|events| - 1];
      FaredIn(events[..|events| - 1]) + if e.body.ToolReturned? then [Fared(e.body.tool, e.body.success)] else []
  }

  /** What the recorded steps say. */
  function FaredOf(steps: seq<StepResult>): seq<Fared> {
    if steps == [] then []
    else
      var s := steps[|steps| - 1];
      FaredOf(steps[..|steps| - 1])
      + if s.toolName.Some? && s.output.Some? then [Fared(s.toolName.value, s.output.value.success)] else []
  }

  lemma {:induction false} FaredQuiet(events: seq<StepEvent>, more: seq<StepEvent>)
    requires forall i :: 0 <= i < |more| ==> !more[i].body.ToolReturned?
    ensures FaredIn(events + more) == FaredIn(events)
  {
    if more == [] {
      assert events + more == events;
    } else {
      var front := more[..|more| - 1];
      FaredQuiet(events, front);
      assert (events + more)[..|events + more| - 1] == events + front;
    }
  }

  lemma {:induction false} FaredInRound(events: seq<StepEvent>, steps: seq<StepResult>, n: nat, resp: LLMResponse,
                                        uses: seq<ToolUse>, output: nat -> ToolOutput, k: nat)
    requires k <= |uses| && FaredIn(events) == FaredOf(steps)
    ensures FaredIn(events + ResultEvents(n, uses, output)[..k]) == FaredOf(steps + RoundSteps(n, resp, uses, output)[..k])
  {
    hide FaredIn, FaredOf, ResponseText;
    var results, records := ResultEvents(n, uses, output), RoundSteps(n, resp, uses, output);
    if k == 0 {
      assert events + results[..0] == events && steps + records[..0] == steps;
    } else {
      FaredInRound(events, steps, n, resp, uses, output, k - 1);
      assert records[k - 1] == RoundStep(n, resp, uses[k - 1], output(k - 1), k - 1);
      assert results[k - 1] == StepEvent(n, ToolReturned(uses[k - 1].name, output(k - 1).success));
      OneMoreFared(events + results[..k - 1], results[k - 1], steps + records[..k - 1], records[k - 1]);
      hide RoundSteps, ResultEvents, RoundStep;
      OneMoreItem(events, results, k - 1);
      OneMoreItem(steps, records, k - 1);
    }
  }

  lemma OneMoreItem<T>(front: seq<T>, all: seq<T>, i: nat)
    requires i < |all|
    ensures front + all[..i + 1] == front + all[..i] + [all[i]]
  {
  }

  lemma OneMoreFared(events: seq<StepEvent>, e: StepEvent, steps: seq<StepResult>, s: StepResult)
    requires FaredIn(events) == FaredOf(steps)
    requires e.body.ToolReturned? && s.toolName == Some(e.body.tool)
    requires s.output.Some? && s.output.value.success == e.body.success
    ensures FaredIn(events + [e]) == FaredOf(steps + [s])
  {
    assert (events + [e])[..|events|] == events;
    assert (steps + [s])[..|steps|] == steps;
  }

  predicate Agree(r: Run) {
    FaredIn(r.events) == FaredOf(r.steps)
  }

  lemma ReportAgrees(kind: LoopKind, r: Run, n: nat, resp: LLMResponse, output: nat -> ToolOutput)
    requires Agree(r)
    ensures Agree(Reported(kind, r, n, resp, output))
  {
    hide FaredIn, FaredOf, ToolUses, ResponseText;
    var uses := ToolUses(resp.content);
    var results, records := ResultEvents(n, uses, output), RoundSteps(n, resp, uses, output);
    FaredInRound(r.events, r.steps, n, resp, uses, output, |uses|);
    assert results[..|uses|] == results && records[..|uses|] == records;
    var tail := CheckpointEvents(kind, n, Reported(kind, r, n, resp, output).toolCallCount);
    FaredQuiet(r.events + results, tail);
    assert r.events + results + tail == r.events + (results + tail);
  }

  lemma ReplyAgrees(w: World, kind: LoopKind, r: Run, n: nat, resp: LLMResponse)
    requires Agree(r)
    ensures var p := AfterReply(w, kind, r, n, resp); Agree(if p.Running? then p.run else p.outcome.run)
  {
    hide FaredIn, ToolUses, ResponseText;
    var uses := ToolUses(resp.content);
    if uses == [] {
      var step := StepResult(n, None, "{}", None, ResponseText(resp), resp.inputTokens, resp.outputTokens);
      assert (r.steps + [step])[..|r.steps|] == r.steps;
      FaredQuiet(r.events, [StepEvent(n, Complete(ResponseText(resp)))]);
    } else {
      FaredQuiet(r.events, CallEvents(n, uses));
      match w.tools(n)
      case AnnounceRaised(k, _) => FaredQuiet(r.events, CallEvents(n, Take(uses, k)));
      case Gathered(output) => ReportAgrees(kind, Issued(r, n, resp), n, resp, output);
      case _ =>
    }
  }

  lemma AskingAgrees(kind: LoopKind, r: Run, n: nat, outcome: LlmOutcome)
    requires Agree(r)
    ensures Agree(Asked(Guarded(kind, r, n), n, outcome))
  {
    var guarded := Guarded(kind, r, n);
    EventsOfGuard(kind, r, n);
    GuardKeepsAccounts(kind, r, n);
    hide Guarded, FaredIn, FaredOf;
    FaredQuiet(r.events, [StepEvent(n, Checkpoint)]);
    var more := [StepEvent(n, Thinking)] + ChunkEvents(n, outcome.chunks);
    FaredQuiet(guarded.events, more);
    assert guarded.events + more == Asked(guarded, n, outcome).events;
  }

  lemma {:induction false} LoopAgrees(w: World, cfg: Config, r: Run, n: nat)
    requires Agree(r)
    ensures Agree(Loop(w, cfg, r, n).run)
    decreases cfg.maxSteps - n
  {
    hide FaredIn, FaredOf;
    if n > cfg.maxSteps {
      FaredQuiet(r.events, [StepEvent(cfg.maxSteps, Error(StepsExceeded))]);
    } else {
      StepAgrees(w, cfg, r, n);
      hide AgentLoop.Step, Agree;
      var p := Step(w, cfg, r, n);
      if p.Running? {
        LoopAgrees(w, cfg, p.run, n + 1);
      }
    }
  }

  lemma StepAgrees(w: World, cfg: Config, r: Run, n: nat)
    requires Agree(r)
    ensures var p := Step(w, cfg, r, n); Agree(if p.Running? then p.run else p.outcome.run)
  {
    hide FaredIn, FaredOf, AfterReply, Guarded, Asked, SumCost;
    FaredQuiet(r.events, [StepEvent(n, Error(CostExceeded))]);
    if SumCost(r.steps) < cfg.maxCost {
      AskingAgrees(cfg.kind, r, n, w.llm(n));
      if w.llm(n).Replied? {
        ReplyAgrees(w, cfg.kind, Asked(Guarded(cfg.kind, r, n), n, w.llm(n)), n, w.llm(n).response);
      }
    }
  }

  /** In every run, the stream tells of the tools that returned what the recorded steps say:
      the same tools in the same order, each with its success. */
  lemma EventsTellSteps(w: World, cfg: Config, start: Run)
    requires Fresh(start)
    ensures var run := Execute(w, cfg, start).run; FaredIn(run.events) == FaredOf(run.steps)
  {
    assert Agree(start);
    hide AgentLoop.Loop, FaredIn, FaredOf;
    var o := Waited(w, cfg, start);
    assert Agree(o.run) by {
      if Starts(w, cfg) {
        LoopAgrees(w, cfg, start, 1);
      }
    }
    hide AgentLoop.Waited;
    var k := if cfg.kind.TurnLoop? then |o.run.steps| + 1 else |o.run.steps|;
    FaredQuiet(o.run.events, [StepEvent(k, Error(o.ending))]);
  }
}
