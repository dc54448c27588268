/** The grammar of the event stream. An automaton, written without reference to the
    loop, accepts the traces that a reader of the stream may rely on; every run of
    the loop is shown to produce one of them. */
module LoopEvents {
  import opened Models
  import opened AgentLoop
  import opened Text

  datatype Phase =
    | Idle(rounds: nat)                             // between two rounds
    | Asking(step: nat)                             // the model is called and streams chunks
    | Issuing(step: nat, tools: seq<string>)        // these tool calls are announced
    | Returning(step: nat, left: seq<string>)       // results of these tools are still to come
    | Done
    | Bad

  function Returned(step: nat, left: seq<string>): Phase {
    if left == [] then Idle(step) else Returning(step, left)
  }

  /** Which event may follow. Steps are numbered 1, 2, ...; checkpoints occur between
      rounds, after round `n` or before round `n + 1`; a run is cut off by an exception or
      the timeout before it begins, while the model is called, while calls are announced
      or while tools run, never between two results. */
  function Next(p: Phase, e: StepEvent): Phase {
    match p
    case Idle(n) => NextIdle(n, e)
    case Asking(n) => NextAsking(n, e)
    case Issuing(n, tools) => NextIssuing(n, tools, e)
    case Returning(n, left) => NextReturn(n, left, e)
    case Done => Bad
    case Bad => Bad
  }

  function NextIdle(n: nat, e: StepEvent): Phase {
    match e.body
    case Thinking => if e.stepNumber == n + 1 then Asking(n + 1) else Bad
    case Checkpoint => if e.stepNumber == n || e.stepNumber == n + 1 then Idle(n) else Bad
    case Error(ending) => if EndsIdle(n, ending, e.stepNumber) then Done else Bad
    case _ => Bad
  }

  /** A guard ends the run, the step guard under the number of the last round, which is no
      positive one if there was none; or the run was cut off before it began. */
  predicate EndsIdle(n: nat, ending: Ending, stepNumber: int) {
    || (ending == StepsExceeded && if n == 0 then stepNumber <= 0 else stepNumber == n)
    || (ending == CostExceeded && stepNumber == n + 1)
    || (CutOff(ending) && !InRound(ending) && n == 0)
  }

  function NextAsking(n: nat, e: StepEvent): Phase {
    match e.body
    case Delta(_) => if e.stepNumber == n then Asking(n) else Bad
    case ToolCalled(tool) => if e.stepNumber == n then Issuing(n, [tool]) else Bad
    case Complete(_) => if e.stepNumber == n then Done else Bad
    case Error(ending) => if CutOff(ending) && (InRound(ending) ==> ending.Failed?) then Done else Bad
    case _ => Bad
  }

  function NextIssuing(n: nat, tools: seq<string>, e: StepEvent): Phase {
    match e.body
    case ToolCalled(tool) => if e.stepNumber == n then Issuing(n, tools + [tool]) else Bad
    case Error(ending) => if InRound(ending) then Done else Bad
    case _ => NextReturn(n, tools, e)
  }

  function NextReturn(n: nat, left: seq<string>, e: StepEvent): Phase {
    if e.body.ToolReturned? && e.stepNumber == n && left != [] && left[0] == e.body.tool
    then Returned(n, left[1..]) else Bad
  }

  predicate CutOff(ending: Ending) {
    ending.Failed? || ending.TimedOut?
  }

  function PhaseAfter(events: seq<StepEvent>): Phase {
    if events == [] then Idle(0)
    else Next(PhaseAfter(events[..|events| - 1]), events[|events| - 1])
  }

  function ToolNames(uses: seq<ToolUse>): seq<string> {
    seq(|uses|, i requires 0 <= i < |uses| => uses[i].name)
  }

  predicate Terminal(e: StepEvent) {
    e.body.Complete? || e.body.Error?
  }

  lemma PhaseOfAppend(events: seq<StepEvent>, e: StepEvent)
    ensures PhaseAfter(events + [e]) == Next(PhaseAfter(events), e)
  {
    assert (events + [e])[..|events|] == events;
  }

  lemma {:induction false} PhaseOfChunks(events: seq<StepEvent>, n: nat, chunks: seq<Chunk>)
    requires PhaseAfter(events) == Asking(n)
    ensures PhaseAfter(events + ChunkEvents(n, chunks)) == Asking(n)
  {
    if chunks == [] {
      assert events + ChunkEvents(n, chunks) == events;
    } else {
      var front, last := chunks[..|chunks| - 1], chunks[|chunks| - 1];
      PhaseOfChunks(events, n, front);
      PhaseOfAppend(events + ChunkEvents(n, front), StepEvent(n, Delta(last)));
      assert events + ChunkEvents(n, chunks) == events + ChunkEvents(n, front) + [StepEvent(n, Delta(last))];
    }
  }

  lemma {:induction false} PhaseOfCalls(events: seq<StepEvent>, n: nat, uses: seq<ToolUse>)
    requires PhaseAfter(events) == Asking(n)
    ensures PhaseAfter(events + CallEvents(n, uses))
            == if uses == [] then Asking(n) else Issuing(n, ToolNames(uses))
  {
    if uses == [] {
      assert events + CallEvents(n, uses) == events;
    } else {
      var front, last := uses[..|uses| - 1], uses[|uses| - 1];
      PhaseOfCalls(events, n, front);
      PhaseOfAppend(events + CallEvents(n, front), StepEvent(n, ToolCalled(last.name)));
      assert events + CallEvents(n, uses) == events + CallEvents(n, front) + [StepEvent(n, ToolCalled(last.name))];
      assert ToolNames(uses) == ToolNames(front) + [last.name];
    }
  }

  /** After the first `k` results of a round. */
  lemma {:induction false} PhaseOfResults(events: seq<StepEvent>, n: nat, uses: seq<ToolUse>, output: nat -> ToolOutput, k: nat)
    requires 1 <= k <= |uses| && PhaseAfter(events) == Issuing(n, ToolNames(uses))
    ensures PhaseAfter(events + ResultEvents(n, uses, output)[..k]) == Returned(n, ToolNames(uses)[k..])
  {
    hide PhaseAfter;
    var results, names := ResultEvents(n, uses, output), ToolNames(uses);
    assert names[k - 1..][1..] == names[k..];
    if k == 1 {
      PhaseOfAppend(events, results[0]);
      assert events + results[..1] == events + [results[0]];
    } else {
      PhaseOfResults(events, n, uses, output, k - 1);
      PhaseOfAppend(events + results[..k - 1], results[k - 1]);
      assert events + results[..k] == events + results[..k - 1] + [results[k - 1]];
    }
  }

  lemma EventsOfGuard(kind: LoopKind, r: Run, n: nat)
    ensures var events := Guarded(kind, r, n).events;
            events == r.events || events == r.events + [StepEvent(n, Checkpoint)]
  {
    hide Compaction.Compacted, Compaction.HistoryTokens;
  }

  lemma PhaseOfGuard(kind: LoopKind, r: Run, n: nat)
    requires n >= 1 && PhaseAfter(r.events) == Idle(n - 1)
    ensures PhaseAfter(Guarded(kind, r, n).events) == Idle(n - 1)
    ensures PhaseAfter(Guarded(kind, r, n).events + [StepEvent(n, Thinking)]) == Asking(n)
  {
    hide PhaseAfter, AgentLoop.Guarded;
    EventsOfGuard(kind, r, n);
    PhaseOfAppend(r.events, StepEvent(n, Checkpoint));
    PhaseOfAppend(Guarded(kind, r, n).events, StepEvent(n, Thinking));
  }

  lemma PhaseOfAsking(cfg: Config, r: Run, n: nat, outcome: LlmOutcome)
    requires n >= 1 && PhaseAfter(r.events) == Idle(n - 1)
    ensures PhaseAfter(Asked(Guarded(cfg.kind, r, n), n, outcome).events) == Asking(n)
  {
    hide PhaseAfter, Next, AgentLoop.Guarded;
    PhaseOfGuard(cfg.kind, r, n);
    PhaseOfChunks(Guarded(cfg.kind, r, n).events + [StepEvent(n, Thinking)], n, outcome.chunks);
  }

  lemma PhaseOfCheckpoint(kind: LoopKind, events: seq<StepEvent>, n: nat, count: nat)
    requires PhaseAfter(events) == Idle(n)
    ensures PhaseAfter(events + CheckpointEvents(kind, n, count)) == Idle(n)
  {
    PhaseOfAppend(events, StepEvent(n, Checkpoint));
    hide PhaseAfter;
    assert events + [] == events;
  }

  lemma PhaseOfRound(kind: LoopKind, r: Run, n: nat, resp: LLMResponse, output: nat -> ToolOutput)
    requires ToolUses(resp.content) != [] && PhaseAfter(r.events) == Issuing(n, ToolNames(ToolUses(resp.content)))
    ensures PhaseAfter(Reported(kind, r, n, resp, output).events) == Idle(n)
  {
    hide PhaseAfter, Next, Models.ToolUses, AgentLoop.CheckpointEvents;
    var uses := ToolUses(resp.content);
    var results := ResultEvents(n, uses, output);
    PhaseOfResults(r.events, n, uses, output, |uses|);
    assert results[..|uses|] == results;
    PhaseOfCheckpoint(kind, r.events + results, n, Reported(kind, r, n, resp, output).toolCallCount);
  }

  /** What a stopped loop has left for its exception handler to report. */
  ghost predicate AwaitsHandler(o: Outcome) {
    if !CutOff(o.ending) then PhaseAfter(o.run.events) == Done
    else if InRound(o.ending) then
      PhaseAfter(o.run.events).Issuing? || (o.ending.Failed? && PhaseAfter(o.run.events).Asking?)
    else PhaseAfter(o.run.events).Asking?
  }

  lemma PhaseOfCompletion(events: seq<StepEvent>, n: nat, text: string)
    requires PhaseAfter(events) == Asking(n)
    ensures PhaseAfter(events + [StepEvent(n, Complete(text))]) == Done
  {
    PhaseOfAppend(events, StepEvent(n, Complete(text)));
  }

  lemma PhaseOfReply(w: World, kind: LoopKind, r: Run, n: nat, resp: LLMResponse)
    requires PhaseAfter(r.events) == Asking(n)
    ensures match AfterReply(w, kind, r, n, resp)
            case Running(next) => PhaseAfter(next.events) == Idle(n)
            case Stopped(o) => AwaitsHandler(o)
  {
    hide Next, PhaseAfter;
    if ToolUses(resp.content) == [] {
      PhaseOfCompletion(r.events, n, ResponseText(resp));
    } else {
      PhaseOfCalls(r.events, n, ToolUses(resp.content));
      if w.tools(n).AnnounceRaised? {
        PhaseOfCalls(r.events, n, Take(ToolUses(resp.content), w.tools(n).announced));
      } else if w.tools(n).Gathered? {
        PhaseOfRound(kind, Issued(r, n, resp), n, resp, w.tools(n).output);
      }
    }
  }

  lemma PhaseOfStep(w: World, cfg: Config, r: Run, n: nat)
    requires n >= 1 && PhaseAfter(r.events) == Idle(n - 1)
    ensures match Step(w, cfg, r, n)
            case Running(next) => PhaseAfter(next.events) == Idle(n)
            case Stopped(o) => AwaitsHandler(o)
  {
    hide Next, PhaseAfter, AgentLoop.AfterReply, AgentLoop.Guarded;
    if SumCost(r.steps) >= cfg.maxCost {
      PhaseOfCostGuard(r, n);
    } else {
      PhaseOfAsking(cfg, r, n, w.llm(n));
      if w.llm(n).Replied? {
        PhaseOfReply(w, cfg.kind, Asked(Guarded(cfg.kind, r, n), n, w.llm(n)), n, w.llm(n).response);
      }
    }
  }

  lemma PhaseOfCostGuard(r: Run, n: nat)
    requires n >= 1 && PhaseAfter(r.events) == Idle(n - 1)
    ensures PhaseAfter(Emit(r, n, Error(CostExceeded)).events) == Done
  {
    PhaseOfAppend(r.events, StepEvent(n, Error(CostExceeded)));
  }

  /** Step `n` is behind the last one. */
  predicate AtLast(cfg: Config, n: nat) {
    if cfg.maxSteps <= 0 then n == 1 else n == cfg.maxSteps + 1
  }

  lemma PhaseOfLastStep(cfg: Config, r: Run, n: nat)
    requires n >= 1 && PhaseAfter(r.events) == Idle(n - 1) && AtLast(cfg, n)
    ensures AwaitsHandler(Outcome(Emit(r, cfg.maxSteps, Error(StepsExceeded)), StepsExceeded))
  {
    PhaseOfAppend(r.events, StepEvent(cfg.maxSteps, Error(StepsExceeded)));
  }

  lemma {:induction false} PhaseOfLoop(w: World, cfg: Config, r: Run, n: nat)
    requires n >= 1 && PhaseAfter(r.events) == Idle(n - 1) && (n > 1 ==> n <= cfg.maxSteps + 1)
    ensures AwaitsHandler(Loop(w, cfg, r, n))
    decreases cfg.maxSteps - n
  {
    hide AgentLoop.Step, AwaitsHandler;
    if n > cfg.maxSteps {
      PhaseOfLastStep(cfg, r, n);
    } else {
      PhaseOfStep(w, cfg, r, n);
      match Step(w, cfg, r, n)
      case Running(next) =>
        PhaseOfLoop(w, cfg, next, n + 1);
        assert Loop(w, cfg, r, n) == Loop(w, cfg, next, n + 1);
      case Stopped(o) =>
        assert Loop(w, cfg, r, n) == o;
    }
  }

  lemma HandlerConcludes(o: Outcome, k: int)
    requires AwaitsHandler(o) && CutOff(o.ending)
    ensures PhaseAfter(o.run.events + [StepEvent(k, Error(o.ending))]) == Done
  {
    PhaseOfAppend(o.run.events, StepEvent(k, Error(o.ending)));
  }

  lemma PhaseOfNoStart(events: seq<StepEvent>, k: int, ending: Ending)
    requires events == [] && CutOff(ending) && !InRound(ending)
    ensures PhaseAfter(events + [StepEvent(k, Error(ending))]) == Done
  {
    PhaseOfAppend(events, StepEvent(k, Error(ending)));
  }

  /** Every run's events are accepted by the automaton. */
  lemma EventsFollowGrammar(w: World, cfg: Config, start: Run)
    requires start.events == []
    ensures PhaseAfter(Execute(w, cfg, start).run.events) == Done
  {
    hide AgentLoop.Loop, Next;
    var o := Waited(w, cfg, start);
    var k := if cfg.kind.TurnLoop? then |o.run.steps| + 1 else |o.run.steps|;
    if !Starts(w, cfg) {
      PhaseOfNoStart(start.events, k, o.ending);
    } else {
      PhaseOfLoop(w, cfg, start, 1);
      if o.ending.Failed? || o.ending.TimedOut? {
        HandlerConcludes(o, k);
      }
    }
  }

  // ---- What acceptance means ----

  /** Nothing follows a terminal event in an accepted trace. */
  lemma {:induction false} TerminalIsLast(events: seq<StepEvent>)
    ensures PhaseAfter(events) == Done ==>
              && events != []
              && Terminal(events[|events| - 1])
              && (forall i :: 0 <= i < |events| - 1 ==> !Terminal(events[i]))
    ensures !PhaseAfter(events).Done? && !PhaseAfter(events).Bad? ==>
              forall i :: 0 <= i < |events| ==> !Terminal(events[i])
  {
    if events != [] {
      var front := events[..|events| - 1];
      TerminalIsLast(front);
      forall i | 0 <= i < |front| ensures events[i] == front[i] {}
    }
  }

  function CallsIn(events: seq<StepEvent>): seq<string> {
    if events == [] then []
    else
      var e := events[|events| - 1];
      CallsIn(events[..|events| - 1]) + if e.body.ToolCalled? then [e.body.tool] else []
  }

  function ReturnsIn(events: seq<StepEvent>): seq<string> {
    if events == [] then []
    else
      var e := events[|events| - 1];
      ReturnsIn(events[..|events| - 1]) + if e.body.ToolReturned? then [e.body.tool] else []
  }

  function Outstanding(p: Phase): seq<string> {
    match p
    case Issuing(_, tools) => tools
    case Returning(_, left) => left
    case _ => []
  }

  lemma {:induction false} CallsAreOutstanding(events: seq<StepEvent>)
    requires !PhaseAfter(events).Done? && !PhaseAfter(events).Bad?
    ensures CallsIn(events) == ReturnsIn(events) + Outstanding(PhaseAfter(events))
  {
    if events != [] {
      var front, e := events[..|events| - 1], events[|events| - 1];
      CallsAreOutstanding(front);
      var before := Outstanding(PhaseAfter(front));
      if e.body.ToolReturned? {
        assert before == [e.body.tool] + Outstanding(PhaseAfter(events));
      }
    }
  }

  /** In a trace that ends with `complete`, the tools that returned are exactly the
      tools that were called, in the same order. */
  lemma CompletedCallsReturned(events: seq<StepEvent>)
    requires PhaseAfter(events) == Done && events[|events| - 1].body.Complete?
    ensures CallsIn(events) == ReturnsIn(events)
  {
    var front, e := events[..|events| - 1], events[|events| - 1];
    assert Next(PhaseAfter(front), e) == Done;
    assert CallsIn(events) == CallsIn(front) + [] && ReturnsIn(events) == ReturnsIn(front) + [];
    hide PhaseAfter, CallsIn, ReturnsIn;
    AskedBeforeComplete(PhaseAfter(front), e);
    CallsAreOutstanding(front);
  }

  lemma AskedBeforeComplete(p: Phase, e: StepEvent)
    requires e.body.Complete? && Next(p, e) == Done
    ensures p.Asking?
  {
  }

  // ---- The numbers of the last event ----

  lemma StepNeverExceedsSteps(w: World, cfg: Config, r: Run, n: nat)
    ensures var p := Step(w, cfg, r, n); p.Stopped? ==> p.outcome.ending != StepsExceeded
  {
  }

  lemma {:induction false} LoopExceedsSteps(w: World, cfg: Config, r: Run, n: nat)
    requires n >= 1 && PhaseAfter(r.events) == Idle(n - 1) && (n > 1 ==> n <= cfg.maxSteps + 1)
    ensures var o := Loop(w, cfg, r, n);
            o.ending == StepsExceeded ==> ExceedsSteps(cfg, o.run.events)
    decreases cfg.maxSteps - n
  {
    hide AgentLoop.Step, PhaseAfter, Next;
    if n > cfg.maxSteps {
      var e := StepEvent(cfg.maxSteps, Error(StepsExceeded));
      assert (r.events + [e])[..|r.events + [e]| - 1] == r.events;
    } else {
      PhaseOfStep(w, cfg, r, n);
      StepNeverExceedsSteps(w, cfg, r, n);
      hide ExceedsSteps;
      match Step(w, cfg, r, n)
      case Running(next) =>
        LoopExceedsSteps(w, cfg, next, n + 1);
        assert Loop(w, cfg, r, n) == Loop(w, cfg, next, n + 1);
      case Stopped(o) =>
        assert Loop(w, cfg, r, n) == o;
    }
  }

  /** The trace ends with the step guard's error, under its own number and behind exactly
      so many rounds. */
  predicate ExceedsSteps(cfg: Config, events: seq<StepEvent>) {
    && events != []
    && events[|events| - 1] == StepEvent(cfg.maxSteps, Error(StepsExceeded))
    && PhaseAfter(events[..|events| - 1]) == Idle(if cfg.maxSteps > 0 then cfg.maxSteps else 0)
  }

  lemma {:induction false} NoReturnsIn(events: seq<StepEvent>, more: seq<StepEvent>)
    requires forall i :: 0 <= i < |more| ==> !more[i].body.ToolReturned?
    ensures ReturnsIn(events + more) == ReturnsIn(events)
  {
    if more == [] {
      assert events + more == events;
    } else {
      var front := more[..|more| - 1];
      NoReturnsIn(events, front);
      assert (events + more)[..|events + more| - 1] == events + front;
    }
  }

  lemma {:induction false} ReturnsOfRound(events: seq<StepEvent>, n: nat, uses: seq<ToolUse>, output: nat -> ToolOutput, k: nat)
    requires k <= |uses|
    ensures |ReturnsIn(events + ResultEvents(n, uses, output)[..k])| == |ReturnsIn(events)| + k
  {
    var results := ResultEvents(n, uses, output);
    if k == 0 {
      assert events + results[..0] == events;
    } else {
      ReturnsOfRound(events, n, uses, output, k - 1);
      var all := events + results[..k];
      assert all[..|all| - 1] == events + results[..k - 1];
    }
  }

  /** Every step result so far is that of a tool that returned. */
  predicate Counted(r: Run) {
    |r.steps| == |ReturnsIn(r.events)|
  }

  lemma ReportCounts(kind: LoopKind, r: Run, n: nat, resp: LLMResponse, output: nat -> ToolOutput)
    requires Counted(r)
    ensures Counted(Reported(kind, r, n, resp, output))
  {
    hide ReturnsIn, ToolUses;
    var uses := ToolUses(resp.content);
    var results, count := ResultEvents(n, uses, output), Reported(kind, r, n, resp, output).toolCallCount;
    ReturnsOfRound(r.events, n, uses, output, |uses|);
    assert results[..|uses|] == results;
    NoReturnsIn(r.events + results, CheckpointEvents(kind, n, count));
    assert r.events + results + CheckpointEvents(kind, n, count) == r.events + (results + CheckpointEvents(kind, n, count));
  }

  lemma ReplyCounts(w: World, kind: LoopKind, r: Run, n: nat, resp: LLMResponse)
    requires Counted(r)
    ensures match AfterReply(w, kind, r, n, resp)
            case Running(next) => Counted(next)
            case Stopped(o) => o.ending.Completed? || Counted(o.run)
  {
    hide ReturnsIn, ToolUses;
    var uses := ToolUses(resp.content);
    if uses != [] {
      NoReturnsIn(r.events, CallEvents(n, uses));
      match w.tools(n)
      case Gathered(output) => ReportCounts(kind, Issued(r, n, resp), n, resp, output);
      case AnnounceRaised(k, _) => NoReturnsIn(r.events, CallEvents(n, Take(uses, k)));
      case _ =>
    }
  }

  lemma AskingCounts(kind: LoopKind, r: Run, n: nat, outcome: LlmOutcome)
    requires Counted(r)
    ensures Counted(Asked(Guarded(kind, r, n), n, outcome))
  {
    hide ReturnsIn;
    EventsOfGuard(kind, r, n);
    NoReturnsIn(r.events, [StepEvent(n, Checkpoint)]);
    var guarded := Guarded(kind, r, n);
    assert guarded.steps == r.steps;
    hide AgentLoop.Guarded;
    var more := [StepEvent(n, Thinking)] + ChunkEvents(n, outcome.chunks);
    NoReturnsIn(guarded.events, more);
    assert guarded.events + more == Asked(guarded, n, outcome).events;
  }

  lemma StepCounts(w: World, cfg: Config, r: Run, n: nat)
    requires Counted(r)
    ensures match Step(w, cfg, r, n)
            case Running(next) => Counted(next)
            case Stopped(o) => o.ending.Completed? || Counted(o.run)
  {
    hide ReturnsIn, AgentLoop.AfterReply, AgentLoop.Guarded, AgentLoop.Asked, SumCost;
    NoReturnsIn(r.events, [StepEvent(n, Error(CostExceeded))]);
    if SumCost(r.steps) < cfg.maxCost {
      AskingCounts(cfg.kind, r, n, w.llm(n));
      if w.llm(n).Replied? {
        ReplyCounts(w, cfg.kind, Asked(Guarded(cfg.kind, r, n), n, w.llm(n)), n, w.llm(n).response);
      }
    }
  }

  lemma {:induction false} LoopCounts(w: World, cfg: Config, r: Run, n: nat)
    requires Counted(r)
    ensures var o := Loop(w, cfg, r, n); o.ending.Completed? || Counted(o.run)
    decreases cfg.maxSteps - n
  {
    hide AgentLoop.Step, ReturnsIn;
    if n > cfg.maxSteps {
      NoReturnsIn(r.events, [StepEvent(cfg.maxSteps, Error(StepsExceeded))]);
    } else {
      StepCounts(w, cfg, r, n);
      hide Counted;
      match Step(w, cfg, r, n)
      case Running(next) =>
        LoopCounts(w, cfg, next, n + 1);
        assert Loop(w, cfg, r, n) == Loop(w, cfg, next, n + 1);
      case Stopped(o) =>
        assert Loop(w, cfg, r, n) == o;
    }
  }

  lemma WaitedNumbers(w: World, cfg: Config, start: Run)
    requires start.events == [] && start.steps == []
    ensures var o := Waited(w, cfg, start);
            && (o.ending == StepsExceeded ==> ExceedsSteps(cfg, o.run.events))
            && (o.ending.Completed? || Counted(o.run))
  {
    assert PhaseAfter(start.events) == Idle(0) && Counted(start);
    hide AgentLoop.Loop, PhaseAfter, ExceedsSteps, Counted;
    if Starts(w, cfg) {
      LoopExceedsSteps(w, cfg, start, 1);
      LoopCounts(w, cfg, start, 1);
    }
  }

  /** The error that an exception handler reports. */
  predicate HandlerNumber(kind: LoopKind, o: Outcome) {
    && o.run.events != []
    && o.run.events[|o.run.events| - 1]
       == StepEvent(|ReturnsIn(o.run.events)| + (if kind.TurnLoop? then 1 else 0), Error(o.ending))
  }

  lemma HandledNumber(kind: LoopKind, o: Outcome)
    requires CutOff(o.ending) && Counted(o.run)
    ensures HandlerNumber(kind, Handled(kind, o))
  {
    hide ReturnsIn;
    var k := if kind.TurnLoop? then |o.run.steps| + 1 else |o.run.steps|;
    NoReturnsIn(o.run.events, [StepEvent(k, Error(o.ending))]);
  }

  /** The numbers that errors bear: the step guard's error comes behind exactly `maxSteps`
      rounds and bears that number; the error of a run that was cut off bears the number of
      tools that returned, in a turn one more. */
  lemma ErrorNumbers(w: World, cfg: Config, start: Run)
    requires start.events == [] && start.steps == []
    ensures var o := Execute(w, cfg, start);
            && (o.ending == StepsExceeded ==> ExceedsSteps(cfg, o.run.events))
            && (CutOff(o.ending) ==> HandlerNumber(cfg.kind, o))
  {
    hide AgentLoop.Waited, ExceedsSteps, Counted, HandlerNumber;
    WaitedNumbers(w, cfg, start);
    var o := Waited(w, cfg, start);
    if CutOff(o.ending) {
      HandledNumber(cfg.kind, o);
    }
  }
}
