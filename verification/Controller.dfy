/** The controller's two loops in the form of the source (enclave/agent/controller.py:347-947):
    lists are shared objects updated in place, and each method is proved to do exactly
    what the state machine of `AgentLoop` does. */
module Controller {
  import opened Models
  import opened Compaction
  import opened AgentLoop
  import opened Text
  import opened Pairing
  import opened Transcript

  const DEFAULT_MAX_STEPS := 50
  const DEFAULT_MAX_COST := 5_000_000

  /** A list passed by reference. */
  class SharedList<T> {
    var items: seq<T>

    constructor (items: seq<T>)
      ensures this.items == items
    {
      this.items := items;
    }

    method Append(x: T)
      modifies this
      ensures items == old(items) + [x]
    {
      items := items + [x];
    }

    /** `clear()` and then `extend(xs)`. */
    method Replace(xs: seq<T>)
      modifies this
      ensures items == xs
    {
      items := [];
      items := items + xs;
    }
  }

  datatype TaskResult = TaskResult(
    success: bool, steps: seq<StepResult>, totalCost: int, attested: Option<string>, ending: Ending)

  /** What the caller of `run_task` is told about a run. */
  function ResultOf(o: Outcome): TaskResult {
    TaskResult(o.ending.Completed?, o.run.steps, SumCost(o.run.steps),
               if o.ending.Completed? then Some(Attested(o.run.hashParts)) else None, o.ending)
  }

  /** What the caller of `run_task` asks for; limits that are zero get their defaults. */
  datatype TaskRequest = TaskRequest(
    taskId: string, userId: string, description: string, maxSteps: int, budget: int, timeout: real)

  function TaskConfig(t: TaskRequest, defaultTimeout: real): Config {
    Config(TaskLoop,
           if t.maxSteps == 0 then DEFAULT_MAX_STEPS else t.maxSteps,
           if t.budget == 0 then DEFAULT_MAX_COST else t.budget,
           if t.timeout == 0.0 then defaultTimeout else t.timeout)
  }

  class AgentController {
    const defaultTimeout: real
    var events: seq<StepEvent>   // everything put into the event queue
    var calls: seq<LlmCall>      // every request made to the provider

    constructor (defaultTimeout: real)
      ensures events == [] && calls == [] && this.defaultTimeout == defaultTimeout
    {
      this.defaultTimeout, events, calls := defaultTimeout, [], [];
    }

    method EmitEvent(n: int, body: EventBody)
      modifies this`events
      ensures events == old(events) + [StepEvent(n, body)]
    {
      events := events + [StepEvent(n, body)];
    }

    /** Reports that the model is called, calls it and streams its chunks. */
    method AskModel(w: World, n: nat, prompt: seq<Message>, spent: int) returns (outcome: LlmOutcome)
      modifies this
      ensures outcome == w.llm(n)
      ensures events == old(events) + [StepEvent(n, Thinking)] + ChunkEvents(n, outcome.chunks)
      ensures calls == old(calls) + [LlmCall(prompt, spent, outcome)]
    {
      EmitEvent(n, Thinking);
      outcome := w.llm(n);
      calls := calls + [LlmCall(prompt, spent, outcome)];
      var chunks := outcome.chunks;
      for i := 0 to |chunks|
        invariant events == old(events) + [StepEvent(n, Thinking)] + ChunkEvents(n, chunks)[..i]
        invariant calls == old(calls) + [LlmCall(prompt, spent, outcome)]
      {
        EmitEvent(n, Delta(chunks[i]));
      }
    }

    /** Announces the calls, up to one whose arguments are no object. */
    method AnnounceCalls(n: nat, uses: seq<ToolUse>, round: RoundOutcome)
      modifies this`events
      ensures events == old(events)
                        + CallEvents(n, if round.AnnounceRaised? then Take(uses, round.announced) else uses)
    {
      for i := 0 to |uses|
        invariant events == old(events) + CallEvents(n, uses)[..i]
        invariant round.AnnounceRaised? ==> i <= round.announced
      {
        if round.AnnounceRaised? && i == round.announced {
          assert CallEvents(n, uses)[..i] == CallEvents(n, Take(uses, i));
          return;
        }
        EmitEvent(n, ToolCalled(uses[i].name));
      }
    }

    /** Turns the gathered outputs of a round into results, step results and events;
        only a task has transcript parts to extend. */
    method CollectResults(n: nat, resp: LLMResponse, output: nat -> ToolOutput,
                          steps: SharedList<StepResult>, parts: SharedList?<string>)
      returns (results: seq<ContentBlock>)
      requires parts != null ==> parts as object != steps
      modifies this`events, steps, parts
      ensures var uses := ToolUses(resp.content);
              && results == RoundResults(uses, output)
              && steps.items == old(steps.items) + RoundSteps(n, resp, uses, output)
              && events == old(events) + ResultEvents(n, uses, output)
              && (parts != null ==> parts.items == old(parts.items) + RoundParts(uses, output))
    {
      hide ToolUses;
      var uses := ToolUses(resp.content);
      results := [];
      ghost var blocks, stepResults := RoundResults(uses, output), RoundSteps(n, resp, uses, output);
      ghost var returned, lines := ResultEvents(n, uses, output), RoundParts(uses, output);
      for i := 0 to |uses|
        invariant results == blocks[..i]
        invariant steps.items == old(steps.items) + stepResults[..i]
        invariant events == old(events) + returned[..i]
        invariant parts != null ==> parts.items == old(parts.items) + lines[..i]
      {
        var out := output(i);
        assert blocks[i] == ToolResultBlock(ToolResult(uses[i].id, ResultText(out), !out.success));
        assert stepResults[i] == RoundStep(n, resp, uses[i], out, i);
        assert returned[i] == StepEvent(n, ToolReturned(uses[i].name, out.success));
        assert lines[i] == uses[i].name + ":" + out.result;
        hide RoundResults, RoundSteps, ResultEvents, RoundParts, RoundStep, ResultText;
        OneMore([], blocks, i);
        OneMore(old(steps.items), stepResults, i);
        OneMore(old(events), returned, i);
        results := results + [ToolResultBlock(ToolResult(uses[i].id, ResultText(out), !out.success))];
        steps.Append(RoundStep(n, resp, uses[i], out, i));
        if parts != null {
          OneMore(old(parts.items), lines, i);
          parts.Append(uses[i].name + ":" + out.result);
        }
        EmitEvent(n, ToolReturned(uses[i].name, out.success));
      }
    }

    /** The state of a run, read off the shared lists and the controller's records. */
    ghost function TaskView(messages: SharedList<Message>, steps: SharedList<StepResult>, parts: SharedList<string>): Run
      reads this, messages, steps, parts
    {
      Run(messages.items, steps.items, events, calls, 0, parts.items)
    }

    ghost function TurnView(history: SharedList<Message>, steps: SharedList<StepResult>, toolCallCount: nat): Run
      reads this, history, steps
    {
      Run(history.items, steps.items, events, calls, toolCallCount, [])
    }

    // ---- run_task ----

    /** The body of a task's loop after the model has replied. */
    method TaskReply(w: World, n: nat, resp: LLMResponse, messages: SharedList<Message>,
                     steps: SharedList<StepResult>, parts: SharedList<string>) returns (ending: Option<Ending>)
      requires parts as object != steps
      modifies this, messages, steps, parts
      ensures var p := AfterReply(w, TaskLoop, old(TaskView(messages, steps, parts)), n, resp);
              if ending.None? then p == Running(TaskView(messages, steps, parts))
              else p == Stopped(Outcome(TaskView(messages, steps, parts), ending.value))
    {
      if ToolUses(resp.content) == [] {
        var text := ResponseText(resp);
        steps.Append(StepResult(n, None, "{}", None, text, resp.inputTokens, resp.outputTokens));
        parts.Append(text);
        EmitEvent(n, Complete(text));
        return Some(Completed(text));
      }
      messages.Append(Message(Assistant, Blocks(resp.content)));
      AnnounceCalls(n, ToolUses(resp.content), w.tools(n));
      match w.tools(n)
      case AnnounceRaised(_, error) =>
        return Some(Failed(error, true));
      case RoundRaised(error) =>
        return Some(Failed(error, true));
      case RoundTimedOut =>
        return Some(TimedOut(true));
      case Gathered(output) =>
        var results := CollectResults(n, resp, output, steps, parts);
        messages.Append(Message(User, Blocks(results)));
        assert events == events + CheckpointEvents(TaskLoop, n, 0);
        return None;
    }

    method TaskStep(w: World, cfg: Config, n: nat, messages: SharedList<Message>,
                    steps: SharedList<StepResult>, parts: SharedList<string>) returns (ending: Option<Ending>)
      requires cfg.kind.TaskLoop? && parts as object != steps
      modifies this, messages, steps, parts
      ensures var p := Step(w, cfg, old(TaskView(messages, steps, parts)), n);
              if ending.None? then p == Running(TaskView(messages, steps, parts))
              else p == Stopped(Outcome(TaskView(messages, steps, parts), ending.value))
    {
      hide AfterReply;
      var spent := SumCost(steps.items);
      if spent >= cfg.maxCost {
        EmitEvent(n, Error(CostExceeded));
        return Some(CostExceeded);
      }
      var outcome := AskModel(w, n, messages.items, spent);
      match outcome
      case LlmRaised(_, error) =>
        return Some(Failed(error, false));
      case LlmTimedOut(_) =>
        return Some(TimedOut(false));
      case Replied(_, resp) =>
        ending := TaskReply(w, n, resp, messages, steps, parts);
    }

    /** `_run_step_loop`. */
    method RunStepLoop(w: World, cfg: Config, messages: SharedList<Message>, steps: SharedList<StepResult>,
                       parts: SharedList<string>) returns (ending: Ending)
      requires cfg.kind.TaskLoop? && parts as object != steps
      modifies this, messages, steps, parts
      ensures Loop(w, cfg, old(TaskView(messages, steps, parts)), 1)
              == Outcome(TaskView(messages, steps, parts), ending)
    {
      hide Step;
      var n := 1;
      while n <= cfg.maxSteps
        invariant n >= 1
        invariant Loop(w, cfg, TaskView(messages, steps, parts), n)
               == Loop(w, cfg, old(TaskView(messages, steps, parts)), 1)
      {
        var stopped := TaskStep(w, cfg, n, messages, steps, parts);
        if stopped.Some? {
          return stopped.value;
        }
        n := n + 1;
      }
      EmitEvent(cfg.maxSteps, Error(StepsExceeded));
      return StepsExceeded;
    }

    /** Runs a task and reports its result; a failure or a timeout of the loop is
        caught, reported as an error event and priced by the steps on record. */
    method RunTask(w: World, task: TaskRequest) returns (result: TaskResult)
      modifies this
      ensures var o := Execute(w, TaskConfig(task, defaultTimeout), TaskStart(task.description));
              && result == ResultOf(o)
              && events == old(events) + o.run.events
              && calls == old(calls) + o.run.calls
    {
      var messages := new SharedList([UserText(task.description)]);
      var steps: SharedList<StepResult> := new SharedList([]);
      var parts := new SharedList([task.description]);
      var cfg := TaskConfig(task, defaultTimeout);
      ghost var start := TaskView(messages, steps, parts);
      var ending;
      if w.fault.Some? {
        ending := Failed(w.fault.value, false);
      } else if cfg.timeout <= 0.0 {
        ending := TimedOut(false);
      } else {
        ending := RunStepLoop(w, cfg, messages, steps, parts);
      }
      if ending.Failed? || ending.TimedOut? {
        EmitEvent(|steps.items|, Error(ending));
      }
      var attested := if ending.Completed? then Some(Attested(parts.items)) else None;
      result := TaskResult(ending.Completed?, steps.items, SumCost(steps.items), attested, ending);
      assert Execute(w, cfg, start) == Outcome(TaskView(messages, steps, parts), ending);
      assert start == Recorded(old(events), old(calls), TaskStart(task.description));
      RecordsAreKept(w, cfg, TaskStart(task.description), old(events), old(calls));
    }

    // ---- run_conversation_turn ----

    /** The context window guard, replacing the caller's history in place. */
    method GuardContext(n: nat, systemPrompt: string, compactLimit: int, history: SharedList<Message>,
                        ghost steps: SharedList<StepResult>, ghost toolCallCount: nat)
      requires history as object != steps
      modifies this`events, history
      ensures TurnView(history, steps, toolCallCount)
              == Guarded(TurnLoop(systemPrompt, compactLimit), old(TurnView(history, steps, toolCallCount)), n)
    {
      var tokens := EstimateMessagesTokens(history.items);
      var estimated := EstimateTokens(systemPrompt) + tokens;
      if estimated > compactLimit && |history.items| > MIN_RECENT_MESSAGES {
        var compacted := CompactHistory(history.items, compactLimit, EstimateTokens(systemPrompt));
        history.Replace(compacted);
        EmitEvent(n, Checkpoint);
      }
    }

    method TurnReply(w: World, kind: LoopKind, n: nat, resp: LLMResponse, history: SharedList<Message>,
                     steps: SharedList<StepResult>, toolCallCount: nat)
      returns (ending: Option<Ending>, count: nat)
      requires kind.TurnLoop?
      modifies this, history, steps
      ensures var p := AfterReply(w, kind, old(TurnView(history, steps, toolCallCount)), n, resp);
              if ending.None? then p == Running(TurnView(history, steps, count))
              else p == Stopped(Outcome(TurnView(history, steps, count), ending.value))
    {
      count := toolCallCount;
      if ToolUses(resp.content) == [] {
        var text := ResponseText(resp);
        steps.Append(StepResult(n, None, "{}", None, text, resp.inputTokens, resp.outputTokens));
        history.Append(Message(Assistant, Blocks(resp.content)));
        EmitEvent(n, Complete(text));
        return Some(Completed(text)), count;
      }
      history.Append(Message(Assistant, Blocks(resp.content)));
      AnnounceCalls(n, ToolUses(resp.content), w.tools(n));
      match w.tools(n)
      case AnnounceRaised(_, error) =>
        return Some(Failed(error, true)), count;
      case RoundRaised(error) =>
        return Some(Failed(error, true)), count;
      case RoundTimedOut =>
        return Some(TimedOut(true)), count;
      case Gathered(output) =>
        var results := CollectResults(n, resp, output, steps, null);
        count := count + |ToolUses(resp.content)|;
        ghost var reported := events;
        if count > 0 && count % 5 == 0 {
          EmitEvent(n, Checkpoint);
        }
        assert events == reported + CheckpointEvents(kind, n, count);
        history.Append(Message(User, Blocks(results)));
        return None, count;
    }

    method TurnStep(w: World, cfg: Config, n: nat, history: SharedList<Message>,
                    steps: SharedList<StepResult>, toolCallCount: nat)
      returns (ending: Option<Ending>, count: nat)
      requires cfg.kind.TurnLoop? && history as object != steps
      modifies this, history, steps
      ensures var p := Step(w, cfg, old(TurnView(history, steps, toolCallCount)), n);
              if ending.None? then p == Running(TurnView(history, steps, count))
              else p == Stopped(Outcome(TurnView(history, steps, count), ending.value))
    {
      hide AfterReply, Guarded;
      count := toolCallCount;
      var spent := SumCost(steps.items);
      if spent >= cfg.maxCost {
        EmitEvent(n, Error(CostExceeded));
        return Some(CostExceeded), count;
      }
      GuardContext(n, cfg.kind.systemPrompt, cfg.kind.compactLimit, history, steps, toolCallCount);
      var outcome := AskModel(w, n, history.items, spent);
      match outcome
      case LlmRaised(_, error) =>
        return Some(Failed(error, false)), count;
      case LlmTimedOut(_) =>
        return Some(TimedOut(false)), count;
      case Replied(_, resp) =>
        ending, count := TurnReply(w, cfg.kind, n, resp, history, steps, toolCallCount);
    }

    /** One turn on the caller's history, which is updated in place; returns how the
        turn ended and what it cost. */
    method RunConversationTurn(t: Turn, history: SharedList<Message>) returns (ending: Ending, cost: int)
      modifies this, history
      ensures var o := RunTurn(t, old(history.items));
              && ending == o.ending
              && cost == SumCost(o.run.steps)
              && history.items == o.run.messages
              && events == old(events) + o.run.events
              && calls == old(calls) + o.run.calls
    {
      history.Append(UserText(t.userMessage));
      var steps: SharedList<StepResult> := new SharedList([]);
      var cfg := TurnConfig(t);
      ghost var start := TurnView(history, steps, 0);
      assert start == Recorded(old(events), old(calls), TurnStart(old(history.items), t.userMessage));
      var count := 0;
      if t.world.fault.Some? {
        ending := Failed(t.world.fault.value, false);
      } else if cfg.timeout <= 0.0 {
        ending := TimedOut(false);
      } else {
        ending, count := InnerLoop(t.world, cfg, history, steps);
      }
      if ending.Failed? || ending.TimedOut? {
        EmitEvent(|steps.items| + 1, Error(ending));
      }
      cost := SumCost(steps.items);
      RecordsAreKept(t.world, cfg, TurnStart(old(history.items), t.userMessage), old(events), old(calls));
    }

    /** `_inner_loop`. */
    method InnerLoop(w: World, cfg: Config, history: SharedList<Message>, steps: SharedList<StepResult>)
      returns (ending: Ending, count: nat)
      requires cfg.kind.TurnLoop? && history as object != steps
      modifies this, history, steps
      ensures Loop(w, cfg, old(TurnView(history, steps, 0)), 1) == Outcome(TurnView(history, steps, count), ending)
    {
      hide Step;
      var n := 1;
      count := 0;
      while n <= cfg.maxSteps
        invariant n >= 1
        invariant Loop(w, cfg, TurnView(history, steps, count), n) == Loop(w, cfg, old(TurnView(history, steps, 0)), 1)
      {
        var stopped;
        stopped, count := TurnStep(w, cfg, n, history, steps, count);
        if stopped.Some? {
          return stopped.value, count;
        }
        n := n + 1;
      }
      EmitEvent(cfg.maxSteps, Error(StepsExceeded));
      return StepsExceeded, count;
    }
  }

  lemma OneMore<T>(front: seq<T>, all: seq<T>, i: nat)
    requires i < |all|
    ensures front + all[..i + 1] == front + all[..i] + [all[i]]
    ensures all[..i + 1] == all[..i] + [all[i]]
  {
  }

  // ---- Earlier records do not matter ----

  /** The run `r` on top of earlier events and calls. */
  function Recorded(events0: seq<StepEvent>, calls0: seq<LlmCall>, r: Run): Run {
    r.(events := events0 + r.events, calls := calls0 + r.calls)
  }

  function RecordedOutcome(events0: seq<StepEvent>, calls0: seq<LlmCall>, o: Outcome): Outcome {
    o.(run := Recorded(events0, calls0, o.run))
  }

  lemma ReplyKeepsRecords(w: World, kind: LoopKind, r: Run, n: nat, resp: LLMResponse,
                          events0: seq<StepEvent>, calls0: seq<LlmCall>)
    ensures AfterReply(w, kind, Recorded(events0, calls0, r), n, resp)
            == match AfterReply(w, kind, r, n, resp)
               case Running(next) => Running(Recorded(events0, calls0, next))
               case Stopped(o) => Stopped(RecordedOutcome(events0, calls0, o))
  {
    hide ToolUses, RoundSteps, RoundResults, RoundParts, ResponseText;
    var uses := ToolUses(resp.content);
    if uses == [] {
      Associates(events0, r.events, [StepEvent(n, Complete(ResponseText(resp)))]);
    } else {
      Associates(events0, r.events, CallEvents(n, uses));
      var issued := Issued(r, n, resp);
      match w.tools(n)
      case AnnounceRaised(k, _) =>
        Associates(events0, r.events, CallEvents(n, Take(uses, k)));
      case Gathered(output) =>
        var next := Reported(kind, issued, n, resp, output);
        var tail := ResultEvents(n, uses, output) + CheckpointEvents(kind, n, next.toolCallCount);
        Associates(events0, issued.events, tail);
        assert Reported(kind, Recorded(events0, calls0, issued), n, resp, output) == Recorded(events0, calls0, next);
      case _ =>
    }
  }

  lemma Associates<T>(a: seq<T>, b: seq<T>, c: seq<T>)
    ensures (a + b) + c == a + (b + c)
  {
  }

  lemma AskingKeepsRecords(kind: LoopKind, r: Run, n: nat, outcome: LlmOutcome,
                           events0: seq<StepEvent>, calls0: seq<LlmCall>)
    ensures Asked(Guarded(kind, Recorded(events0, calls0, r), n), n, outcome)
            == Recorded(events0, calls0, Asked(Guarded(kind, r, n), n, outcome))
  {
    hide Compacted, HistoryTokens;
    var guarded := Guarded(kind, r, n);
    var asked := Asked(guarded, n, outcome);
    assert Guarded(kind, Recorded(events0, calls0, r), n).events == events0 + guarded.events;
    assert events0 + guarded.events + [StepEvent(n, Thinking)] + ChunkEvents(n, outcome.chunks)
        == events0 + asked.events;
    var call := LlmCall(guarded.messages, SumCost(guarded.steps), outcome);
    assert calls0 + guarded.calls + [call] == calls0 + (guarded.calls + [call]);
  }

  lemma StepKeepsRecords(w: World, cfg: Config, r: Run, n: nat, events0: seq<StepEvent>, calls0: seq<LlmCall>)
    ensures Step(w, cfg, Recorded(events0, calls0, r), n)
            == match Step(w, cfg, r, n)
               case Running(next) => Running(Recorded(events0, calls0, next))
               case Stopped(o) => Stopped(RecordedOutcome(events0, calls0, o))
  {
    hide AfterReply, Guarded, Asked;
    assert events0 + r.events + [StepEvent(n, Error(CostExceeded))]
        == events0 + (r.events + [StepEvent(n, Error(CostExceeded))]);
    AskingKeepsRecords(cfg.kind, r, n, w.llm(n), events0, calls0);
    if w.llm(n).Replied? {
      ReplyKeepsRecords(w, cfg.kind, Asked(Guarded(cfg.kind, r, n), n, w.llm(n)), n, w.llm(n).response, events0, calls0);
    }
  }

  lemma {:induction false} LoopKeepsRecords(w: World, cfg: Config, r: Run, n: nat,
                                            events0: seq<StepEvent>, calls0: seq<LlmCall>)
    ensures Loop(w, cfg, Recorded(events0, calls0, r), n) == RecordedOutcome(events0, calls0, Loop(w, cfg, r, n))
    decreases cfg.maxSteps - n
  {
    if n > cfg.maxSteps {
      assert events0 + r.events + [StepEvent(cfg.maxSteps, Error(StepsExceeded))]
          == events0 + (r.events + [StepEvent(cfg.maxSteps, Error(StepsExceeded))]);
    } else {
      StepKeepsRecords(w, cfg, r, n, events0, calls0);
      hide Step;
      var p := Step(w, cfg, r, n);
      if p.Running? {
        LoopKeepsRecords(w, cfg, p.run, n + 1, events0, calls0);
      }
    }
  }

  /** A run behaves the same whatever the controller recorded before it. */
  lemma RecordsAreKept(w: World, cfg: Config, r: Run, events0: seq<StepEvent>, calls0: seq<LlmCall>)
    ensures Execute(w, cfg, Recorded(events0, calls0, r)) == RecordedOutcome(events0, calls0, Execute(w, cfg, r))
  {
    LoopKeepsRecords(w, cfg, r, 1, events0, calls0);
    hide Loop;
    HandlerKeepsRecords(cfg.kind, Waited(w, cfg, r), events0, calls0);
  }

  lemma HandlerKeepsRecords(kind: LoopKind, o: Outcome, events0: seq<StepEvent>, calls0: seq<LlmCall>)
    ensures Handled(kind, RecordedOutcome(events0, calls0, o)) == RecordedOutcome(events0, calls0, Handled(kind, o))
  {
    var n := if kind.TurnLoop? then |o.run.steps| + 1 else |o.run.steps|;
    assert events0 + o.run.events + [StepEvent(n, Error(o.ending))]
        == events0 + (o.run.events + [StepEvent(n, Error(o.ending))]);
  }
}
