/** The agent's step loop as a state machine (enclave/agent/controller.py:347-947).

    `run_task` and `run_conversation_turn` run the same loop. They differ in four
    points, which `LoopKind` selects: a turn compacts its history, reports
    checkpoints, counts its tool calls and keeps the final reply in the history,
    while a task collects the parts of its attested transcript.

    The model and the tools are arbitrary: a `World` gives, for every step, whatever
    the provider does and whatever the tools do, including raising an exception and
    being cut off by the timeout. The loop suspends at these two places only. A timeout
    that is not positive expires before the loop's first statement. Exceptions are also
    raised while calls are announced, by arguments that are no JSON object, and before
    the first event, by limits that are no numbers. */
module AgentLoop {
  import opened Models
  import opened Text
  import opened Compaction
  import opened Truncation

  // ---- The environment ----

  datatype Chunk = TextChunk(token: string) | ThinkingChunk(token: string)

  /** What one call of the provider does, after streaming some chunks. */
  datatype LlmOutcome =
    | Replied(chunks: seq<Chunk>, response: LLMResponse)
    | LlmRaised(chunks: seq<Chunk>, error: string)
    | LlmTimedOut(chunks: seq<Chunk>)

  /** What becomes of one round of tool calls. Announcing them may raise behind the first
      few; running them in parallel, `gather` returns the outputs in the order of the
      calls, whatever order they finish in. */
  datatype RoundOutcome =
    | Gathered(output: nat -> ToolOutput)
    | AnnounceRaised(announced: nat, error: string)
    | RoundRaised(error: string)
    | RoundTimedOut

  /** `fault` is the error that a limit of the wrong type raises. */
  datatype World = World(llm: nat -> LlmOutcome, tools: nat -> RoundOutcome, fault: Option<string>)

  // ---- The state ----

  datatype LoopKind = TaskLoop | TurnLoop(systemPrompt: string, compactLimit: int)

  /** The timeout is in seconds; only its sign matters here. */
  datatype Config = Config(kind: LoopKind, maxSteps: int, maxCost: int, timeout: real)

  datatype Ending =
    | Completed(text: string)
    | CostExceeded
    | StepsExceeded
    | Failed(error: string, inRound: bool)
    | TimedOut(inRound: bool)

  datatype EventBody =
    | Thinking
    | Delta(chunk: Chunk)
    | ToolCalled(tool: string)
    | ToolReturned(tool: string, success: bool)
    | Checkpoint
    | Complete(summary: string)
    | Error(ending: Ending)

  datatype StepEvent = StepEvent(stepNumber: int, body: EventBody)

  /** One request to the provider: its messages, the cost recorded before it, and
      what came of it. */
  datatype LlmCall = LlmCall(prompt: seq<Message>, spent: int, outcome: LlmOutcome)

  datatype Run = Run(
    messages: seq<Message>,
    steps: seq<StepResult>,
    events: seq<StepEvent>,
    calls: seq<LlmCall>,
    toolCallCount: nat,
    hashParts: seq<string>)

  datatype Outcome = Outcome(run: Run, ending: Ending)

  datatype Progress = Running(run: Run) | Stopped(outcome: Outcome)

  /** Whether the loop was cut off between appending the assistant's tool calls and
      appending their results. */
  predicate InRound(e: Ending) {
    (e.Failed? || e.TimedOut?) && e.inRound
  }

  // ---- The parts of a step ----

  function Emit(r: Run, n: int, body: EventBody): Run {
    r.(events := r.events + [StepEvent(n, body)])
  }

  predicate NeedsCompaction(kind: LoopKind, messages: seq<Message>) {
    && kind.TurnLoop?
    && HistoryTokens(kind.systemPrompt, messages) > kind.compactLimit
    && |messages| > MIN_RECENT_MESSAGES
  }

  /** The context window guard. */
  function Guarded(kind: LoopKind, r: Run, n: nat): Run {
    if NeedsCompaction(kind, r.messages) then
      var compacted := Compacted(r.messages, kind.compactLimit, EstimateTokens(kind.systemPrompt));
      Emit(r.(messages := compacted), n, Checkpoint)
    else r
  }

  function ChunkEvents(n: nat, chunks: seq<Chunk>): seq<StepEvent> {
    seq(|chunks|, i requires 0 <= i < |chunks| => StepEvent(n, Delta(chunks[i])))
  }

  /** The provider is asked and streams its chunks. */
  function Asked(r: Run, n: nat, outcome: LlmOutcome): Run {
    r.(calls := r.calls + [LlmCall(r.messages, SumCost(r.steps), outcome)],
       events := r.events + [StepEvent(n, Thinking)] + ChunkEvents(n, outcome.chunks))
  }

  function ResponseText(resp: LLMResponse): string {
    Join("\n", Texts(resp.content))
  }

  /** A reply without tool calls concludes the loop. */
  function Concluded(kind: LoopKind, r: Run, n: nat, resp: LLMResponse): Run {
    var text := ResponseText(resp);
    var step := StepResult(n, None, "{}", None, text, resp.inputTokens, resp.outputTokens);
    r.(steps := r.steps + [step],
       messages := if kind.TurnLoop? then r.messages + [Message(Assistant, Blocks(resp.content))] else r.messages,
       hashParts := if kind.TaskLoop? then r.hashParts + [text] else r.hashParts,
       events := r.events + [StepEvent(n, Complete(text))])
  }

  function CallEvents(n: nat, uses: seq<ToolUse>): seq<StepEvent> {
    seq(|uses|, i requires 0 <= i < |uses| => StepEvent(n, ToolCalled(uses[i].name)))
  }

  /** The assistant's tool calls are on record, and these of them are announced. */
  function Announced(r: Run, n: nat, resp: LLMResponse, uses: seq<ToolUse>): Run {
    r.(messages := r.messages + [Message(Assistant, Blocks(resp.content))],
       events := r.events + CallEvents(n, uses))
  }

  function Issued(r: Run, n: nat, resp: LLMResponse): Run {
    Announced(r, n, resp, ToolUses(resp.content))
  }

  function ResultText(output: ToolOutput): string {
    Truncate(if output.success then output.result else "Error: " + output.error)
  }

  function RoundResults(uses: seq<ToolUse>, output: nat -> ToolOutput): seq<ContentBlock> {
    seq(|uses|, i requires 0 <= i < |uses| =>
      ToolResultBlock(ToolResult(uses[i].id, ResultText(output(i)), !output(i).success)))
  }

  /** The step result of the i-th tool call; only the first one bears the tokens. */
  function RoundStep(n: nat, resp: LLMResponse, call: ToolUse, output: ToolOutput, i: nat): StepResult {
    StepResult(n, Some(call.name), call.input, Some(output),
               if i == 0 then ResponseText(resp) else "",
               if i == 0 then resp.inputTokens else 0,
               if i == 0 then resp.outputTokens else 0)
  }

  function RoundSteps(n: nat, resp: LLMResponse, uses: seq<ToolUse>, output: nat -> ToolOutput): seq<StepResult> {
    seq(|uses|, i requires 0 <= i < |uses| => RoundStep(n, resp, uses[i], output(i), i))
  }

  function ResultEvents(n: nat, uses: seq<ToolUse>, output: nat -> ToolOutput): seq<StepEvent> {
    seq(|uses|, i requires 0 <= i < |uses| => StepEvent(n, ToolReturned(uses[i].name, output(i).success)))
  }

  function RoundParts(uses: seq<ToolUse>, output: nat -> ToolOutput): seq<string> {
    seq(|uses|, i requires 0 <= i < |uses| => uses[i].name + ":" + output(i).result)
  }

  function CheckpointEvents(kind: LoopKind, n: nat, toolCallCount: nat): seq<StepEvent> {
    if kind.TurnLoop? && toolCallCount > 0 && toolCallCount % 5 == 0
    then [StepEvent(n, Checkpoint)] else []
  }

  /** The round has finished and its results go back to the model. */
  function Reported(kind: LoopKind, r: Run, n: nat, resp: LLMResponse, output: nat -> ToolOutput): Run {
    var uses := ToolUses(resp.content);
    var count := if kind.TurnLoop? then r.toolCallCount + |uses| else r.toolCallCount;
    r.(steps := r.steps + RoundSteps(n, resp, uses, output),
       messages := r.messages + [Message(User, Blocks(RoundResults(uses, output)))],
       hashParts := if kind.TaskLoop? then r.hashParts + RoundParts(uses, output) else r.hashParts,
       toolCallCount := count,
       events := r.events + ResultEvents(n, uses, output) + CheckpointEvents(kind, n, count))
  }

  // ---- Step, loop and run ----

  function AfterReply(w: World, kind: LoopKind, r: Run, n: nat, resp: LLMResponse): Progress {
    if ToolUses(resp.content) == [] then
      Stopped(Outcome(Concluded(kind, r, n, resp), Completed(ResponseText(resp))))
    else
      var issued := Issued(r, n, resp);
      match w.tools(n)
      case Gathered(output) => Running(Reported(kind, issued, n, resp, output))
      case AnnounceRaised(k, error) =>
        Stopped(Outcome(Announced(r, n, resp, Take(ToolUses(resp.content), k)), Failed(error, true)))
      case RoundRaised(error) => Stopped(Outcome(issued, Failed(error, true)))
      case RoundTimedOut => Stopped(Outcome(issued, TimedOut(true)))
  }

  function Step(w: World, cfg: Config, r: Run, n: nat): Progress {
    if SumCost(r.steps) >= cfg.maxCost then
      Stopped(Outcome(Emit(r, n, Error(CostExceeded)), CostExceeded))
    else
      var asked := Asked(Guarded(cfg.kind, r, n), n, w.llm(n));
      match w.llm(n)
      case Replied(_, resp) => AfterReply(w, cfg.kind, asked, n, resp)
      case LlmRaised(_, error) => Stopped(Outcome(asked, Failed(error, false)))
      case LlmTimedOut(_) => Stopped(Outcome(asked, TimedOut(false)))
  }

  /** Steps `n` and up. */
  function Loop(w: World, cfg: Config, r: Run, n: nat): Outcome
    decreases cfg.maxSteps - n
  {
    if n > cfg.maxSteps then
      Outcome(Emit(r, cfg.maxSteps, Error(StepsExceeded)), StepsExceeded)
    else
      match Step(w, cfg, r, n)
      case Running(next) => Loop(w, cfg, next, n + 1)
      case Stopped(outcome) => outcome
  }

  /** The exception handlers around the loop report a failure or a timeout. */
  function Handled(kind: LoopKind, o: Outcome): Outcome {
    if o.ending.Failed? || o.ending.TimedOut? then
      var n := if kind.TurnLoop? then |o.run.steps| + 1 else |o.run.steps|;
      o.(run := Emit(o.run, n, Error(o.ending)))
    else o
  }

  /** The loop gets to its first event: its limits are numbers, and `wait_for` starts it
      only if the timeout is positive. */
  predicate Starts(w: World, cfg: Config) {
    w.fault.None? && cfg.timeout > 0.0
  }

  function Waited(w: World, cfg: Config, start: Run): Outcome {
    if Starts(w, cfg) then Loop(w, cfg, start, 1)
    else Outcome(start, if w.fault.Some? then Failed(w.fault.value, false) else TimedOut(false))
  }

  function Execute(w: World, cfg: Config, start: Run): Outcome {
    Handled(cfg.kind, Waited(w, cfg, start))
  }

  function UserText(text: string): Message {
    Message(User, Text(text))
  }

  function TaskStart(description: string): Run {
    Run([UserText(description)], [], [], [], 0, [description])
  }

  function TurnStart(history: seq<Message>, userMessage: string): Run {
    Run(history + [UserText(userMessage)], [], [], [], 0, [])
  }
}
