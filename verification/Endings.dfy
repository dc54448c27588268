/** How runs end, what their caller is told, and what their requests are bounded by
    (enclave/agent/controller.py:369-666 and 707-947). */
module Endings {
  import opened Models
  import opened Compaction
  import opened AgentLoop
  import opened LoopAccounts
  import opened Pairing
  import opened Transcript
  import opened Controller

  // ---- Causes ----

  /** Step `n` was asked for tools. */
  predicate AskedForTools(w: World, n: nat) {
    w.llm(n).Replied? && ToolUses(w.llm(n).response.content) != []
  }

  /** The loop goes on behind step `n`. */
  predicate WentOn(w: World, n: nat) {
    AskedForTools(w, n) && w.tools(n).Gathered?
  }

  predicate AllWentOn(w: World, k: nat) {
    forall n :: 1 <= n <= k ==> WentOn(w, n)
  }

  predicate Answered(w: World, n: nat, text: string) {
    && w.llm(n).Replied? && ToolUses(w.llm(n).response.content) == []
    && ResponseText(w.llm(n).response) == text
  }

  /** Why the loop stops in step `n`, if it does not stop at a guard. */
  predicate StopsIn(w: World, n: nat, e: Ending) {
    match e
    case Completed(text) => Answered(w, n, text)
    case CostExceeded => false
    case StepsExceeded => false
    case Failed(error, inRound) =>
      if inRound then
        && AskedForTools(w, n)
        && (w.tools(n) == RoundRaised(error) || (w.tools(n).AnnounceRaised? && w.tools(n).error == error))
      else w.llm(n).LlmRaised? && w.llm(n).error == error
    case TimedOut(inRound) =>
      if inRound then AskedForTools(w, n) && w.tools(n).RoundTimedOut? else w.llm(n).LlmTimedOut?
  }

  /** Why a run ends behind `k` requests. */
  predicate Caused(w: World, cfg: Config, o: Outcome, k: nat) {
    if !Starts(w, cfg) then
      k == 0 && o.ending == if w.fault.Some? then Failed(w.fault.value, false) else TimedOut(false)
    else if o.ending == CostExceeded then
      AllWentOn(w, k) && SumCost(o.run.steps) >= cfg.maxCost && k < cfg.maxSteps
    else if o.ending == StepsExceeded then
      AllWentOn(w, k) && k == if cfg.maxSteps > 0 then cfg.maxSteps else 0
    else
      k > 0 && AllWentOn(w, k - 1) && StopsIn(w, k, o.ending)
  }

  lemma ReplyCauses(w: World, kind: LoopKind, r: Run, n: nat, resp: LLMResponse)
    requires w.llm(n).Replied? && w.llm(n).response == resp
    ensures match AfterReply(w, kind, r, n, resp)
            case Running(_) => WentOn(w, n)
            case Stopped(o) => !o.ending.CostExceeded? && !o.ending.StepsExceeded? && StopsIn(w, n, o.ending)
  {
    hide ToolUses, ResponseText, Reported, Concluded;
  }

  lemma StepCauses(w: World, cfg: Config, r: Run, n: nat)
    requires n >= 1 && |r.calls| == n - 1 && AllWentOn(w, n - 1) && Starts(w, cfg) && n <= cfg.maxSteps
    ensures match Step(w, cfg, r, n)
            case Running(next) => |next.calls| == n && AllWentOn(w, n)
            case Stopped(o) => Caused(w, cfg, o, |o.run.calls|)
  {
    hide AfterReply, Guarded, SumCost, StopsIn, WentOn;
    if SumCost(r.steps) < cfg.maxCost {
      GuardKeepsAccounts(cfg.kind, r, n);
      var asked := Asked(Guarded(cfg.kind, r, n), n, w.llm(n));
      match w.llm(n)
      case Replied(_, resp) =>
        ReplyCauses(w, cfg.kind, asked, n, resp);
        ReplyKeepsCalls(w, cfg.kind, asked, n, resp);
      case LlmRaised(_, error) =>
        assert StopsIn(w, n, Failed(error, false)) by { LlmStops(w, n); }
      case LlmTimedOut(_) =>
        assert StopsIn(w, n, TimedOut(false)) by { LlmStops(w, n); }
    }
  }

  lemma LlmStops(w: World, n: nat)
    ensures w.llm(n).LlmRaised? ==> StopsIn(w, n, Failed(w.llm(n).error, false))
    ensures w.llm(n).LlmTimedOut? ==> StopsIn(w, n, TimedOut(false))
  {
  }

  lemma {:induction false} LoopCauses(w: World, cfg: Config, r: Run, n: nat)
    requires n >= 1 && |r.calls| == n - 1 && AllWentOn(w, n - 1) && Starts(w, cfg)
    requires n == 1 || n - 1 <= cfg.maxSteps
    ensures var o := Loop(w, cfg, r, n); Caused(w, cfg, o, |o.run.calls|)
    decreases cfg.maxSteps - n
  {
    hide AgentLoop.Step, Caused, AllWentOn, Starts;
    if n <= cfg.maxSteps {
      StepCauses(w, cfg, r, n);
      match Step(w, cfg, r, n)
      case Running(next) =>
        LoopCauses(w, cfg, next, n + 1);
        assert Loop(w, cfg, r, n) == Loop(w, cfg, next, n + 1);
      case Stopped(o) =>
    } else {
      StepLimitCauses(w, cfg, Loop(w, cfg, r, n));
    }
  }

  lemma StepLimitCauses(w: World, cfg: Config, o: Outcome)
    requires o.ending == StepsExceeded && Starts(w, cfg) && AllWentOn(w, |o.run.calls|)
    requires |o.run.calls| == if cfg.maxSteps > 0 then cfg.maxSteps else 0
    ensures Caused(w, cfg, o, |o.run.calls|)
  {
    hide AllWentOn, StopsIn, Starts;
  }

  /** Every run ends for exactly one reason, which its ending names: all requests but the last
      asked for tools that returned; the last one did so too if a limit is reached, and
      otherwise is the one that answered, failed or timed out, alone or in its round. */
  lemma EndingHasCause(w: World, cfg: Config, start: Run)
    requires Fresh(start)
    ensures var o := Execute(w, cfg, start); Caused(w, cfg, o, |o.run.calls|)
  {
    if Starts(w, cfg) {
      LoopCauses(w, cfg, start, 1);
    }
  }

  // ---- What the caller is told ----

  predicate EndsWith(events: seq<StepEvent>, body: EventBody) {
    events != [] && events[|events| - 1].body == body
  }

  predicate EndingIsTold(o: Outcome) {
    EndsWith(o.run.events, if o.ending.Completed? then Complete(o.ending.text) else Error(o.ending))
  }

  lemma {:induction false} LoopTellsEnding(w: World, cfg: Config, r: Run, n: nat)
    ensures EndingIsTold(Handled(cfg.kind, Loop(w, cfg, r, n)))
    decreases cfg.maxSteps - n
  {
    hide Guarded, Asked, Reported, ResponseText;
    if n <= cfg.maxSteps && Step(w, cfg, r, n).Running? {
      LoopTellsEnding(w, cfg, Step(w, cfg, r, n).run, n + 1);
    }
  }

  /** The result of a task agrees with its stream: it is a success exactly if the stream ends
      with the final reply, which then is the text of the result, and only then the steps are
      attested, with the description; otherwise both name the same ending. */
  lemma ResultTells(w: World, task: TaskRequest, defaultTimeout: real)
    ensures var run := Execute(w, TaskConfig(task, defaultTimeout), TaskStart(task.description)).run;
            var r := ResultOf(Execute(w, TaskConfig(task, defaultTimeout), TaskStart(task.description)));
            && (r.success <==> r.ending.Completed?)
            && EndsWith(run.events, if r.success then Complete(r.ending.text) else Error(r.ending))
            && r.steps == run.steps
            && r.attested == if r.success then Some(Attested(TranscriptOf(task.description, r.steps))) else None
  {
    var cfg, start := TaskConfig(task, defaultTimeout), TaskStart(task.description);
    TranscriptIsRecomputable(w, cfg, task.description);
    LoopTellsEnding(w, cfg, start, 1);
    hide AgentLoop.Loop, TranscriptOf, Attested, SumCost;
  }

  // ---- Requests ----

  /** A task that names no limits makes at most fifty calls, and each of them before five
      dollars are spent; limits it names hold instead. It asks the model at all exactly if its
      timeout is positive. */
  lemma TaskLimits(w: World, task: TaskRequest, defaultTimeout: real)
    ensures var calls := Execute(w, TaskConfig(task, defaultTimeout), TaskStart(task.description)).run.calls;
            && (task.maxSteps == 0 ==> |calls| <= 50)
            && (task.maxSteps > 0 ==> |calls| <= task.maxSteps)
            && (task.maxSteps < 0 ==> calls == [])
            && (forall i :: 0 <= i < |calls| ==> calls[i].spent < if task.budget == 0 then 5_000_000 else task.budget)
            && ((if task.timeout == 0.0 then defaultTimeout else task.timeout) <= 0.0 ==> calls == [])
            && (calls == [] && w.fault.None? && task.maxSteps >= 0 && task.budget >= 0 ==>
                  (if task.timeout == 0.0 then defaultTimeout else task.timeout) <= 0.0)
  {
    var cfg, start := TaskConfig(task, defaultTimeout), TaskStart(task.description);
    BudgetBound(w, cfg, start);
    EndingHasCause(w, cfg, start);
    assert !Starts(w, cfg) ==> Execute(w, cfg, start).run.calls == [];
    hide Execute, AllWentOn, StopsIn;
  }

  /** The guard acts only in a turn and on a history that is over the limit and has more than
      six messages: it reports a checkpoint exactly then, but leaves the history alone if it
      has just seven. */
  lemma GuardActsExactly(kind: LoopKind, r: Run, n: nat)
    ensures var acts := kind.TurnLoop? && HistoryTokens(kind.systemPrompt, r.messages) > kind.compactLimit && |r.messages| > 6;
            && Guarded(kind, r, n).events == r.events + (if acts then [StepEvent(n, Checkpoint)] else [])
            && (!acts || |r.messages| == 7 ==> Guarded(kind, r, n).messages == r.messages)
            && (acts && |r.messages| > 7 ==> |Guarded(kind, r, n).messages| == 8)
  {
    if NeedsCompaction(kind, r.messages) {
      GuardedCompaction(kind.systemPrompt, r.messages, kind.compactLimit);
    }
    hide Compacted, HistoryTokens;
  }

  /** A request fits the limit or has at most eight messages. */
  predicate Bounded(systemPrompt: string, limit: int, prompt: seq<Message>) {
    HistoryTokens(systemPrompt, prompt) <= limit || |prompt| <= 8
  }

  ghost predicate AllBounded(systemPrompt: string, limit: int, calls: seq<LlmCall>) {
    forall c <- calls :: Bounded(systemPrompt, limit, c.prompt)
  }

  lemma GuardBounds(systemPrompt: string, limit: int, r: Run, n: nat)
    ensures Bounded(systemPrompt, limit, Guarded(TurnLoop(systemPrompt, limit), r, n).messages)
  {
    var h := r.messages;
    if HistoryTokens(systemPrompt, h) > limit && |h| > 6 {
      GuardedCompaction(systemPrompt, h, limit);
    }
    hide Compacted, MessagesTokens;
  }

  lemma StepBounds(w: World, cfg: Config, r: Run, n: nat)
    requires cfg.kind.TurnLoop? && AllBounded(cfg.kind.systemPrompt, cfg.kind.compactLimit, r.calls)
    ensures var p := Step(w, cfg, r, n);
            AllBounded(cfg.kind.systemPrompt, cfg.kind.compactLimit, (if p.Running? then p.run else p.outcome.run).calls)
  {
    GuardBounds(cfg.kind.systemPrompt, cfg.kind.compactLimit, r, n);
    GuardKeepsAccounts(cfg.kind, r, n);
    hide AfterReply, Guarded, SumCost, Bounded;
    var asked := Asked(Guarded(cfg.kind, r, n), n, w.llm(n));
    if w.llm(n).Replied? {
      ReplyKeepsCalls(w, cfg.kind, asked, n, w.llm(n).response);
    }
  }

  lemma {:induction false} LoopBounds(w: World, cfg: Config, r: Run, n: nat)
    requires cfg.kind.TurnLoop? && AllBounded(cfg.kind.systemPrompt, cfg.kind.compactLimit, r.calls)
    ensures AllBounded(cfg.kind.systemPrompt, cfg.kind.compactLimit, Loop(w, cfg, r, n).run.calls)
    decreases cfg.maxSteps - n
  {
    if n <= cfg.maxSteps {
      StepBounds(w, cfg, r, n);
      hide AgentLoop.Step, AllBounded;
      var p := Step(w, cfg, r, n);
      if p.Running? {
        LoopBounds(w, cfg, p.run, n + 1);
      }
    }
  }

  /** Every request of every turn, whatever history it began with, fits the context window or
      has at most eight messages. */
  lemma RequestsAreBounded(t: Turn, history: seq<Message>)
    ensures AllBounded(t.systemPrompt, t.compactLimit, RunTurn(t, history).run.calls)
  {
    LoopBounds(t.world, TurnConfig(t), TurnStart(history, t.userMessage), 1);
  }
}
