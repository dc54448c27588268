/** A turn that ends at the step or cost guard leaves its tool results last. The next turn
    appends a second user message, roles no longer alternate, and a later compaction can
    cut tool results off from their calls although no round was ever cut off. */
module GuardExits {
  import opened Models
  import opened Compaction
  import opened AgentLoop
  import opened LoopAccounts
  import opened Pairing

  // ---- What a guard exit leaves behind ----

  predicate ResultsLast(h: seq<Message>) {
    |h| >= 3 && BearsResults(h[|h| - 1])
  }

  lemma ReplyLeavesResults(w: World, kind: LoopKind, r: Run, n: nat, resp: LLMResponse)
    requires r.messages != []
    ensures match AfterReply(w, kind, r, n, resp)
            case Running(next) => ResultsLast(next.messages)
            case Stopped(o) => o.ending != StepsExceeded && o.ending != CostExceeded
  {
    var uses := ToolUses(resp.content);
    if uses != [] && w.tools(n).Gathered? {
      ResultsAreResults(uses, w.tools(n).output);
    }
  }

  lemma GuardKeepsSome(kind: LoopKind, r: Run, n: nat)
    requires r.messages != []
    ensures Guarded(kind, r, n).messages != []
  {
  }

  lemma StepLeavesResults(w: World, cfg: Config, r: Run, n: nat)
    requires r.messages != []
    ensures match Step(w, cfg, r, n)
            case Running(next) => ResultsLast(next.messages)
            case Stopped(o) =>
              && o.ending != StepsExceeded
              && (o.ending == CostExceeded <==> SumCost(r.steps) >= cfg.maxCost)
              && (o.ending == CostExceeded ==> o.run.messages == r.messages)
  {
    if SumCost(r.steps) < cfg.maxCost {
      GuardKeepsSome(cfg.kind, r, n);
      hide AgentLoop.Guarded, AgentLoop.AfterReply, SumCost;
      var asked := Asked(Guarded(cfg.kind, r, n), n, w.llm(n));
      if w.llm(n).Replied? {
        ReplyLeavesResults(w, cfg.kind, asked, n, w.llm(n).response);
      }
    }
  }

  /** Behind the first step. */
  lemma {:induction false} LoopLeavesResults(w: World, cfg: Config, r: Run, n: nat)
    requires ResultsLast(r.messages)
    ensures var o := Loop(w, cfg, r, n);
            o.ending == StepsExceeded || o.ending == CostExceeded ==> ResultsLast(o.run.messages)
    decreases cfg.maxSteps - n
  {
    if n <= cfg.maxSteps {
      StepLeavesResults(w, cfg, r, n);
      hide AgentLoop.Step;
      match Step(w, cfg, r, n)
      case Running(next) =>
        LoopLeavesResults(w, cfg, next, n + 1);
      case Stopped(_) =>
    }
  }

  lemma FirstStepLeavesResults(w: World, cfg: Config, r: Run)
    requires r.messages != [] && r.steps == []
    ensures var o := Loop(w, cfg, r, 1);
            o.ending == StepsExceeded || o.ending == CostExceeded ==>
              if cfg.maxSteps >= 1 && cfg.maxCost > 0 then ResultsLast(o.run.messages)
              else o.run.messages == r.messages
  {
    if cfg.maxSteps >= 1 {
      StepLeavesResults(w, cfg, r, 1);
      hide AgentLoop.Step;
      match Step(w, cfg, r, 1)
      case Running(next) =>
        LoopLeavesResults(w, cfg, next, 2);
      case Stopped(_) =>
    }
  }

  /** Every turn that a guard ends, on any history, leaves the results of its last round
      last, except if the guard let no step begin; and then the user message of the next
      turn follows them directly. */
  lemma GuardExitLeavesResultsLast(t: Turn, history: seq<Message>, nextMessage: string)
    ensures var o := RunTurn(t, history);
            o.ending == StepsExceeded || o.ending == CostExceeded ==>
              && (ResultsLast(o.run.messages) <==> t.maxSteps >= 1 && t.maxCost > 0)
              && (ResultsLast(o.run.messages) ==> !Alternates(o.run.messages + [UserText(nextMessage)]))
  {
    hide AgentLoop.Loop;
    FirstStepLeavesResults(t.world, TurnConfig(t), TurnStart(history, t.userMessage));
    var h := RunTurn(t, history).run.messages;
    if ResultsLast(h) {
      var next := h + [UserText(nextMessage)];
      assert next[|h| - 1].role == next[|h| - 1 + 1].role;
    }
  }

  // ---- Sessions that lose their pairing ----

  /** In step `n` the model asks for tools, and they all finish. */
  predicate RunsTools(w: World, n: nat) {
    w.llm(n).Replied? && ToolUses(w.llm(n).response.content) != [] && w.tools(n).Gathered?
  }

  function StepPrice(w: World, n: nat): int
    requires RunsTools(w, n)
  {
    ResponseCost(w.llm(n).response)
  }

  /** The assistant's calls and the user message with their results. */
  function Round(w: World, n: nat): seq<Message>
    requires RunsTools(w, n)
  {
    [Message(Assistant, Blocks(w.llm(n).response.content)),
     Message(User, Blocks(RoundResults(ToolUses(w.llm(n).response.content), w.tools(n).output)))]
  }

  lemma AppendUserText(h: seq<Message>, text: string)
    requires WellPaired(h)
    ensures WellPaired(h + [UserText(text)])
  {
    PairedAfterText(h, UserText(text));
  }

  lemma AppendRound(h: seq<Message>, w: World, n: nat)
    requires RunsTools(w, n) && WellPaired(h)
    ensures WellPaired(h + Round(w, n)) && BearsResults(Round(w, n)[1])
  {
    ResultsAreResults(ToolUses(w.llm(n).response.content), w.tools(n).output);
    PairedAfterRound(h, Round(w, n)[0], Round(w, n)[1]);
  }

  lemma RoundReply(w: World, kind: LoopKind, r: Run, n: nat)
    requires RunsTools(w, n)
    ensures var p := AfterReply(w, kind, r, n, w.llm(n).response);
            p.Running? && p.run.messages == r.messages + Round(w, n)
  {
    assert r.messages + [Round(w, n)[0]] + [Round(w, n)[1]] == r.messages + Round(w, n);
  }

  /** Such a step with too few messages to compact, when the cost guard lets it pass. */
  lemma ShortStep(w: World, cfg: Config, r: Run, n: nat) returns (next: Run)
    requires RunsTools(w, n) && SumCost(r.steps) < cfg.maxCost && |r.messages| <= MIN_RECENT_MESSAGES
    ensures Step(w, cfg, r, n) == Running(next)
    ensures next.messages == r.messages + Round(w, n)
    ensures SumCost(next.steps) == SumCost(r.steps) + StepPrice(w, n)
  {
    assert Guarded(cfg.kind, r, n) == r;
    var asked := Asked(r, n, w.llm(n));
    AfterReplyBalances(w, cfg.kind, asked, n, w.llm(n).response);
    RoundReply(w, cfg.kind, asked, n);
    hide AgentLoop.Guarded, AgentLoop.AfterReply, SumCost, Round;
    next := AfterReply(w, cfg.kind, asked, n, w.llm(n).response).run;
  }

  /** The history that one step of tools leaves when the step guard then ends the turn. */
  function ShortTurn(t: Turn): seq<Message>
    requires RunsTools(t.world, 1)
  {
    [UserText(t.userMessage)] + Round(t.world, 1)
  }

  /** The history at the head of the next turn's third step. */
  function ThirdHead(first: Turn, second: Turn): seq<Message>
    requires RunsTools(first.world, 1) && RunsTools(second.world, 1) && RunsTools(second.world, 2)
  {
    ShortTurn(first) + [UserText(second.userMessage)] + Round(second.world, 1) + Round(second.world, 2)
  }

  lemma ShortTurnLeaves(t: Turn)
    requires t.maxSteps == 1 && t.maxCost > 0 && Starts(t.world, TurnConfig(t)) && RunsTools(t.world, 1)
    ensures RunTurn(t, []).ending == StepsExceeded
    ensures RunTurn(t, []).run.messages == ShortTurn(t)
  {
    var w, cfg, start := t.world, TurnConfig(t), TurnStart([], t.userMessage);
    var next := ShortStep(w, cfg, start, 1);
    hide AgentLoop.Step, Round, RunsTools;
    assert Loop(w, cfg, next, 2) == Outcome(Emit(next, 1, Error(StepsExceeded)), StepsExceeded);
    assert Loop(w, cfg, start, 1) == Loop(w, cfg, next, 2);
    assert [] + [UserText(t.userMessage)] == [UserText(t.userMessage)];
  }

  lemma ThirdHeadIsPaired(first: Turn, second: Turn)
    requires RunsTools(first.world, 1) && RunsTools(second.world, 1) && RunsTools(second.world, 2)
    ensures var h := ThirdHead(first, second);
            |h| == 8 && Opening(h[0]) && WellPaired(h) && BearsResults(CutAt(h))
  {
    assert WellPaired([]);
    hide WellPaired, BearsResults, RunsTools;
    var h1 := [UserText(first.userMessage)];
    AppendUserText([], first.userMessage);
    assert [] + h1 == h1;
    AppendRound(h1, first.world, 1);
    var h4 := ShortTurn(first) + [UserText(second.userMessage)];
    AppendUserText(ShortTurn(first), second.userMessage);
    AppendRound(h4, second.world, 1);
    AppendRound(h4 + Round(second.world, 1), second.world, 2);
    assert CutAt(ThirdHead(first, second)) == Round(first.world, 1)[1];
  }

  /** The third step of a turn that starts with four messages and runs tools twice. */
  lemma HeadOfThirdStep(w: World, cfg: Config, r: Run)
    requires |r.messages| == 4 && SumCost(r.steps) == 0 && cfg.maxSteps >= 3
    requires RunsTools(w, 1) && RunsTools(w, 2)
    requires 0 < cfg.maxCost && StepPrice(w, 1) < cfg.maxCost && StepPrice(w, 1) + StepPrice(w, 2) < cfg.maxCost
    ensures var heads := Heads(w, cfg, r, 1);
            |heads| >= 3 && heads[2] == r.messages + Round(w, 1) + Round(w, 2)
  {
    var r2 := ShortStep(w, cfg, r, 1);
    var r3 := ShortStep(w, cfg, r2, 2);
    hide AgentLoop.Step, RunsTools, Round, SumCost, StepPrice, Heads;
    FirstHead(w, cfg, r3, 3);
    HeadBeforeStep(w, cfg, r2, 2, r3);
    HeadBeforeStep(w, cfg, r, 1, r2);
  }

  lemma FirstHead(w: World, cfg: Config, r: Run, n: nat)
    requires n <= cfg.maxSteps && SumCost(r.steps) < cfg.maxCost
    ensures Heads(w, cfg, r, n) != [] && Heads(w, cfg, r, n)[0] == r.messages
  {
    hide AgentLoop.Step;
  }

  lemma HeadBeforeStep(w: World, cfg: Config, r: Run, n: nat, next: Run)
    requires n <= cfg.maxSteps && SumCost(r.steps) < cfg.maxCost && Step(w, cfg, r, n) == Running(next)
    ensures Heads(w, cfg, r, n) == [r.messages] + Heads(w, cfg, next, n + 1)
  {
    hide AgentLoop.Step;
  }

  /** A session of two turns: the step guard ends the first one after a round of tools, and
      the second one runs tools twice and asks again. No round is cut off; but the third
      request is well paired only as long as the history fits the context window. */
  lemma ThirdRequestExactly(first: Turn, second: Turn)
    requires first.maxSteps == 1 && first.maxCost > 0 && Starts(first.world, TurnConfig(first)) && RunsTools(first.world, 1)
    requires second.maxSteps >= 3 && Starts(second.world, TurnConfig(second))
    requires RunsTools(second.world, 1) && RunsTools(second.world, 2)
    requires 0 < second.maxCost && StepPrice(second.world, 1) < second.maxCost
    requires StepPrice(second.world, 1) + StepPrice(second.world, 2) < second.maxCost
    ensures var o := RunTurn(second, RunTurn(first, []).run.messages);
            && RunTurn(first, []).ending == StepsExceeded
            && |o.run.calls| >= 3
            && (WellPaired(o.run.calls[2].prompt) <==>
                HistoryTokens(second.systemPrompt, ThirdHead(first, second)) <= second.compactLimit)
  {
    ShortTurnLeaves(first);
    ThirdHeadIsPaired(first, second);
    hide WellPaired, RunTurn, BearsResults, RunsTools, Opening, HistoryTokens;
    var h, kind := ShortTurn(first), TurnConfig(second).kind;
    TurnPromptsExact(second, h);
    HeadOfThirdStep(second.world, TurnConfig(second), TurnStart(h, second.userMessage));
    assert TurnHeads(second, h)[2] == ThirdHead(first, second);
    PairedUnlessBadCut(kind, ThirdHead(first, second));
  }

  lemma {:induction false} FirstTokens(h: seq<Message>)
    requires h != []
    ensures MessagesTokens(h) >= MessagesTokens([h[0]])
  {
    assert [h[0]] + h[1..] == h;
    MessagesTokensConcat([h[0]], h[1..]);
  }

  /** Whatever the limit, it is enough that the session's first message, which every
      compaction keeps, exceeds it together with the system prompt. */
  lemma GuardExitBreaksPairing(first: Turn, second: Turn)
    requires first.maxSteps == 1 && first.maxCost > 0 && Starts(first.world, TurnConfig(first)) && RunsTools(first.world, 1)
    requires second.maxSteps >= 3 && Starts(second.world, TurnConfig(second))
    requires RunsTools(second.world, 1) && RunsTools(second.world, 2)
    requires 0 < second.maxCost && StepPrice(second.world, 1) < second.maxCost
    requires StepPrice(second.world, 1) + StepPrice(second.world, 2) < second.maxCost
    requires HistoryTokens(second.systemPrompt, [UserText(first.userMessage)]) > second.compactLimit
    ensures var o := RunTurn(second, RunTurn(first, []).run.messages);
            |o.run.calls| >= 3 && !WellPaired(o.run.calls[2].prompt)
  {
    ThirdRequestExactly(first, second);
    hide RunTurn, RunsTools, WellPaired, MessagesTokens;
    FirstTokens(ThirdHead(first, second));
  }
}
