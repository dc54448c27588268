/** Money in the step loop: what is recorded, what is received, what is lost to a
    cancelled round, and how far a run can overshoot its budget. */
module LoopAccounts {
  import opened Models
  import opened AgentLoop

  function CallCost(c: LlmCall): int {
    if c.outcome.Replied? then ResponseCost(c.outcome.response) else 0
  }

  /** The cost of all responses received. */
  function Received(calls: seq<LlmCall>): int {
    if calls == [] then 0 else Received(calls[..|calls| - 1]) + CallCost(calls[|calls| - 1])
  }

  /** The cost of a response whose tool round did not finish. */
  function Lost(o: Outcome): int {
    if InRound(o.ending) && o.run.calls != [] then CallCost(o.run.calls[|o.run.calls| - 1]) else 0
  }

  /** Every call was made below the budget, with all earlier responses on record. */
  ghost predicate Accounted(cfg: Config, calls: seq<LlmCall>) {
    forall i :: 0 <= i < |calls| ==>
      && calls[i].spent == Received(calls[..i])
      && calls[i].spent < cfg.maxCost
      && (i < |calls| - 1 ==> calls[i].outcome.Replied?)
  }

  /** At the head of step `n`. */
  ghost predicate Balanced(cfg: Config, r: Run, n: nat) {
    && n >= 1
    && |r.calls| == n - 1
    && Accounted(cfg, r.calls)
    && (forall c <- r.calls :: c.outcome.Replied?)
    && SumCost(r.steps) == Received(r.calls)
  }

  ghost predicate Settled(cfg: Config, o: Outcome) {
    && Accounted(cfg, o.run.calls)
    && SumCost(o.run.steps) + Lost(o) == Received(o.run.calls)
    && (InRound(o.ending) ==> o.run.calls != [] && o.run.calls[|o.run.calls| - 1].outcome.Replied?)
    && (o.ending == CostExceeded ==> SumCost(o.run.steps) >= cfg.maxCost)
  }

  lemma {:induction false} ZeroStepsCostNothing(steps: seq<StepResult>)
    requires forall i :: 0 <= i < |steps| ==> StepCost(steps[i]) == 0
    ensures SumCost(steps) == 0
  {
    if steps != [] {
      ZeroStepsCostNothing(steps[..|steps| - 1]);
    }
  }

  lemma RoundCostsItsResponse(n: nat, resp: LLMResponse, uses: seq<ToolUse>, output: nat -> ToolOutput)
    requires uses != []
    ensures SumCost(RoundSteps(n, resp, uses, output)) == ResponseCost(resp)
  {
    var steps := RoundSteps(n, resp, uses, output);
    var first, others := steps[0], steps[1..];
    assert StepCost(first) == ResponseCost(resp);
    forall i | 0 <= i < |others| ensures StepCost(others[i]) == 0 {
      assert others[i] == RoundStep(n, resp, uses[i + 1], output(i + 1), i + 1);
    }
    hide RoundSteps, RoundStep, StepCost;
    ZeroStepsCostNothing(others);
    SumCostConcat([first], others);
    assert [first] + others == steps;
    assert SumCost([first]) == StepCost(first) by {
      assert [first][..0] == [];
    }
  }

  lemma OneMoreCall(cfg: Config, calls: seq<LlmCall>, c: LlmCall)
    requires Accounted(cfg, calls) && forall d <- calls :: d.outcome.Replied?
    requires c.spent == Received(calls) < cfg.maxCost
    ensures Accounted(cfg, calls + [c])
    ensures Received(calls + [c]) == Received(calls) + CallCost(c)
  {
    var all := calls + [c];
    assert all[..|all| - 1] == calls;
    forall i | 0 <= i < |all|
      ensures all[i].spent == Received(all[..i]) && all[i].spent < cfg.maxCost
      ensures i < |all| - 1 ==> all[i].outcome.Replied?
    {
      if i < |calls| {
        assert all[..i] == calls[..i];
        assert calls[i] in calls;
      }
    }
  }

  lemma AfterReplyBalances(w: World, kind: LoopKind, r: Run, n: nat, resp: LLMResponse)
    ensures match AfterReply(w, kind, r, n, resp)
            case Running(next) =>
              next.calls == r.calls && SumCost(next.steps) == SumCost(r.steps) + ResponseCost(resp)
            case Stopped(o) =>
              && o.run.calls == r.calls
              && (o.ending.Completed? || InRound(o.ending))
              && SumCost(o.run.steps) + (if InRound(o.ending) then ResponseCost(resp) else 0)
                 == SumCost(r.steps) + ResponseCost(resp)
  {
    var uses := ToolUses(resp.content);
    if uses == [] {
      var step := StepResult(n, None, "{}", None, ResponseText(resp), resp.inputTokens, resp.outputTokens);
      assert (r.steps + [step])[..|r.steps|] == r.steps;
    } else if w.tools(n).Gathered? {
      RoundCostsItsResponse(n, resp, uses, w.tools(n).output);
      SumCostConcat(r.steps, RoundSteps(n, resp, uses, w.tools(n).output));
    }
  }

  lemma GuardKeepsAccounts(kind: LoopKind, r: Run, n: nat)
    ensures Guarded(kind, r, n).steps == r.steps && Guarded(kind, r, n).calls == r.calls
  {
  }

  lemma StepBalances(w: World, cfg: Config, r: Run, n: nat)
    requires Balanced(cfg, r, n) && n <= cfg.maxSteps
    ensures match Step(w, cfg, r, n)
            case Running(next) => Balanced(cfg, next, n + 1)
            case Stopped(o) => Settled(cfg, o) && |o.run.calls| <= n && o.ending != StepsExceeded
  {
    hide AgentLoop.AfterReply, AgentLoop.Guarded, SumCost, Accounted, Received;
    if SumCost(r.steps) < cfg.maxCost {
      GuardKeepsAccounts(cfg.kind, r, n);
      var guarded := Guarded(cfg.kind, r, n);
      var asked := Asked(guarded, n, w.llm(n));
      OneMoreCall(cfg, r.calls, LlmCall(guarded.messages, SumCost(r.steps), w.llm(n)));
      match w.llm(n)
      case Replied(_, resp) =>
        AfterReplyBalances(w, cfg.kind, asked, n, resp);
      case LlmRaised(_, _) =>
      case LlmTimedOut(_) =>
    }
  }

  lemma {:induction false} LoopSettles(w: World, cfg: Config, r: Run, n: nat)
    requires Balanced(cfg, r, n)
    ensures var o := Loop(w, cfg, r, n);
            && Settled(cfg, o)
            && |o.run.calls| <= (if n - 1 > cfg.maxSteps then n - 1 else if cfg.maxSteps > 0 then cfg.maxSteps else 0)
            && (o.ending == StepsExceeded ==> |o.run.calls| >= cfg.maxSteps)
    decreases cfg.maxSteps - n
  {
    if n <= cfg.maxSteps {
      StepBalances(w, cfg, r, n);
      var p := Step(w, cfg, r, n);
      if p.Running? {
        LoopSettles(w, cfg, p.run, n + 1);
      }
    }
  }

  /** A run that has spent nothing and asked nothing yet: a task or a turn at its start. */
  predicate Fresh(r: Run) {
    r.steps == [] && r.calls == [] && r.events == []
  }

  /** Conservation: the recorded steps add up to everything the provider charged,
      except that a run cut off inside a tool round misses exactly the one response
      that asked for the round. */
  lemma CostConservation(w: World, cfg: Config, start: Run)
    requires Fresh(start)
    ensures var o := Execute(w, cfg, start);
            && SumCost(o.run.steps) + Lost(o) == Received(o.run.calls)
            && (!InRound(o.ending) ==> SumCost(o.run.steps) == Received(o.run.calls))
            && (InRound(o.ending) ==>
                  && o.run.calls != []
                  && SumCost(o.run.steps) == o.run.calls[|o.run.calls| - 1].spent)
  {
    LoopSettles(w, cfg, start, 1);
    var o := Loop(w, cfg, start, 1);
    var k := |o.run.calls|;
    hide AgentLoop.Loop;
    if k > 0 {
      assert Received(o.run.calls) == Received(o.run.calls[..k - 1]) + CallCost(o.run.calls[k - 1]);
    }
  }

  /** The budget bound: every call is made strictly below the budget and with the
      cost of all earlier responses counted, only the last call can go unanswered,
      there are at most `maxSteps` calls, and the final cost stays below the budget
      plus the last response. */
  lemma BudgetBound(w: World, cfg: Config, start: Run)
    requires Fresh(start)
    ensures var o := Execute(w, cfg, start);
            var calls := o.run.calls;
            && Accounted(cfg, calls)
            && |calls| <= (if cfg.maxSteps > 0 then cfg.maxSteps else 0)
            && (calls == [] ==> SumCost(o.run.steps) == 0)
            && (calls != [] ==> SumCost(o.run.steps) < cfg.maxCost + CallCost(calls[|calls| - 1]) - Lost(o))
            && (o.ending == CostExceeded ==> SumCost(o.run.steps) >= cfg.maxCost)
            && (o.ending == StepsExceeded ==> |calls| >= cfg.maxSteps)
  {
    LoopSettles(w, cfg, start, 1);
    CostConservation(w, cfg, start);
    var calls := Execute(w, cfg, start).run.calls;
    if calls != [] {
      var k := |calls|;
      assert calls[k - 1].spent == Received(calls[..k - 1]);
      assert Received(calls) == Received(calls[..k - 1]) + CallCost(calls[k - 1]);
    }
  }
}
