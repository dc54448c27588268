/** The results that the model is shown in the requests of a session are those of the steps
    that the session's turns recorded (enclave/agent/controller.py:668-947). */
module SessionResults {
  import opened Models
  import opened Compaction
  import opened AgentLoop
  import opened LoopAccounts
  import opened Pairing
  import opened RoundContents

  /** A result block shows the output of a recorded tool step. */
  predicate ShowsStep(b: ContentBlock, s: StepResult) {
    s.toolName.Some? && s.output.Some? && Conveys(b, s.output.value)
  }

  /** The step is that of this call, and the block bears the call's id. */
  predicate IsStepOf(b: ContentBlock, s: StepResult, call: ToolUse) {
    s.toolName == Some(call.name) && s.toolArgs == call.input && b.ToolResultBlock? && b.answer.toolUseId == call.id
  }

  function CallsBefore(h: seq<Message>, j: nat): seq<ToolUse>
    requires j < |h|
  {
    if j == 0 then [] else Calls(h[j - 1])
  }

  /** The blocks of a message show the steps from `k` on, one after the other; if the message
      stands behind calls, these are the steps of the calls, in order. */
  predicate ShowsSteps(blocks: seq<ContentBlock>, calls: seq<ToolUse>, steps: seq<StepResult>, k: nat) {
    && k + |blocks| <= |steps|
    && (calls != [] ==> |calls| == |blocks|)
    && forall i: nat :: i < |blocks| ==>
         ShowsStep(blocks[i], steps[k + i]) && (calls != [] ==> IsStepOf(blocks[i], steps[k + i], calls[i]))
  }

  ghost predicate ShowsSome(blocks: seq<ContentBlock>, calls: seq<ToolUse>, steps: seq<StepResult>) {
    exists k :: ShowsSteps(blocks, calls, steps, k)
  }

  ghost predicate DocumentedAt(h: seq<Message>, j: nat, steps: seq<StepResult>)
    requires j < |h|
  {
    BearsResults(h[j]) ==> ShowsSome(h[j].content.blocks, CallsBefore(h, j), steps)
  }

  /** Every message with results shows recorded steps. */
  ghost predicate Documented(h: seq<Message>, steps: seq<StepResult>) {
    forall j: nat :: j < |h| ==> DocumentedAt(h, j, steps)
  }

  lemma StepsGrow(blocks: seq<ContentBlock>, calls: seq<ToolUse>, steps: seq<StepResult>, more: seq<StepResult>, k: nat)
    requires ShowsSteps(blocks, calls, steps, k)
    ensures ShowsSteps(blocks, calls, steps + more, k)
  {
    hide ShowsStep, IsStepOf;
    forall i: nat | i < |blocks|
      ensures ShowsStep(blocks[i], (steps + more)[k + i])
      ensures calls != [] ==> IsStepOf(blocks[i], (steps + more)[k + i], calls[i])
    {
      assert (steps + more)[k + i] == steps[k + i];
    }
  }

  lemma DocumentedMore(h: seq<Message>, steps: seq<StepResult>, more: seq<StepResult>)
    requires Documented(h, steps)
    ensures Documented(h, steps + more)
  {
    hide ShowsSteps;
    forall j: nat | j < |h| ensures DocumentedAt(h, j, steps + more) {
      assert DocumentedAt(h, j, steps);
      if BearsResults(h[j]) {
        var k :| ShowsSteps(h[j].content.blocks, CallsBefore(h, j), steps, k);
        StepsGrow(h[j].content.blocks, CallsBefore(h, j), steps, more, k);
      }
    }
  }

  lemma DocumentedAppend(h: seq<Message>, m: Message, steps: seq<StepResult>)
    requires Documented(h, steps)
    requires BearsResults(m) ==> ShowsSome(m.content.blocks, if h == [] then [] else Calls(h[|h| - 1]), steps)
    ensures Documented(h + [m], steps)
  {
    hide ShowsSteps, BearsResults, Calls;
    var all := h + [m];
    forall j: nat | j < |all| ensures DocumentedAt(all, j, steps) {
      if j < |h| {
        assert DocumentedAt(h, j, steps);
        assert CallsBefore(all, j) == CallsBefore(h, j);
      } else {
        assert CallsBefore(all, j) == if h == [] then [] else Calls(h[|h| - 1]);
      }
    }
  }

  lemma DocumentedCut(h: seq<Message>, summary: Message, steps: seq<StepResult>)
    requires |h| > 7 && Opening(h[0]) && Opening(summary) && Documented(h, steps)
    ensures Documented([h[0], summary] + Recent(h), steps)
  {
    var cut, shift := [h[0], summary] + Recent(h), |h| - 8;
    assert Calls(summary) == [] && !BearsResults(summary) && !BearsResults(h[0]);
    hide BearsResults, Calls, ShowsSteps;
    forall j: nat | j < |cut| ensures DocumentedAt(cut, j, steps) {
      if j >= 2 {
        assert cut[j] == h[shift + j] && DocumentedAt(h, shift + j, steps);
        assert CallsBefore(cut, j) == if j == 2 then [] else CallsBefore(h, shift + j);
        if BearsResults(cut[j]) && j == 2 {
          WithoutCalls(cut[j].content.blocks, CallsBefore(h, shift + j), steps);
        }
      }
    }
  }

  lemma WithoutCalls(blocks: seq<ContentBlock>, calls: seq<ToolUse>, steps: seq<StepResult>)
    requires ShowsSome(blocks, calls, steps)
    ensures ShowsSome(blocks, [], steps)
  {
    var k :| ShowsSteps(blocks, calls, steps, k);
    assert ShowsSteps(blocks, [], steps, k);
  }

  lemma GuardKeepsDocumented(kind: LoopKind, r: Run, n: nat, steps: seq<StepResult>)
    requires r.messages != [] && Opening(r.messages[0]) && Documented(r.messages, steps)
    ensures var h := Guarded(kind, r, n).messages; h != [] && Opening(h[0]) && Documented(h, steps)
  {
    hide Documented, Summary;
    var h := r.messages;
    if NeedsCompaction(kind, h) {
      GuardedCompaction(kind.systemPrompt, h, kind.compactLimit);
      if |h| > 7 {
        SummaryIsPlain(Middle(h));
        DocumentedCut(h, Summary(Middle(h)), steps);
        assert Guarded(kind, r, n).messages == [h[0], Summary(Middle(h))] + Recent(h);
      }
    }
  }

  /** A round's results show the steps just recorded. */
  lemma RoundShowsSteps(m: Message, n: nat, resp: LLMResponse, output: nat -> ToolOutput,
                        before: seq<StepResult>, steps: seq<StepResult>)
    requires ResultsConvey(m, ToolUses(resp.content), output) && StepsRecord(steps, n, resp, output)
    ensures ShowsSteps(m.content.blocks, ToolUses(resp.content), before + steps, |before|)
  {
    var uses, all := ToolUses(resp.content), before + steps;
    hide ToolUses, Conveys, ResponseText;
    forall i: nat | i < |uses|
      ensures ShowsStep(m.content.blocks[i], all[|before| + i]) && IsStepOf(m.content.blocks[i], all[|before| + i], uses[i])
    {
      assert all[|before| + i] == steps[i];
      assert Records(steps[i], n, resp, uses[i], output(i), i);
      assert Conveys(m.content.blocks[i], output(i));
      ConveysIsResult(m.content.blocks[i], output(i));
    }
  }

  lemma ConveysIsResult(b: ContentBlock, out: ToolOutput)
    requires Conveys(b, out)
    ensures b.ToolResultBlock?
  {
  }

  lemma SaidIsDocumented(h: seq<Message>, said: Message, steps: seq<StepResult>)
    requires h != [] && said.role.Assistant? && Documented(h, steps)
    ensures Documented(h + [said], steps)
  {
    DocumentedAppend(h, said, steps);
  }

  lemma ResultsAreDocumented(h: seq<Message>, n: nat, resp: LLMResponse, output: nat -> ToolOutput,
                             before: seq<StepResult>)
    requires h != [] && Documented(h, before) && ToolUses(resp.content) != []
    requires h[|h| - 1] == Message(Assistant, Blocks(resp.content))
    ensures Documented(h + [Message(User, Blocks(RoundResults(ToolUses(resp.content), output)))],
                       before + RoundSteps(n, resp, ToolUses(resp.content), output))
  {
    var uses := ToolUses(resp.content);
    var results, steps := Message(User, Blocks(RoundResults(uses, output))), RoundSteps(n, resp, uses, output);
    assert Calls(h[|h| - 1]) == uses;
    RoundConveys(uses, output);
    RoundRecords(n, resp, output);
    hide ToolUses, RoundResults, RoundSteps, ResultsConvey, StepsRecord, Documented, ShowsSteps, Calls;
    DocumentedMore(h, before, steps);
    RoundShowsSteps(results, n, resp, output, before, steps);
    DocumentedAppend(h, results, before + steps);
  }

  lemma ReplyKeepsDocumented(w: World, kind: LoopKind, r: Run, n: nat, resp: LLMResponse, base: seq<StepResult>)
    requires r.messages != [] && Documented(r.messages, base + r.steps)
    ensures var p := AfterReply(w, kind, r, n, resp);
            var next := if p.Running? then p.run else p.outcome.run;
            && next.calls == r.calls && StartsWith(next.messages, r.messages[0])
            && Extends(r.steps, next.steps) && Documented(next.messages, base + next.steps)
  {
    hide Documented, ToolUses, RoundResults, RoundSteps;
    var h, said, uses := r.messages, Message(Assistant, Blocks(resp.content)), ToolUses(resp.content);
    SaidIsDocumented(h, said, base + r.steps);
    if uses == [] {
      var step := StepResult(n, None, "{}", None, ResponseText(resp), resp.inputTokens, resp.outputTokens);
      DocumentedMore(h, base + r.steps, [step]);
      DocumentedMore(h + [said], base + r.steps, [step]);
      assert base + (r.steps + [step]) == base + r.steps + [step];
    } else if w.tools(n).Gathered? {
      var output := w.tools(n).output;
      ResultsAreDocumented(h + [said], n, resp, output, base + r.steps);
      assert base + (r.steps + RoundSteps(n, resp, uses, output)) == base + r.steps + RoundSteps(n, resp, uses, output);
    }
  }

  predicate Extends(steps: seq<StepResult>, more: seq<StepResult>) {
    |steps| <= |more| && more[..|steps|] == steps
  }

  ghost predicate AllDocumented(calls: seq<LlmCall>, steps: seq<StepResult>) {
    forall i :: 0 <= i < |calls| ==> Documented(calls[i].prompt, steps)
  }

  lemma AllDocumentedMore(calls: seq<LlmCall>, base: seq<StepResult>, steps: seq<StepResult>, more: seq<StepResult>)
    requires AllDocumented(calls, base + steps) && Extends(steps, more)
    ensures AllDocumented(calls, base + more)
  {
    var rest := more[|steps|..];
    assert base + more == base + steps + rest;
    hide Documented;
    forall i | 0 <= i < |calls| ensures Documented(calls[i].prompt, base + more) {
      DocumentedMore(calls[i].prompt, base + steps, rest);
    }
  }

  /** The run's history and requests, as far as it has got. */
  ghost predicate RunDocumented(r: Run, base: seq<StepResult>) {
    && r.messages != [] && Opening(r.messages[0])
    && Documented(r.messages, base + r.steps) && AllDocumented(r.calls, base + r.steps)
  }

  lemma AskingKeepsDocumented(kind: LoopKind, r: Run, n: nat, outcome: LlmOutcome, base: seq<StepResult>)
    requires RunDocumented(r, base)
    ensures RunDocumented(Asked(Guarded(kind, r, n), n, outcome), base)
  {
    GuardKeepsDocumented(kind, r, n, base + r.steps);
    GuardKeepsAccounts(kind, r, n);
    hide AgentLoop.Guarded, Documented, Opening;
  }

  lemma StepKeepsDocumented(w: World, cfg: Config, r: Run, n: nat, base: seq<StepResult>)
    requires RunDocumented(r, base)
    ensures var p := Step(w, cfg, r, n); RunDocumented(if p.Running? then p.run else p.outcome.run, base)
  {
    hide AgentLoop.AfterReply, AgentLoop.Guarded, Documented, Opening, AllDocumented, SumCost;
    if SumCost(r.steps) < cfg.maxCost {
      AskingKeepsDocumented(cfg.kind, r, n, w.llm(n), base);
      var asked := Asked(Guarded(cfg.kind, r, n), n, w.llm(n));
      if w.llm(n).Replied? {
        var resp := w.llm(n).response;
        ReplyKeepsDocumented(w, cfg.kind, asked, n, resp, base);
        var p := AfterReply(w, cfg.kind, asked, n, resp);
        AllDocumentedMore(asked.calls, base, asked.steps, (if p.Running? then p.run else p.outcome.run).steps);
      }
    }
  }

  lemma {:induction false} LoopKeepsDocumented(w: World, cfg: Config, r: Run, n: nat, base: seq<StepResult>)
    requires RunDocumented(r, base)
    ensures RunDocumented(Loop(w, cfg, r, n).run, base)
    decreases cfg.maxSteps - n
  {
    if n <= cfg.maxSteps {
      StepKeepsDocumented(w, cfg, r, n, base);
      hide AgentLoop.Step, RunDocumented;
      var p := Step(w, cfg, r, n);
      if p.Running? {
        LoopKeepsDocumented(w, cfg, p.run, n + 1, base);
      }
    } else {
      hide Documented, AllDocumented, Opening;
    }
  }

  /** The steps that all turns of a session have recorded. */
  function SessionSteps(turns: seq<Turn>): seq<StepResult> {
    if turns == [] then [] else SessionSteps(turns[..|turns| - 1]) + LastTurn(turns).run.steps
  }

  lemma TurnKeepsDocumented(t: Turn, history: seq<Message>, base: seq<StepResult>)
    requires history == [] || Opening(history[0])
    requires Documented(history, base)
    ensures RunDocumented(RunTurn(t, history).run, base)
  {
    hide AgentLoop.Loop, Documented;
    assert !BearsResults(UserText(t.userMessage));
    DocumentedAppend(history, UserText(t.userMessage), base);
    assert base + [] == base;
    LoopKeepsDocumentedFromStart(t, history, base);
  }

  lemma LoopKeepsDocumentedFromStart(t: Turn, history: seq<Message>, base: seq<StepResult>)
    requires RunDocumented(TurnStart(history, t.userMessage), base)
    ensures RunDocumented(RunTurn(t, history).run, base)
  {
    LoopKeepsDocumented(t.world, TurnConfig(t), TurnStart(history, t.userMessage), 1, base);
    hide AgentLoop.Loop, Documented, AllDocumented, Opening;
  }

  /** In every session, however its turns and rounds ended: each result that a request shows
      the model is the result of a step that the session recorded, in the order of the
      steps; and where the calls still stand before the results, each is the result of its
      own call, by name, arguments and id. */
  lemma {:induction false} SessionResultsAreRecorded(turns: seq<Turn>)
    ensures Documented(HistoryAfter(turns), SessionSteps(turns))
    ensures turns != [] ==> AllDocumented(LastTurn(turns).run.calls, SessionSteps(turns))
  {
    if turns != [] {
      var front := turns[..|turns| - 1];
      SessionResultsAreRecorded(front);
      SessionStartsOpen(front);
      hide RunTurn, Documented, AllDocumented, Opening;
      TurnKeepsDocumented(turns[|turns| - 1], HistoryAfter(front), SessionSteps(front));
    }
  }
}
