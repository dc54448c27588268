/** What a step puts on record: the results that the model is given, the steps that are
    returned, and the events that are streamed (enclave/agent/controller.py:744-904). */
module RoundContents {
  import opened Models
  import opened Text
  import opened Truncation
  import opened AgentLoop
  import opened LoopAccounts
  import opened Pairing

  // ---- Results ----

  /** A result tells how its tool fared: whether it failed, and its text, of which a long one
      keeps both ends. */
  predicate Conveys(b: ContentBlock, out: ToolOutput) {
    && b.ToolResultBlock?
    && (b.answer.isError <==> !out.success)
    && Keeps(b.answer.content, if out.success then out.result else "Error: " + out.error)
  }

  predicate Keeps(content: string, text: string) {
    if |text| <= 30_000 then content == text
    else
      && 20_000 <= |content| < |text|
      && content[..10_000] == text[..10_000]
      && content[|content| - 10_000..] == text[|text| - 10_000..]
  }

  /** One result for each call, under the call's own id and with the call's own output. */
  predicate ResultsConvey(m: Message, uses: seq<ToolUse>, output: nat -> ToolOutput) {
    && m.role.User? && m.content.Blocks? && |m.content.blocks| == |uses|
    && forall i: nat :: i < |uses| ==>
         Conveys(m.content.blocks[i], output(i)) && m.content.blocks[i].answer.toolUseId == uses[i].id
  }

  lemma ResultTextKeeps(out: ToolOutput)
    ensures Keeps(ResultText(out), if out.success then out.result else "Error: " + out.error)
  {
    TruncateKeepsEnds(if out.success then out.result else "Error: " + out.error);
    hide Marks, Truncate;
  }

  lemma RoundConveys(uses: seq<ToolUse>, output: nat -> ToolOutput)
    ensures ResultsConvey(Message(User, Blocks(RoundResults(uses, output))), uses, output)
  {
    hide ResultText, Keeps;
    forall i: nat | i < |uses| ensures Conveys(RoundResults(uses, output)[i], output(i)) {
      ResultTextKeeps(output(i));
    }
  }

  // ---- Steps ----

  /** The record of call `i`; the reply's text and tokens are on record once. */
  predicate Records(s: StepResult, n: nat, resp: LLMResponse, call: ToolUse, out: ToolOutput, i: nat) {
    && s.stepNumber == n && s.toolName == Some(call.name) && s.toolArgs == call.input && s.output == Some(out)
    && (i == 0 ==>
          s.llmResponse == ResponseText(resp) && s.inputTokens == resp.inputTokens && s.outputTokens == resp.outputTokens)
    && (i > 0 ==> s.llmResponse == "" && s.inputTokens == s.outputTokens == 0)
  }

  predicate StepsRecord(steps: seq<StepResult>, n: nat, resp: LLMResponse, output: nat -> ToolOutput) {
    var uses := ToolUses(resp.content);
    && |steps| == |uses|
    && forall i: nat :: i < |uses| ==> Records(steps[i], n, resp, uses[i], output(i), i)
  }

  lemma RoundRecords(n: nat, resp: LLMResponse, output: nat -> ToolOutput)
    ensures StepsRecord(RoundSteps(n, resp, ToolUses(resp.content), output), n, resp, output)
  {
    var uses := ToolUses(resp.content);
    hide ToolUses, ResponseText;
    forall i: nat | i < |uses|
      ensures Records(RoundSteps(n, resp, uses, output)[i], n, resp, uses[i], output(i), i)
    {
      assert RoundSteps(n, resp, uses, output)[i] == RoundStep(n, resp, uses[i], output(i), i);
    }
  }

  // ---- A step ----

  /** One more request was made, and this came of it. */
  predicate AsksOnce(w: World, r: Run, n: nat, next: Run) {
    |next.calls| == |r.calls| + 1 && next.calls[..|r.calls|] == r.calls && next.calls[|r.calls|].outcome == w.llm(n)
  }

  /** The history goes on from the request with the reply as it came and one message with
      the results, and the steps with a record of each call. */
  predicate ExtendsBy(prompt: seq<Message>, steps: seq<StepResult>, n: nat, resp: LLMResponse,
                      output: nat -> ToolOutput, next: Run) {
    && |next.messages| == |prompt| + 2
    && next.messages[..|prompt|] == prompt
    && next.messages[|prompt|] == Message(Assistant, Blocks(resp.content))
    && ResultsConvey(next.messages[|prompt| + 1], ToolUses(resp.content), output)
    && |steps| <= |next.steps| && next.steps[..|steps|] == steps
    && StepsRecord(next.steps[|steps|..], n, resp, output)
  }

  /** A step whose round finished. */
  predicate FinishesRound(w: World, r: Run, n: nat, next: Run) {
    && w.llm(n).Replied? && w.tools(n).Gathered? && AsksOnce(w, r, n, next)
    && ExtendsBy(next.calls[|r.calls|].prompt, r.steps, n, w.llm(n).response, w.tools(n).output, next)
  }

  /** The reply is the result, is put on record, told in the last event, and in a turn kept
      in the history. */
  predicate Concludes(kind: LoopKind, prompt: seq<Message>, steps: seq<StepResult>, n: nat, resp: LLMResponse, o: Outcome) {
    && ToolUses(resp.content) == [] && o.ending.Completed? && o.ending.text == ResponseText(resp)
    && o.run.messages == prompt + (if kind.TurnLoop? then [Message(Assistant, Blocks(resp.content))] else [])
    && o.run.steps == steps + [StepResult(n, None, "{}", None, o.ending.text, resp.inputTokens, resp.outputTokens)]
    && o.run.events != [] && o.run.events[|o.run.events| - 1] == StepEvent(n, Complete(o.ending.text))
  }

  /** A step whose reply asks for no tool. */
  predicate ConcludesRun(w: World, kind: LoopKind, r: Run, n: nat, o: Outcome) {
    && w.llm(n).Replied? && AsksOnce(w, r, n, o.run)
    && Concludes(kind, o.run.calls[|r.calls|].prompt, r.steps, n, w.llm(n).response, o)
  }

  lemma ReplyFinishesRound(w: World, kind: LoopKind, r: Run, n: nat, resp: LLMResponse)
    requires AfterReply(w, kind, r, n, resp).Running?
    ensures var next := AfterReply(w, kind, r, n, resp).run;
            w.tools(n).Gathered? && next.calls == r.calls
            && ExtendsBy(r.messages, r.steps, n, resp, w.tools(n).output, next)
  {
    hide ToolUses, RoundResults, RoundSteps, ResultsConvey, StepsRecord, ResponseText;
    RoundConveys(ToolUses(resp.content), w.tools(n).output);
    RoundRecords(n, resp, w.tools(n).output);
  }

  lemma ReplyConcludes(w: World, kind: LoopKind, r: Run, n: nat, resp: LLMResponse)
    requires var p := AfterReply(w, kind, r, n, resp); p.Stopped? && p.outcome.ending.Completed?
    ensures var o := AfterReply(w, kind, r, n, resp).outcome;
            o.run.calls == r.calls && Concludes(kind, r.messages, r.steps, n, resp, o)
  {
    hide ToolUses, ResponseText;
    assert r.messages + [] == r.messages;
  }

  /** What every step puts on record. */
  lemma StepContents(w: World, cfg: Config, r: Run, n: nat)
    ensures match Step(w, cfg, r, n)
            case Running(next) => FinishesRound(w, r, n, next)
            case Stopped(o) => o.ending.Completed? ==> ConcludesRun(w, cfg.kind, r, n, o)
  {
    hide AfterReply, Guarded, ExtendsBy, Concludes, SumCost;
    if SumCost(r.steps) < cfg.maxCost {
      GuardKeepsAccounts(cfg.kind, r, n);
      var asked := Asked(Guarded(cfg.kind, r, n), n, w.llm(n));
      if w.llm(n).Replied? {
        var resp := w.llm(n).response;
        var p := AfterReply(w, cfg.kind, asked, n, resp);
        if p.Running? {
          ReplyFinishesRound(w, cfg.kind, asked, n, resp);
        } else if p.outcome.ending.Completed? {
          ReplyConcludes(w, cfg.kind, asked, n, resp);
        }
      }
    }
  }

  // ---- The text of a reply ----

  /** The texts of a reply that are not empty. */
  function SaidTexts(blocks: seq<ContentBlock>): seq<string> {
    if blocks == [] then []
    else (if blocks[0].TextBlock? && blocks[0].text != "" then [blocks[0].text] else []) + SaidTexts(blocks[1..])
  }

  lemma {:induction false} SaidTextsConcat(a: seq<ContentBlock>, b: seq<ContentBlock>)
    ensures SaidTexts(a + b) == SaidTexts(a) + SaidTexts(b)
  {
    if a == [] {
      assert a + b == b;
    } else {
      assert (a + b)[1..] == a[1..] + b;
      SaidTextsConcat(a[1..], b);
    }
  }

  lemma {:induction false} TextsAreSaid(blocks: seq<ContentBlock>)
    ensures Texts(blocks) == SaidTexts(blocks)
  {
    if blocks != [] {
      var front, b := blocks[..|blocks| - 1], blocks[|blocks| - 1];
      TextsAreSaid(front);
      SaidTextsConcat(front, [b]);
      assert blocks == front + [b] && [b][1..] == [];
    }
  }

  /** The text of a reply holds each of its texts, in order and in full, with line breaks
      between them. */
  lemma ReplyHoldsTexts(resp: LLMResponse, i: nat)
    requires i < |SaidTexts(resp.content)|
    ensures var texts, text := SaidTexts(resp.content), ResponseText(resp);
            var o := Offset("\n", texts, i);
            var end := o + |texts[i]|;
            && end <= |text| && text[o..end] == texts[i]
            && (if i + 1 < |texts| then end < |text| && text[end] == '\n' else end == |text|)
  {
    TextsAreSaid(resp.content);
    hide SaidTexts, Texts, Offset, Join;
    var texts, text := SaidTexts(resp.content), ResponseText(resp);
    JoinHolds("\n", texts, i);
    var end := Offset("\n", texts, i) + |texts[i]|;
    if i + 1 < |texts| {
      assert text[end] == text[end..end + 1][0];
    }
  }

  // ---- The message of the user ----

  lemma GuardKeepsLast(kind: LoopKind, r: Run, n: nat)
    requires r.messages != []
    ensures var h := Guarded(kind, r, n).messages; h != [] && h[|h| - 1] == r.messages[|r.messages| - 1]
  {
  }

  lemma StepAsksWithLast(w: World, cfg: Config, r: Run, n: nat)
    requires r.messages != []
    ensures var p := Step(w, cfg, r, n);
            var next := if p.Running? then p.run else p.outcome.run;
            if SumCost(r.steps) >= cfg.maxCost then next.calls == r.calls
            else
              && |next.calls| == |r.calls| + 1
              && var prompt := next.calls[|r.calls|].prompt;
                 prompt != [] && prompt[|prompt| - 1] == r.messages[|r.messages| - 1]
  {
    GuardKeepsLast(cfg.kind, r, n);
    GuardKeepsAccounts(cfg.kind, r, n);
    hide AfterReply, Guarded, SumCost;
    var asked := Asked(Guarded(cfg.kind, r, n), n, w.llm(n));
    if w.llm(n).Replied? {
      ReplyKeepsCalls(w, cfg.kind, asked, n, w.llm(n).response);
    }
  }

  lemma {:induction false} LoopKeepsFirstCall(w: World, cfg: Config, r: Run, n: nat)
    requires r.calls != []
    ensures var calls := Loop(w, cfg, r, n).run.calls; calls != [] && calls[0] == r.calls[0]
    decreases cfg.maxSteps - n
  {
    if n <= cfg.maxSteps {
      StepKeepsFirstCall(w, cfg, r, n);
      hide AgentLoop.Step;
      var p := Step(w, cfg, r, n);
      if p.Running? {
        LoopKeepsFirstCall(w, cfg, p.run, n + 1);
      }
    }
  }

  lemma StepKeepsFirstCall(w: World, cfg: Config, r: Run, n: nat)
    requires r.calls != []
    ensures var p := Step(w, cfg, r, n);
            var calls := (if p.Running? then p.run else p.outcome.run).calls;
            calls != [] && calls[0] == r.calls[0]
  {
    GuardKeepsAccounts(cfg.kind, r, n);
    hide AfterReply, Guarded, SumCost;
    var asked := Asked(Guarded(cfg.kind, r, n), n, w.llm(n));
    if w.llm(n).Replied? {
      ReplyKeepsCalls(w, cfg.kind, asked, n, w.llm(n).response);
    }
  }

  /** The first request of a run ends with the last message the run began with, compacted or
      not. */
  lemma RunAsksWithLast(w: World, cfg: Config, start: Run)
    requires Fresh(start) && start.messages != []
    ensures var calls := Execute(w, cfg, start).run.calls;
            calls != [] ==>
              var prompt := calls[0].prompt;
              prompt != [] && prompt[|prompt| - 1] == start.messages[|start.messages| - 1]
  {
    hide Execute, AgentLoop.Loop, Starts;
    LoopAsksWithLast(w, cfg, start);
    CallsOfRun(w, cfg, start);
  }

  lemma CallsOfRun(w: World, cfg: Config, start: Run)
    ensures Execute(w, cfg, start).run.calls == if Starts(w, cfg) then Loop(w, cfg, start, 1).run.calls else start.calls
  {
    hide AgentLoop.Loop;
  }

  lemma LoopAsksWithLast(w: World, cfg: Config, start: Run)
    requires start.calls == [] && start.messages != []
    ensures var calls := Loop(w, cfg, start, 1).run.calls;
            calls != [] ==>
              var prompt := calls[0].prompt;
              prompt != [] && prompt[|prompt| - 1] == start.messages[|start.messages| - 1]
  {
    if 1 <= cfg.maxSteps {
      StepAsksWithLast(w, cfg, start, 1);
      hide AgentLoop.Step, SumCost;
      match Step(w, cfg, start, 1)
      case Running(next) =>
        assert Loop(w, cfg, start, 1) == Loop(w, cfg, next, 2);
        hide AgentLoop.Loop;
        if next.calls != [] {
          LoopKeepsFirstCall(w, cfg, next, 2);
        }
      case Stopped(_) =>
    }
  }

  /** The first request of every turn ends with the user's message, and that of every task with
      the task's description. */
  lemma RequestAsksUsersMessage(t: Turn, history: seq<Message>, w: World, cfg: Config, description: string)
    ensures var calls := RunTurn(t, history).run.calls;
            calls != [] ==>
              var prompt := calls[0].prompt;
              prompt != [] && prompt[|prompt| - 1] == Message(User, Text(t.userMessage))
    ensures var calls := Execute(w, cfg, TaskStart(description)).run.calls;
            calls != [] ==>
              var prompt := calls[0].prompt;
              prompt != [] && prompt[|prompt| - 1] == Message(User, Text(description))
  {
    RunAsksWithLast(t.world, TurnConfig(t), TurnStart(history, t.userMessage));
    RunAsksWithLast(w, cfg, TaskStart(description));
    hide Execute;
  }
}
