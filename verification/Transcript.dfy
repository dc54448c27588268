/** The attested transcript of a task (enclave/agent/controller.py:360, 533-539, 627). */
module Transcript {
  import opened Models
  import opened Text
  import opened AgentLoop

  /** What one returned step contributes. */
  function Part(s: StepResult): string {
    if s.toolName.Some? && s.output.Some? then s.toolName.value + ":" + s.output.value.result else s.llmResponse
  }

  /** The transcript, computed from the description and the returned steps alone. */
  function TranscriptOf(description: string, steps: seq<StepResult>): seq<string> {
    [description] + seq(|steps|, i requires 0 <= i < |steps| => Part(steps[i]))
  }

  /** The text whose hash is attested. */
  function Attested(parts: seq<string>): string {
    Join("\n", parts)
  }

  lemma TranscriptOfConcat(description: string, a: seq<StepResult>, b: seq<StepResult>)
    ensures TranscriptOf(description, a + b) == TranscriptOf(description, a) + TranscriptOf(description, b)[1..]
  {
  }

  lemma TranscriptOfRound(n: nat, resp: LLMResponse, uses: seq<ToolUse>, output: nat -> ToolOutput, description: string)
    ensures TranscriptOf(description, RoundSteps(n, resp, uses, output))[1..] == RoundParts(uses, output)
  {
    var steps := RoundSteps(n, resp, uses, output);
    forall i: nat | i < |uses|
      ensures TranscriptOf(description, steps)[1..][i] == RoundParts(uses, output)[i]
    {
      assert steps[i] == RoundStep(n, resp, uses[i], output(i), i);
    }
  }

  lemma StepKeepsTranscript(w: World, cfg: Config, r: Run, n: nat, description: string)
    requires cfg.kind.TaskLoop? && r.hashParts == TranscriptOf(description, r.steps)
    ensures var next := match Step(w, cfg, r, n) case Running(next) => next case Stopped(o) => o.run;
            next.hashParts == TranscriptOf(description, next.steps)
  {
    if SumCost(r.steps) < cfg.maxCost && w.llm(n).Replied? {
      var resp := w.llm(n).response;
      var uses := ToolUses(resp.content);
      if uses == [] {
        var step := StepResult(n, None, "{}", None, ResponseText(resp), resp.inputTokens, resp.outputTokens);
        TranscriptOfConcat(description, r.steps, [step]);
        assert TranscriptOf(description, [step])[1..] == [ResponseText(resp)];
      } else if w.tools(n).Gathered? {
        var output := w.tools(n).output;
        TranscriptOfConcat(description, r.steps, RoundSteps(n, resp, uses, output));
        TranscriptOfRound(n, resp, uses, output, description);
      }
    }
  }

  lemma {:induction false} LoopKeepsTranscript(w: World, cfg: Config, r: Run, n: nat, description: string)
    requires cfg.kind.TaskLoop? && r.hashParts == TranscriptOf(description, r.steps)
    ensures var run := Loop(w, cfg, r, n).run; run.hashParts == TranscriptOf(description, run.steps)
    decreases cfg.maxSteps - n
  {
    if n <= cfg.maxSteps {
      StepKeepsTranscript(w, cfg, r, n, description);
      var p := Step(w, cfg, r, n);
      if p.Running? {
        LoopKeepsTranscript(w, cfg, p.run, n + 1, description);
      }
    }
  }

  /** The transcript of a task is a function of its description and returned steps, so
      a holder of the result can recompute the attested text. */
  lemma TranscriptIsRecomputable(w: World, cfg: Config, description: string)
    requires cfg.kind.TaskLoop?
    ensures var run := Execute(w, cfg, TaskStart(description)).run;
            run.hashParts == TranscriptOf(description, run.steps)
  {
    LoopKeepsTranscript(w, cfg, TaskStart(description), 1, description);
  }

  /** The attested parts of a completed task, one by one: its description, for each tool step
      the name and the result of the tool, and last the final reply. */
  lemma TranscriptTells(w: World, cfg: Config, description: string)
    requires cfg.kind.TaskLoop?
    requires Execute(w, cfg, TaskStart(description)).ending.Completed?
    ensures var run := Execute(w, cfg, TaskStart(description)).run;
            var k := |run.steps|;
            && k >= 1 && |run.hashParts| == k + 1
            && run.hashParts[0] == description
            && run.hashParts[k] == run.steps[k - 1].llmResponse
            && forall i :: 0 <= i < k - 1 ==>
                 && IsToolStep(run.steps[i])
                 && run.hashParts[i + 1] == run.steps[i].toolName.value + ":" + run.steps[i].output.value.result
  {
    TranscriptIsRecomputable(w, cfg, description);
    LoopCompletesSteps(w, cfg, TaskStart(description), 1);
    hide AgentLoop.Loop, CompletedSteps, TranscriptOf;
    CompletedTells(description, Execute(w, cfg, TaskStart(description)).run.steps);
  }

  lemma CompletedTells(description: string, steps: seq<StepResult>)
    requires CompletedSteps(steps)
    ensures var k, parts := |steps|, TranscriptOf(description, steps);
            && k >= 1 && |parts| == k + 1
            && parts[0] == description && parts[k] == steps[k - 1].llmResponse
            && forall i :: 0 <= i < k - 1 ==>
                 IsToolStep(steps[i]) && parts[i + 1] == steps[i].toolName.value + ":" + steps[i].output.value.result
  {
  }

  /** The parts can be read back from the attested text exactly when none of them
      holds a newline. */
  lemma TranscriptIsReadable(parts: seq<string>)
    requires parts != []
    ensures Lines(Attested(parts)) == parts <==> forall i :: 0 <= i < |parts| ==> OneLine(parts[i])
  {
    LinesUndoJoin(parts);
  }

  /** So two different transcripts of one-line parts never attest to the same text. */
  lemma TranscriptIsInjective(a: seq<string>, b: seq<string>)
    requires a != [] && forall i :: 0 <= i < |a| ==> OneLine(a[i])
    requires b != [] && forall i :: 0 <= i < |b| ==> OneLine(b[i])
    requires Attested(a) == Attested(b)
    ensures a == b
  {
    LinesUndoJoin(a);
    LinesUndoJoin(b);
  }

  /** With newlines they can: a tool result that spans two lines reads like two parts. */
  lemma MultilinePartsCollide()
    ensures Attested(["task", "bash:a\nb:c"]) == Attested(["task", "bash:a", "b:c"])
  {
    var split := ["task", "bash:a", "b:c"];
    assert split[..2] == ["task", "bash:a"] && split[..2][..1] == ["task"];
    var whole := ["task", "bash:a\nb:c"];
    assert whole[..1] == ["task"];
    assert "bash:a" + "\n" + "b:c" == "bash:a\nb:c";
    assert ("task" + "\n" + "bash:a") + "\n" + "b:c" == "task" + "\n" + "bash:a\nb:c";
  }

  // ---- The recipe in the documentation ----

  predicate IsToolStep(s: StepResult) {
    s.toolName.Some? && s.output.Some?
  }

  /** The steps of a completed task: tool steps, and the final reply. */
  predicate CompletedSteps(steps: seq<StepResult>) {
    && steps != []
    && steps[|steps| - 1].toolName == None
    && forall i :: 0 <= i < |steps| - 1 ==> IsToolStep(steps[i])
  }

  lemma {:induction false} LoopCompletesSteps(w: World, cfg: Config, r: Run, n: nat)
    requires forall i :: 0 <= i < |r.steps| ==> IsToolStep(r.steps[i])
    ensures var o := Loop(w, cfg, r, n); o.ending.Completed? ==> CompletedSteps(o.run.steps)
    decreases cfg.maxSteps - n
  {
    if n <= cfg.maxSteps {
      StepCompletesSteps(w, cfg, r, n);
      hide AgentLoop.Step, CompletedSteps;
      var p := Step(w, cfg, r, n);
      if p.Running? {
        LoopCompletesSteps(w, cfg, p.run, n + 1);
      }
    }
  }

  lemma StepCompletesSteps(w: World, cfg: Config, r: Run, n: nat)
    requires forall i :: 0 <= i < |r.steps| ==> IsToolStep(r.steps[i])
    ensures match Step(w, cfg, r, n)
            case Running(next) => forall i :: 0 <= i < |next.steps| ==> IsToolStep(next.steps[i])
            case Stopped(o) => o.ending.Completed? ==> CompletedSteps(o.run.steps)
  {
    if SumCost(r.steps) < cfg.maxCost && w.llm(n).Replied? {
      var resp := w.llm(n).response;
      if ToolUses(resp.content) != [] && w.tools(n).Gathered? {
        var uses, output := ToolUses(resp.content), w.tools(n).output;
        forall i: nat | i < |uses| ensures IsToolStep(RoundSteps(n, resp, uses, output)[i]) {
          assert RoundSteps(n, resp, uses, output)[i] == RoundStep(n, resp, uses[i], output(i), i);
        }
      }
    }
  }

  function OutputText(s: StepResult): string {
    if s.output.Some? then s.output.value.result else ""
  }

  function Outputs(steps: seq<StepResult>): seq<string> {
    seq(|steps|, i requires 0 <= i < |steps| => OutputText(steps[i]))
  }

  /** The text that the attestation guide tells a verifier to hash. */
  function Documented(description: string, steps: seq<StepResult>): string
    requires steps != []
  {
    var tools := steps[..|steps| - 1];
    description + Join("\n", Outputs(tools)) + steps[|steps| - 1].llmResponse
  }

  /** The attested lines of the tool steps alone are longer than the documented ones. */
  lemma {:induction false} LongerThanOutputs(description: string, tools: seq<StepResult>)
    requires forall i :: 0 <= i < |tools| ==> IsToolStep(tools[i])
    ensures |Attested(TranscriptOf(description, tools))| >= |description| + |Join("\n", Outputs(tools))|
  {
    if tools == [] {
      assert TranscriptOf(description, tools) == [description];
    } else {
      var front, last := tools[..|tools| - 1], tools[|tools| - 1];
      LongerThanOutputs(description, front);
      TranscriptOfLast(description, front, last);
      assert front + [last] == tools && IsToolStep(last);
      var outputs := Outputs(tools);
      assert outputs[..|outputs| - 1] == Outputs(front);
    }
  }

  lemma TranscriptOfLast(description: string, front: seq<StepResult>, last: StepResult)
    ensures Attested(TranscriptOf(description, front + [last]))
            == Attested(TranscriptOf(description, front)) + "\n" + Part(last)
  {
    var parts := TranscriptOf(description, front + [last]);
    assert parts[..|parts| - 1] == TranscriptOf(description, front);
  }

  /** The guide's recipe drops the tool names and two line breaks: for no completed task
      does it give the text that was attested. */
  lemma DocumentedRecipeNeverMatches(w: World, cfg: Config, description: string)
    requires cfg.kind.TaskLoop?
    requires Execute(w, cfg, TaskStart(description)).ending.Completed?
    ensures var run := Execute(w, cfg, TaskStart(description)).run;
            CompletedSteps(run.steps) && Documented(description, run.steps) != Attested(run.hashParts)
  {
    TranscriptIsRecomputable(w, cfg, description);
    LoopCompletesSteps(w, cfg, TaskStart(description), 1);
    RecipeIsShorter(description, Execute(w, cfg, TaskStart(description)).run.steps);
  }

  lemma RecipeIsShorter(description: string, steps: seq<StepResult>)
    requires CompletedSteps(steps)
    ensures |Documented(description, steps)| < |Attested(TranscriptOf(description, steps))|
  {
    var tools, last := steps[..|steps| - 1], steps[|steps| - 1];
    LongerThanOutputs(description, tools);
    TranscriptOfLast(description, tools, last);
    assert tools + [last] == steps;
  }
}
