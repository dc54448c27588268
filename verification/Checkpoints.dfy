/** The checkpoints of a conversation turn (enclave/agent/controller.py:891-901), meant to
    come every five tool calls: how many are missing over a whole turn. */
module Checkpoints {
  import opened Models
  import opened AgentLoop
  import opened Text
  import opened LoopAccounts
  import opened LoopEvents

  // ---- What a reader of the event stream can tally ----

  /** The results seen so far, their number at the end of each round, and the numbers at
      which a checkpoint followed the round. A checkpoint that bears the number of the next
      step reports a compaction instead. */
  datatype Tally = Tally(results: nat, ends: seq<nat>, reports: seq<nat>)

  function Add(t: Tally, p: Phase, e: StepEvent): Tally {
    match e.body
    case ToolReturned(_, _) =>
      t.(results := t.results + 1, ends := if Next(p, e).Idle? then t.ends + [t.results + 1] else t.ends)
    case Checkpoint => if p.Idle? && p.rounds == e.stepNumber then t.(reports := t.reports + [t.results]) else t
    case _ => t
  }

  function TallyOf(events: seq<StepEvent>): Tally {
    if events == [] then Tally(0, [], [])
    else Add(TallyOf(events[..|events| - 1]), PhaseAfter(events[..|events| - 1]), events[|events| - 1])
  }

  predicate Quiet(e: StepEvent) {
    !e.body.ToolReturned? && !e.body.Checkpoint?
  }

  lemma TallyOfAppend(events: seq<StepEvent>, e: StepEvent)
    ensures TallyOf(events + [e]) == Add(TallyOf(events), PhaseAfter(events), e)
  {
    assert (events + [e])[..|events|] == events;
  }

  lemma {:induction false} QuietTally(events: seq<StepEvent>, more: seq<StepEvent>)
    requires forall i :: 0 <= i < |more| ==> Quiet(more[i])
    ensures TallyOf(events + more) == TallyOf(events)
  {
    hide TallyOf, PhaseAfter;
    if more == [] {
      assert events + more == events;
    } else {
      var front, e := more[..|more| - 1], more[|more| - 1];
      QuietTally(events, front);
      TallyOfAppend(events + front, e);
      assert events + front + [e] == events + more;
    }
  }

  /** After the first `k` results of a round; the last one ends it. */
  lemma {:induction false} ResultsTally(events: seq<StepEvent>, n: nat, uses: seq<ToolUse>, output: nat -> ToolOutput, k: nat)
    requires k <= |uses| && uses != [] && PhaseAfter(events) == Issuing(n, ToolNames(uses))
    ensures var t := TallyOf(events);
            TallyOf(events + ResultEvents(n, uses, output)[..k])
            == Tally(t.results + k, if k == |uses| then t.ends + [t.results + k] else t.ends, t.reports)
  {
    hide TallyOf, PhaseAfter, Next;
    var results := ResultEvents(n, uses, output);
    if k == 0 {
      assert events + results[..0] == events;
    } else {
      ResultsTally(events, n, uses, output, k - 1);
      PhaseOfResults(events, n, uses, output, k);
      TallyOfAppend(events + results[..k - 1], results[k - 1]);
      PhaseOfAppend(events + results[..k - 1], results[k - 1]);
      assert events + results[..k - 1] + [results[k - 1]] == events + results[..k];
    }
  }

  // ---- The tally of the loop ----

  function Fives(ns: seq<nat>): seq<nat> {
    if ns == [] then []
    else
      var n := ns[|ns| - 1];
      Fives(ns[..|ns| - 1]) + if n % 5 == 0 then [n] else []
  }

  predicate Ascending(ns: seq<nat>, last: nat) {
    && (forall i, j :: 0 <= i < j < |ns| ==> ns[i] < ns[j])
    && (forall i :: 0 <= i < |ns| ==> 0 < ns[i] <= last)
  }

  /** Between two rounds, the ones that end on a multiple of five are reported. */
  predicate Tallied(t: Tally, toolCallCount: nat) {
    t.results == toolCallCount && t.reports == Fives(t.ends) && Ascending(t.ends, t.results)
  }

  lemma GuardTally(kind: LoopKind, r: Run, n: nat)
    requires n >= 1 && PhaseAfter(r.events) == Idle(n - 1)
    ensures TallyOf(Guarded(kind, r, n).events) == TallyOf(r.events)
    ensures Guarded(kind, r, n).toolCallCount == r.toolCallCount
  {
    hide TallyOf, PhaseAfter, Compaction.Compacted, Compaction.HistoryTokens;
    TallyOfAppend(r.events, StepEvent(n, Checkpoint));
  }

  lemma AskedTally(r: Run, n: nat, outcome: LlmOutcome)
    ensures TallyOf(Asked(r, n, outcome).events) == TallyOf(r.events)
  {
    var more := [StepEvent(n, Thinking)] + ChunkEvents(n, outcome.chunks);
    QuietTally(r.events, more);
    assert r.events + more == Asked(r, n, outcome).events;
  }

  lemma AscendingNext(ns: seq<nat>, last: nat, more: nat)
    requires Ascending(ns, last) && last < more
    ensures Ascending(ns + [more], more)
  {
  }

  lemma FivesNext(ns: seq<nat>, n: nat)
    ensures Fives(ns + [n]) == Fives(ns) + if n % 5 == 0 then [n] else []
  {
    assert (ns + [n])[..|ns|] == ns;
  }

  lemma EndOfRound(t: Tally, calls: nat)
    requires Tallied(t, t.results) && calls > 0
    ensures var total := t.results + calls;
            var reports := t.reports + if total % 5 == 0 then [total] else [];
            Tallied(Tally(total, t.ends + [total], reports), total)
  {
    hide Ascending, Fives;
    AscendingNext(t.ends, t.results, t.results + calls);
    FivesNext(t.ends, t.results + calls);
  }

  lemma RoundTally(kind: LoopKind, r: Run, n: nat, resp: LLMResponse, output: nat -> ToolOutput)
    requires kind.TurnLoop? && ToolUses(resp.content) != []
    requires PhaseAfter(r.events) == Issuing(n, ToolNames(ToolUses(resp.content)))
    requires Tallied(TallyOf(r.events), r.toolCallCount)
    ensures var next := Reported(kind, r, n, resp, output);
            && Tallied(TallyOf(next.events), next.toolCallCount)
            && TallyOf(next.events).ends == TallyOf(r.events).ends + [next.toolCallCount]
  {
    hide TallyOf, PhaseAfter, Next, ToolUses, Tallied, ResultEvents;
    var uses, t := ToolUses(resp.content), TallyOf(r.events);
    var results, total := ResultEvents(n, uses, output), r.toolCallCount + |uses|;
    CountIsResults(t, r.toolCallCount);
    AllResultsTally(r.events, n, uses, output);
    EndOfRound(t, |uses|);
    var events := Reported(kind, r, n, resp, output).events;
    if total % 5 == 0 {
      TallyOfAppend(r.events + results, StepEvent(n, Checkpoint));
      assert events == r.events + results + [StepEvent(n, Checkpoint)];
    } else {
      assert events == r.events + results;
      assert t.reports + [] == t.reports;
    }
  }

  lemma AllResultsTally(events: seq<StepEvent>, n: nat, uses: seq<ToolUse>, output: nat -> ToolOutput)
    requires uses != [] && PhaseAfter(events) == Issuing(n, ToolNames(uses))
    ensures var t, all := TallyOf(events), events + ResultEvents(n, uses, output);
            && PhaseAfter(all) == Idle(n)
            && TallyOf(all) == Tally(t.results + |uses|, t.ends + [t.results + |uses|], t.reports)
  {
    hide TallyOf, PhaseAfter;
    ResultsTally(events, n, uses, output, |uses|);
    PhaseOfResults(events, n, uses, output, |uses|);
    var results := ResultEvents(n, uses, output);
    assert results[..|uses|] == results;
    assert ToolNames(uses)[|uses|..] == [];
  }

  lemma CountIsResults(t: Tally, count: nat)
    requires Tallied(t, count)
    ensures t.results == count
  {
  }

  lemma ReplyTally(w: World, kind: LoopKind, r: Run, n: nat, resp: LLMResponse)
    requires kind.TurnLoop? && PhaseAfter(r.events) == Asking(n)
    requires Tallied(TallyOf(r.events), r.toolCallCount)
    ensures match AfterReply(w, kind, r, n, resp)
            case Running(next) =>
              && Tallied(TallyOf(next.events), next.toolCallCount)
              && next.toolCallCount == r.toolCallCount + |ToolUses(resp.content)|
              && TallyOf(next.events).ends == TallyOf(r.events).ends + [next.toolCallCount]
            case Stopped(o) => TallyOf(o.run.events) == TallyOf(r.events)
  {
    hide TallyOf, PhaseAfter, Next, ToolUses, Tallied;
    var uses := ToolUses(resp.content);
    if uses == [] {
      QuietTally(r.events, [StepEvent(n, Complete(ResponseText(resp)))]);
    } else {
      QuietTally(r.events, CallEvents(n, uses));
      PhaseOfCalls(r.events, n, uses);
      if w.tools(n).AnnounceRaised? {
        QuietTally(r.events, CallEvents(n, Take(uses, w.tools(n).announced)));
      }
      if w.tools(n).Gathered? {
        RoundTally(kind, Issued(r, n, resp), n, resp, w.tools(n).output);
      }
    }
  }

  lemma StepTally(w: World, cfg: Config, r: Run, n: nat)
    requires cfg.kind.TurnLoop? && n >= 1 && PhaseAfter(r.events) == Idle(n - 1)
    requires Tallied(TallyOf(r.events), r.toolCallCount)
    ensures match Step(w, cfg, r, n)
            case Running(next) =>
              && Tallied(TallyOf(next.events), next.toolCallCount)
              && w.llm(n).Replied?
              && next.toolCallCount == r.toolCallCount + |ToolUses(w.llm(n).response.content)|
              && TallyOf(next.events).ends == TallyOf(r.events).ends + [next.toolCallCount]
            case Stopped(o) => TallyOf(o.run.events) == TallyOf(r.events)
  {
    hide TallyOf, PhaseAfter, Next, ToolUses, Tallied, AfterReply, Guarded;
    if SumCost(r.steps) >= cfg.maxCost {
      QuietTally(r.events, [StepEvent(n, Error(CostExceeded))]);
    } else {
      PhaseOfAsking(cfg, r, n, w.llm(n));
      GuardTally(cfg.kind, r, n);
      AskedTally(Guarded(cfg.kind, r, n), n, w.llm(n));
      if w.llm(n).Replied? {
        ReplyTally(w, cfg.kind, Asked(Guarded(cfg.kind, r, n), n, w.llm(n)), n, w.llm(n).response);
      }
    }
  }

  lemma {:induction false} LoopTally(w: World, cfg: Config, r: Run, n: nat)
    requires cfg.kind.TurnLoop? && n >= 1 && PhaseAfter(r.events) == Idle(n - 1)
    requires Tallied(TallyOf(r.events), r.toolCallCount)
    ensures var t := TallyOf(Loop(w, cfg, r, n).run.events); Tallied(t, t.results)
    decreases cfg.maxSteps - n
  {
    hide AgentLoop.Step, TallyOf, PhaseAfter, Next, Tallied, ToolUses;
    CountIsResults(TallyOf(r.events), r.toolCallCount);
    if n > cfg.maxSteps {
      QuietTally(r.events, [StepEvent(cfg.maxSteps, Error(StepsExceeded))]);
    } else {
      StepTally(w, cfg, r, n);
      PhaseOfStep(w, cfg, r, n);
      match Step(w, cfg, r, n)
      case Running(next) =>
        LoopTally(w, cfg, next, n + 1);
        assert Loop(w, cfg, r, n) == Loop(w, cfg, next, n + 1);
      case Stopped(o) =>
        assert Loop(w, cfg, r, n) == o;
    }
  }

  // ---- What is missing ----

  /** The multiples of five up to `total` that were not reported. */
  function Missed(total: nat, reports: seq<nat>): nat {
    if total == 0 then 0
    else Missed(total - 1, reports) + if total % 5 == 0 && total !in reports then 1 else 0
  }

  lemma {:induction false} MissedNothing(total: nat, reports: seq<nat>)
    ensures Missed(total, reports) == 0 <==> forall m :: 0 < m <= total && m % 5 == 0 ==> m in reports
  {
    if total > 0 {
      MissedNothing(total - 1, reports);
    }
  }

  lemma {:induction false} MissedBelow(total: nat, reports: seq<nat>, last: nat)
    requires total < last
    ensures Missed(total, reports + [last]) == Missed(total, reports)
  {
    if total > 0 {
      MissedBelow(total - 1, reports, last);
    }
  }

  lemma {:induction false} AscendingIsShort(ns: seq<nat>, last: nat)
    requires Ascending(ns, last)
    ensures |ns| <= last
  {
    if ns != [] {
      AscendingIsShort(ns[..|ns| - 1], ns[|ns| - 1] - 1);
    }
  }

  lemma SmallerBeforeLast(ns: seq<nat>, last: nat)
    requires Ascending(ns, last)
    ensures forall i :: 0 <= i < |ns| - 1 ==> 0 < ns[i] < last
  {
    forall i | 0 <= i < |ns| - 1 ensures 0 < ns[i] < last {
      assert ns[i] < ns[|ns| - 1];
    }
  }

  lemma LargestIsLast(total: nat, ns: seq<nat>)
    requires Ascending(ns, total) && total in ns
    ensures ns == ns[..|ns| - 1] + [total] && Ascending(ns[..|ns| - 1], total - 1)
  {
    SmallerBeforeLast(ns, total);
  }

  /** Every multiple is reported or missed. */
  lemma {:induction false} MissedAndReported(total: nat, reports: seq<nat>)
    requires Ascending(reports, total) && forall m <- reports :: m % 5 == 0
    ensures Missed(total, reports) + |reports| == total / 5
    decreases total
  {
    if total > 0 {
      if total in reports {
        var front := reports[..|reports| - 1];
        LargestIsLast(total, reports);
        assert forall m <- front :: m in reports;
        MissedAndReported(total - 1, front);
        MissedBelow(total - 1, front, total);
      } else {
        assert forall i :: 0 <= i < |reports| ==> reports[i] in reports;
        MissedAndReported(total - 1, reports);
      }
    } else {
      AscendingIsShort(reports, total);
    }
  }

  lemma {:induction false} FivesAreFives(ns: seq<nat>)
    ensures forall m: nat :: m in Fives(ns) <==> m in ns && m % 5 == 0
  {
    if ns != [] {
      var front, n := ns[..|ns| - 1], ns[|ns| - 1];
      FivesAreFives(front);
      assert ns == front + [n];
      FivesNext(front, n);
      hide Fives;
    }
  }

  lemma {:induction false} FivesAscend(ns: seq<nat>, last: nat)
    requires Ascending(ns, last)
    ensures Ascending(Fives(ns), last)
  {
    if ns != [] {
      var front, n := ns[..|ns| - 1], ns[|ns| - 1];
      assert Ascending(front, n - 1);
      FivesAscend(front, n - 1);
      FivesNext(front, n);
      assert ns == front + [n];
      hide Fives, Ascending;
      AscendingBelow(Fives(front), n - 1, n, last);
    }
  }

  lemma AscendingBelow(ns: seq<nat>, below: nat, n: nat, last: nat)
    requires Ascending(ns, below) && below < n <= last
    ensures Ascending(ns, last) && Ascending(ns + [n], last)
  {
  }

  /** A whole turn, however it ends: the checkpoints reported are the multiples of five at
      which a round ended; all other multiples up to the number of results are missed, and
      none is exactly when a round ended at each of them. */
  lemma CheckpointsExactly(w: World, cfg: Config, start: Run)
    requires cfg.kind.TurnLoop? && Fresh(start) && start.toolCallCount == 0
    ensures var t := TallyOf(Execute(w, cfg, start).run.events);
            && t.reports == Fives(t.ends)
            && Missed(t.results, t.reports) == t.results / 5 - |t.reports|
            && (Missed(t.results, t.reports) == 0 <==>
                forall m: nat :: 0 < m <= t.results && m % 5 == 0 ==> m in t.ends)
  {
    WaitedTally(w, cfg, start);
    hide TallyOf, PhaseAfter, Next, AgentLoop.Loop, Missed;
    var o := Waited(w, cfg, start);
    var t := TallyOf(o.run.events);
    if CutOff(o.ending) {
      QuietTally(o.run.events, [StepEvent(|o.run.steps| + 1, Error(o.ending))]);
    }
    FivesAscend(t.ends, t.results);
    FivesAreFives(t.ends);
    MissedAndReported(t.results, t.reports);
    MissedNothing(t.results, t.reports);
  }

  lemma WaitedTally(w: World, cfg: Config, start: Run)
    requires cfg.kind.TurnLoop? && Fresh(start) && start.toolCallCount == 0
    ensures var t := TallyOf(Waited(w, cfg, start).run.events); Tallied(t, t.results)
  {
    if Starts(w, cfg) {
      LoopTally(w, cfg, start, 1);
    }
  }

  lemma SixCallStep(w: World, cfg: Config, start: Run)
    requires cfg.kind.TurnLoop? && Fresh(start) && start.toolCallCount == 0 && cfg.maxCost > 0
    requires w.llm(1).Replied? && |ToolUses(w.llm(1).response.content)| == 6 && w.tools(1).Gathered?
    ensures var p := Step(w, cfg, start, 1);
            p.Running? && TallyOf(p.run.events) == Tally(6, [6], [])
  {
    assert TallyOf(start.events) == Tally(0, [], []) && PhaseAfter(start.events) == Idle(0);
    assert Tallied(TallyOf(start.events), 0);
    StepRuns(w, cfg, start, 1);
    hide AgentLoop.Step, TallyOf, ToolUses, PhaseAfter, Next, Tallied, Fives, Ascending;
    StepTally(w, cfg, start, 1);
    var t := TallyOf(Step(w, cfg, start, 1).run.events);
    assert t.ends == [] + [6] == [6];
    OneEnd(t);
  }

  lemma OneEnd(t: Tally)
    requires Tallied(t, 6) && t.ends == [6]
    ensures t == Tally(6, [6], [])
  {
    assert [6][..0] == [];
  }

  lemma StepRuns(w: World, cfg: Config, r: Run, n: nat)
    requires r.steps == [] && cfg.maxCost > 0
    requires w.llm(n).Replied? && ToolUses(w.llm(n).response.content) != [] && w.tools(n).Gathered?
    ensures Step(w, cfg, r, n).Running?
  {
  }

  lemma OneStepLoop(w: World, cfg: Config, start: Run)
    requires cfg.maxSteps == 1 && Step(w, cfg, start, 1).Running?
    ensures Loop(w, cfg, start, 1) == Outcome(Emit(Step(w, cfg, start, 1).run, 1, Error(StepsExceeded)), StepsExceeded)
  {
    hide AgentLoop.Step;
    var next := Step(w, cfg, start, 1).run;
    assert Loop(w, cfg, next, 2) == Outcome(Emit(next, 1, Error(StepsExceeded)), StepsExceeded);
  }

  /** The smallest case: six calls at once pass a multiple of five unreported. */
  lemma SixCallsAtOnce(w: World, cfg: Config, start: Run)
    requires cfg.kind.TurnLoop? && Fresh(start) && start.toolCallCount == 0
    requires cfg.maxSteps == 1 && cfg.maxCost > 0 && Starts(w, cfg)
    requires w.llm(1).Replied? && |ToolUses(w.llm(1).response.content)| == 6 && w.tools(1).Gathered?
    ensures var t := TallyOf(Execute(w, cfg, start).run.events);
            t == Tally(6, [6], []) && Missed(t.results, t.reports) == 1
  {
    SixCallStep(w, cfg, start);
    OneStepLoop(w, cfg, start);
    hide AgentLoop.Step, AgentLoop.Loop, TallyOf, ToolUses, Missed;
    QuietTally(Step(w, cfg, start, 1).run.events, [StepEvent(1, Error(StepsExceeded))]);
    CheckpointsExactly(w, cfg, start);
  }
}
