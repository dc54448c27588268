/** Tool calls and tool results stay paired in the conversation history, over whole
    sessions and any number of compactions (enclave/agent/controller.py:106-186, 668-947). */
module Pairing {
  import opened Models
  import opened Compaction
  import opened AgentLoop

  // ---- What it means to be paired ----

  /** The tool calls that an assistant message asks for. */
  function Calls(m: Message): seq<ToolUse> {
    if m.role.Assistant? && m.content.Blocks? then ToolUses(m.content.blocks) else []
  }

  predicate BearsResults(m: Message) {
    m.role.User? && m.content.Blocks? && ToolResults(m.content.blocks) != []
  }

  /** `m` consists of one result for each of the calls, in order. */
  predicate Answers(m: Message, calls: seq<ToolUse>) {
    && m.role.User? && m.content.Blocks?
    && |m.content.blocks| == |calls|
    && forall i :: 0 <= i < |calls| ==>
         m.content.blocks[i].ToolResultBlock? && m.content.blocks[i].answer.toolUseId == calls[i].id
  }

  predicate PairedAt(h: seq<Message>, i: nat)
    requires i < |h|
  {
    && (BearsResults(h[i]) ==> i > 0 && Calls(h[i - 1]) != [])
    && (Calls(h[i]) != [] ==> i + 1 < |h| && Answers(h[i + 1], Calls(h[i])))
  }

  /** Every message with tool results sits right behind the assistant message whose
      calls it answers, and every assistant message with calls is answered. */
  predicate WellPaired(h: seq<Message>) {
    forall i: nat :: i < |h| ==> PairedAt(h, i)
  }

  /** A plain text of the user, as every session starts with. */
  predicate Opening(m: Message) {
    m.role.User? && m.content.Text?
  }

  /** Roles alternate from index 1 on: a compacted history starts with two user messages. */
  predicate Alternates(h: seq<Message>) {
    forall i :: 1 <= i < |h| - 1 ==> h[i].role != h[i + 1].role
  }

  /** The history at the head of a step: the model is to speak next. */
  predicate ModelsTurn(h: seq<Message>) {
    h != [] && Opening(h[0]) && h[|h| - 1].role.User? && Alternates(h) && WellPaired(h)
  }

  /** The history between two turns: empty, or the model has given its final reply. */
  predicate UsersTurn(h: seq<Message>) {
    h == [] || (Opening(h[0]) && |h| >= 2 && h[|h| - 1].role.Assistant? && Alternates(h) && WellPaired(h))
  }

  // ---- Appending messages ----

  lemma {:induction false} ResultsAreResults(uses: seq<ToolUse>, output: nat -> ToolOutput)
    requires uses != []
    ensures Answers(Message(User, Blocks(RoundResults(uses, output))), uses)
    ensures BearsResults(Message(User, Blocks(RoundResults(uses, output))))
  {
    var blocks := RoundResults(uses, output);
    assert blocks[|blocks| - 1].ToolResultBlock?;
  }

  lemma PairedAfterText(h: seq<Message>, m: Message)
    requires WellPaired(h) && !BearsResults(m) && Calls(m) == []
    ensures WellPaired(h + [m])
  {
    forall i: nat | i < |h + [m]| ensures PairedAt(h + [m], i) {
      if i < |h| { assert PairedAt(h, i); }
    }
  }

  lemma PairedAfterRound(h: seq<Message>, calls: Message, results: Message)
    requires WellPaired(h) && calls.role.Assistant? && Calls(calls) != []
    requires Answers(results, Calls(calls))
    ensures WellPaired(h + [calls, results])
  {
    var all := h + [calls, results];
    forall i: nat | i < |all| ensures PairedAt(all, i) {
      if i < |h| { assert PairedAt(h, i); }
    }
  }

  /** An assistant message with calls at the very end leaves them unanswered. */
  lemma DanglingCalls(h: seq<Message>, calls: Message)
    requires Calls(calls) != []
    ensures !WellPaired(h + [calls])
  {
    assert !PairedAt(h + [calls], |h|);
  }

  // ---- Compaction ----

  /** The first of the six recent messages, where compaction cuts the history. */
  function CutAt(h: seq<Message>): Message
    requires |h| > MIN_RECENT_MESSAGES
  {
    h[|h| - MIN_RECENT_MESSAGES]
  }

  lemma SummaryIsPlain(middle: seq<Message>)
    ensures Opening(Summary(middle)) && !BearsResults(Summary(middle)) && Calls(Summary(middle)) == []
  {
  }

  /** A cut history is paired exactly when its recent messages are: whatever was wrong
      before them, such as calls left dangling by a cut-off round, is gone. */
  lemma CutPairing(h: seq<Message>, summary: Message)
    requires |h| > 7 && Opening(h[0]) && Opening(summary)
    ensures WellPaired([h[0], summary] + Recent(h)) <==> WellPaired(Recent(h))
  {
    var recent := Recent(h);
    var cut := [h[0], summary] + recent;
    assert PairedAt(cut, 0);
    forall i: nat | i < |recent| ensures PairedAt(cut, i + 2) <==> PairedAt(recent, i) {
      assert cut[i + 2] == recent[i];
    }
    if WellPaired(recent) {
      forall i: nat | i < |cut| ensures PairedAt(cut, i) {
        if i >= 2 { assert PairedAt(recent, i - 2); }
      }
    }
  }

  /** In a paired history the recent messages are paired exactly when they do not begin
      with tool results. */
  lemma RecentPairing(h: seq<Message>)
    requires |h| > MIN_RECENT_MESSAGES && WellPaired(h)
    ensures WellPaired(Recent(h)) <==> !BearsResults(CutAt(h))
  {
    var recent, shift := Recent(h), |h| - MIN_RECENT_MESSAGES;
    if BearsResults(CutAt(h)) {
      assert !PairedAt(recent, 0);
    } else {
      forall i: nat | i < |recent| ensures PairedAt(recent, i) {
        assert PairedAt(h, shift + i);
      }
    }
  }

  /** A cut history stays paired exactly when the cut does not land on tool results. */
  lemma CutKeepsPairing(h: seq<Message>, summary: Message)
    requires |h| > 7 && Opening(h[0]) && Opening(summary) && WellPaired(h)
    ensures WellPaired([h[0], summary] + Recent(h)) <==> !BearsResults(CutAt(h))
  {
    CutPairing(h, summary);
    RecentPairing(h);
  }

  /** The exact condition under which `CompactHistory` returns a paired history, for every
      history that starts as sessions do: where it compacts at all, the recent messages
      must be paired among themselves; otherwise the history itself. */
  lemma CompactionPairingExact(h: seq<Message>, targetTokens: int, systemTokens: int)
    requires h != [] && Opening(h[0])
    ensures WellPaired(Compacted(h, targetTokens, systemTokens)) <==>
            if |h| > 7 && MessagesTokens(h) > targetTokens - systemTokens then WellPaired(Recent(h)) else WellPaired(h)
  {
    hide WellPaired, MessagesTokens, Summary;
    if |h| > 7 && MessagesTokens(h) > targetTokens - systemTokens {
      SummaryIsPlain(Middle(h));
      CutPairing(h, Summary(Middle(h)));
    }
  }

  /** For a paired history: the cut must not separate results from their calls. */
  lemma CompactionOfPaired(h: seq<Message>, targetTokens: int, systemTokens: int)
    requires h != [] && Opening(h[0]) && WellPaired(h)
    ensures WellPaired(Compacted(h, targetTokens, systemTokens)) <==>
            |h| <= 7 || MessagesTokens(h) <= targetTokens - systemTokens || !BearsResults(CutAt(h))
  {
    CompactionPairingExact(h, targetTokens, systemTokens);
    if |h| > 7 {
      RecentPairing(h);
    }
  }

  /** With alternating roles and the user last, the cut lands on an assistant message. */
  lemma CutOfAlternating(h: seq<Message>)
    requires |h| > 7 && Alternates(h) && h[|h| - 1].role.User?
    ensures CutAt(h).role.Assistant?
  {
    var k := |h|;
    assert h[k - 2].role.Assistant?;
    assert h[k - 3].role.User?;
    assert h[k - 4].role.Assistant?;
    assert h[k - 5].role.User?;
  }

  lemma CutKeepsAlternation(h: seq<Message>, summary: Message)
    requires |h| > 7 && Alternates(h) && h[|h| - 1].role.User? && summary.role.User?
    ensures Alternates([h[0], summary] + Recent(h))
  {
    CutOfAlternating(h);
    var cut := [h[0], summary] + Recent(h);
    var shift := |h| - 8;
    forall i | 1 <= i < |cut| - 1 ensures cut[i].role != cut[i + 1].role {
      if i >= 2 {
        assert cut[i] == h[shift + i] && cut[i + 1] == h[shift + i + 1];
      }
    }
  }

  lemma GuardKeepsPairing(kind: LoopKind, r: Run, n: nat)
    requires ModelsTurn(r.messages)
    ensures ModelsTurn(Guarded(kind, r, n).messages)
    ensures Guarded(kind, r, n).messages[0] == r.messages[0]
    ensures Guarded(kind, r, n).calls == r.calls
  {
    var h := r.messages;
    if NeedsCompaction(kind, h) && |h| > 7 {
      GuardedCompaction(kind.systemPrompt, h, kind.compactLimit);
      var summary := Summary(Middle(h));
      SummaryIsPlain(Middle(h));
      hide MessagesTokens, Summary, WellPaired, Alternates;
      CutOfAlternating(h);
      CutKeepsPairing(h, summary);
      CutKeepsAlternation(h, summary);
      assert Guarded(kind, r, n).messages == [h[0], summary] + Recent(h);
    } else if NeedsCompaction(kind, h) {
      assert |h| == 7;
      GuardedCompaction(kind.systemPrompt, h, kind.compactLimit);
    }
  }

  // ---- Steps, turns and sessions ----

  predicate StartsWith(h: seq<Message>, first: Message) {
    h != [] && h[0] == first
  }

  /** What a turn leaves behind. */
  predicate Left(kind: LoopKind, o: Outcome, first: Message) {
    && (WellPaired(o.run.messages) <==> !InRound(o.ending))
    && (o.ending.Completed? && kind.TurnLoop? ==> UsersTurn(o.run.messages))
    && (!o.ending.Completed? && !InRound(o.ending) ==> ModelsTurn(o.run.messages))
    && StartsWith(o.run.messages, first)
  }

  predicate Prompted(calls: seq<LlmCall>, first: Message) {
    forall i :: 0 <= i < |calls| ==> ModelsTurn(calls[i].prompt) && StartsWith(calls[i].prompt, first)
  }

  lemma ReplyIsLast(h: seq<Message>, said: Message)
    requires ModelsTurn(h) && said.role.Assistant? && Calls(said) == []
    ensures WellPaired(h + [said]) && UsersTurn(h + [said])
  {
    PairedAfterText(h, said);
  }

  lemma RoundReturnsToModel(h: seq<Message>, said: Message, results: Message)
    requires ModelsTurn(h) && said.role.Assistant? && Calls(said) != []
    requires Answers(results, Calls(said))
    ensures ModelsTurn(h + [said] + [results])
  {
    PairedAfterRound(h, said, results);
    assert h + [said] + [results] == h + [said, results];
  }

  lemma ReplyKeepsPairing(w: World, kind: LoopKind, r: Run, n: nat, resp: LLMResponse)
    requires ModelsTurn(r.messages)
    ensures match AfterReply(w, kind, r, n, resp)
            case Running(next) =>
              ModelsTurn(next.messages) && StartsWith(next.messages, r.messages[0]) && next.calls == r.calls
            case Stopped(o) => Left(kind, o, r.messages[0]) && o.run.calls == r.calls
  {
    var h, said := r.messages, Message(Assistant, Blocks(resp.content));
    assert Calls(said) == ToolUses(resp.content);
    if Calls(said) == [] {
      ReplyIsLast(h, said);
    } else {
      DanglingCalls(h, said);
      if w.tools(n).Gathered? {
        var results := Message(User, Blocks(RoundResults(Calls(said), w.tools(n).output)));
        ResultsAreResults(Calls(said), w.tools(n).output);
        RoundReturnsToModel(h, said, results);
      }
    }
  }

  lemma AskingKeepsPairing(kind: LoopKind, r: Run, n: nat, outcome: LlmOutcome)
    requires ModelsTurn(r.messages) && Prompted(r.calls, r.messages[0])
    ensures var asked := Asked(Guarded(kind, r, n), n, outcome);
            && ModelsTurn(asked.messages) && StartsWith(asked.messages, r.messages[0])
            && WellPaired(asked.messages)
            && Prompted(asked.calls, r.messages[0])
  {
    GuardKeepsPairing(kind, r, n);
  }

  lemma StepKeepsPairing(w: World, cfg: Config, r: Run, n: nat)
    requires ModelsTurn(r.messages) && Prompted(r.calls, r.messages[0])
    ensures match Step(w, cfg, r, n)
            case Running(next) =>
              && ModelsTurn(next.messages) && StartsWith(next.messages, r.messages[0])
              && Prompted(next.calls, r.messages[0])
            case Stopped(o) => Left(cfg.kind, o, r.messages[0]) && Prompted(o.run.calls, r.messages[0])
  {
    if SumCost(r.steps) < cfg.maxCost {
      AskingKeepsPairing(cfg.kind, r, n, w.llm(n));
      hide AgentLoop.AfterReply, AgentLoop.Guarded, ModelsTurn, Prompted, WellPaired;
      var asked := Asked(Guarded(cfg.kind, r, n), n, w.llm(n));
      if w.llm(n).Replied? {
        ReplyKeepsPairing(w, cfg.kind, asked, n, w.llm(n).response);
      }
    }
  }

  lemma {:induction false} LoopKeepsPairing(w: World, cfg: Config, r: Run, n: nat)
    requires ModelsTurn(r.messages) && Prompted(r.calls, r.messages[0])
    ensures var o := Loop(w, cfg, r, n);
            Left(cfg.kind, o, r.messages[0]) && Prompted(o.run.calls, r.messages[0])
    decreases cfg.maxSteps - n
  {
    if n <= cfg.maxSteps {
      StepKeepsPairing(w, cfg, r, n);
      hide AgentLoop.Step, Left, ModelsTurn, Prompted;
      match Step(w, cfg, r, n)
      case Running(next) =>
        LoopKeepsPairing(w, cfg, next, n + 1);
      case Stopped(o) =>
    }
  }

  datatype Turn = Turn(
    userMessage: string, systemPrompt: string, compactLimit: int,
    maxSteps: int, maxCost: int, timeout: real, world: World)

  function TurnConfig(t: Turn): Config {
    Config(TurnLoop(t.systemPrompt, t.compactLimit), t.maxSteps, t.maxCost, t.timeout)
  }

  function RunTurn(t: Turn, history: seq<Message>): Outcome {
    Execute(t.world, TurnConfig(t), TurnStart(history, t.userMessage))
  }

  /** The history that a session of turns leaves behind. */
  function HistoryAfter(turns: seq<Turn>): seq<Message>
    decreases turns, 1
  {
    if turns == [] then [] else LastTurn(turns).run.messages
  }

  function LastTurn(turns: seq<Turn>): Outcome
    requires turns != []
    decreases turns, 0
  {
    RunTurn(turns[|turns| - 1], HistoryAfter(turns[..|turns| - 1]))
  }

  predicate AllReplied(turns: seq<Turn>) {
    turns != [] ==> AllReplied(turns[..|turns| - 1]) && LastTurn(turns).ending.Completed?
  }

  lemma TurnKeepsPairing(t: Turn, history: seq<Message>)
    requires UsersTurn(history)
    ensures var o := RunTurn(t, history);
            var first := if history == [] then UserText(t.userMessage) else history[0];
            Left(TurnConfig(t).kind, o, first) && Prompted(o.run.calls, first)
  {
    var start := TurnStart(history, t.userMessage);
    PairedAfterText(history, UserText(t.userMessage));
    LoopKeepsPairing(t.world, TurnConfig(t), start, 1);
  }

  lemma {:induction false} SessionReachesUsersTurn(turns: seq<Turn>)
    requires AllReplied(turns)
    ensures UsersTurn(HistoryAfter(turns))
    ensures turns != [] ==> StartsWith(HistoryAfter(turns), UserText(turns[0].userMessage))
  {
    if turns != [] {
      var front, t := turns[..|turns| - 1], turns[|turns| - 1];
      SessionReachesUsersTurn(front);
      hide UsersTurn, RunTurn;
      TurnKeepsPairing(t, HistoryAfter(front));
    }
  }

  /** In a session whose earlier turns all ended with a reply, every request of the
      current turn carries a well-paired history that starts with the session's first
      message; and the turn leaves a well-paired history exactly when it was not cut
      off inside a tool round. */
  lemma SessionStaysPaired(turns: seq<Turn>)
    requires turns != [] && AllReplied(turns[..|turns| - 1])
    ensures var o := LastTurn(turns);
            && (forall i :: 0 <= i < |o.run.calls| ==>
                  && WellPaired(o.run.calls[i].prompt)
                  && StartsWith(o.run.calls[i].prompt, UserText(turns[0].userMessage)))
            && (WellPaired(o.run.messages) <==> !InRound(o.ending))
            && StartsWith(o.run.messages, UserText(turns[0].userMessage))
  {
    var front, t := turns[..|turns| - 1], turns[|turns| - 1];
    SessionReachesUsersTurn(front);
    TurnKeepsPairing(t, HistoryAfter(front));
  }

  // ---- The exact condition for any history ----

  /** Whether the guard leaves a paired history of `h`. */
  predicate PairedWhenGuarded(kind: LoopKind, h: seq<Message>) {
    if NeedsCompaction(kind, h) && |h| > 7 then WellPaired(Recent(h)) else WellPaired(h)
  }

  /** The guard compacts, and its cut separates tool results from their calls. */
  predicate BadCut(kind: LoopKind, h: seq<Message>) {
    NeedsCompaction(kind, h) && |h| > 7 && BearsResults(CutAt(h))
  }

  lemma GuardPairingExact(kind: LoopKind, r: Run, n: nat)
    requires r.messages != [] && Opening(r.messages[0])
    ensures WellPaired(Guarded(kind, r, n).messages) <==> PairedWhenGuarded(kind, r.messages)
    ensures Opening(Guarded(kind, r, n).messages[0])
    ensures Guarded(kind, r, n).calls == r.calls
  {
    hide WellPaired;
    if NeedsCompaction(kind, r.messages) {
      GuardedCompaction(kind.systemPrompt, r.messages, kind.compactLimit);
      CompactionPairingExact(r.messages, kind.compactLimit, EstimateTokens(kind.systemPrompt));
    }
  }

  lemma PairedUnlessBadCut(kind: LoopKind, h: seq<Message>)
    requires WellPaired(h)
    ensures PairedWhenGuarded(kind, h) <==> !BadCut(kind, h)
  {
    if |h| > MIN_RECENT_MESSAGES {
      RecentPairing(h);
    }
  }

  /** A fault, such as a call left dangling by a cut-off round, spoils every request until a
      cut behind it takes it away. */
  lemma FaultIsCutAway(kind: LoopKind, h: seq<Message>, i: nat)
    requires i < |h| && !PairedAt(h, i)
    ensures PairedWhenGuarded(kind, h) ==> NeedsCompaction(kind, h) && |h| > 7 && i < |h| - MIN_RECENT_MESSAGES
  {
    hide NeedsCompaction, BearsResults, Calls, Answers;
    if NeedsCompaction(kind, h) && |h| > 7 && i >= |h| - MIN_RECENT_MESSAGES {
      assert !PairedAt(Recent(h), i - (|h| - MIN_RECENT_MESSAGES));
    }
  }

  lemma ReplyKeepsCalls(w: World, kind: LoopKind, r: Run, n: nat, resp: LLMResponse)
    ensures var p := AfterReply(w, kind, r, n, resp);
            var next := if p.Running? then p.run else p.outcome.run;
            next.calls == r.calls && (r.messages != [] ==> StartsWith(next.messages, r.messages[0]))
  {
  }

  /** From any history, whatever ended the earlier turns and rounds: the step's request
      is well paired exactly when the guard leaves a paired history. */
  lemma PromptPairingExact(w: World, cfg: Config, r: Run, n: nat)
    requires r.messages != [] && Opening(r.messages[0])
    requires SumCost(r.steps) < cfg.maxCost
    ensures var p := Step(w, cfg, r, n);
            var next := if p.Running? then p.run else p.outcome.run;
            && |next.calls| == |r.calls| + 1
            && next.calls[..|r.calls|] == r.calls
            && (WellPaired(next.calls[|r.calls|].prompt) <==> PairedWhenGuarded(cfg.kind, r.messages))
            && next.messages != [] && Opening(next.messages[0])
  {
    GuardPairingExact(cfg.kind, r, n);
    hide AgentLoop.Guarded, AgentLoop.AfterReply, PairedWhenGuarded, WellPaired;
    var asked := Asked(Guarded(cfg.kind, r, n), n, w.llm(n));
    if w.llm(n).Replied? {
      ReplyKeepsCalls(w, cfg.kind, asked, n, w.llm(n).response);
    }
  }

  // ---- ... over whole sessions ----

  /** The histories at the head of the steps that make a request, from step `n` on. */
  function Heads(w: World, cfg: Config, r: Run, n: nat): seq<seq<Message>>
    decreases cfg.maxSteps - n
  {
    if n > cfg.maxSteps || SumCost(r.steps) >= cfg.maxCost then []
    else [r.messages] + match Step(w, cfg, r, n) case Running(next) => Heads(w, cfg, next, n + 1) case Stopped(_) => []
  }

  /** The calls behind the first `k` were made one for each head, with the pairing that
      the guard leaves. */
  predicate PromptsMatch(kind: LoopKind, calls: seq<LlmCall>, k: nat, heads: seq<seq<Message>>) {
    && |calls| == k + |heads|
    && forall i :: 0 <= i < |heads| ==> (WellPaired(calls[k + i].prompt) <==> PairedWhenGuarded(kind, heads[i]))
  }

  lemma PromptsBehindFirst(kind: LoopKind, calls: seq<LlmCall>, k: nat, head: seq<Message>, more: seq<seq<Message>>)
    requires PromptsMatch(kind, calls, k + 1, more)
    requires WellPaired(calls[k].prompt) <==> PairedWhenGuarded(kind, head)
    ensures PromptsMatch(kind, calls, k, [head] + more)
  {
    hide WellPaired, PairedWhenGuarded;
    var heads := [head] + more;
    forall i | 0 <= i < |heads|
      ensures WellPaired(calls[k + i].prompt) <==> PairedWhenGuarded(kind, heads[i])
    {
      if i > 0 {
        assert heads[i] == more[i - 1] && k + i == k + 1 + (i - 1);
      }
    }
  }

  lemma PromptsOfRest(kind: LoopKind, before: seq<LlmCall>, asked: seq<LlmCall>, calls: seq<LlmCall>,
                      head: seq<Message>, more: seq<seq<Message>>)
    requires |asked| == |before| + 1 && asked[..|before|] == before
    requires |asked| <= |calls| && calls[..|asked|] == asked
    requires WellPaired(asked[|before|].prompt) <==> PairedWhenGuarded(kind, head)
    requires PromptsMatch(kind, calls, |asked|, more)
    ensures PromptsMatch(kind, calls, |before|, [head] + more)
    ensures calls[..|before|] == before
  {
    hide WellPaired, PairedWhenGuarded, PromptsMatch;
    assert calls[|before|] == asked[|before|];
    assert calls[..|before|] == asked[..|before|];
    PromptsBehindFirst(kind, calls, |before|, head, more);
  }

  lemma NonePrompted(kind: LoopKind, calls: seq<LlmCall>)
    ensures PromptsMatch(kind, calls, |calls|, [])
  {
  }

  lemma {:induction false} LoopPromptsExact(w: World, cfg: Config, r: Run, n: nat)
    requires r.messages != [] && Opening(r.messages[0])
    ensures var o := Loop(w, cfg, r, n);
            && PromptsMatch(cfg.kind, o.run.calls, |r.calls|, Heads(w, cfg, r, n))
            && |r.calls| <= |o.run.calls| && o.run.calls[..|r.calls|] == r.calls
            && o.run.messages != [] && Opening(o.run.messages[0])
    decreases cfg.maxSteps - n
  {
    hide PairedWhenGuarded, WellPaired, Opening, PromptsMatch;
    if n > cfg.maxSteps || SumCost(r.steps) >= cfg.maxCost {
      NonePrompted(cfg.kind, r.calls);
      assert Loop(w, cfg, r, n).run.calls == r.calls;
    } else {
      PromptPairingExact(w, cfg, r, n);
      hide AgentLoop.Step, SumCost;
      match Step(w, cfg, r, n)
      case Running(next) =>
        LoopPromptsExact(w, cfg, next, n + 1);
        var o := Loop(w, cfg, next, n + 1);
        assert Loop(w, cfg, r, n) == o;
        PromptsOfRest(cfg.kind, r.calls, next.calls, o.run.calls, r.messages, Heads(w, cfg, next, n + 1));
      case Stopped(o) =>
        NonePrompted(cfg.kind, o.run.calls);
        PromptsBehindFirst(cfg.kind, o.run.calls, |r.calls|, r.messages, []);
        assert Loop(w, cfg, r, n) == o;
    }
  }

  /** The histories at the heads of a turn's steps. */
  function TurnHeads(t: Turn, history: seq<Message>): seq<seq<Message>> {
    if Starts(t.world, TurnConfig(t)) then Heads(t.world, TurnConfig(t), TurnStart(history, t.userMessage), 1) else []
  }

  lemma TurnPromptsExact(t: Turn, history: seq<Message>)
    requires history == [] || Opening(history[0])
    ensures var o, heads := RunTurn(t, history), TurnHeads(t, history);
            && |o.run.calls| == |heads|
            && (forall i :: 0 <= i < |heads| ==>
                  (WellPaired(o.run.calls[i].prompt) <==> PairedWhenGuarded(TurnConfig(t).kind, heads[i])))
            && o.run.messages != [] && Opening(o.run.messages[0])
  {
    hide PairedWhenGuarded, WellPaired, AgentLoop.Loop, Heads;
    LoopPromptsExact(t.world, TurnConfig(t), TurnStart(history, t.userMessage), 1);
  }

  lemma {:induction false} SessionStartsOpen(turns: seq<Turn>)
    ensures turns != [] ==> HistoryAfter(turns) != [] && Opening(HistoryAfter(turns)[0])
  {
    if turns != [] {
      SessionStartsOpen(turns[..|turns| - 1]);
      TurnPromptsExact(turns[|turns| - 1], HistoryAfter(turns[..|turns| - 1]));
    }
  }

  function LastHeads(turns: seq<Turn>): seq<seq<Message>>
    requires turns != []
  {
    TurnHeads(turns[|turns| - 1], HistoryAfter(turns[..|turns| - 1]))
  }

  /** In every session, whatever its turns and tool rounds ended with, the current turn
      makes one request for each head of a step, and the request is well paired exactly
      when the guard leaves a paired history of that head. */
  lemma SessionPromptsExact(turns: seq<Turn>)
    requires turns != []
    ensures var calls, heads := LastTurn(turns).run.calls, LastHeads(turns);
            && |calls| == |heads|
            && forall i :: 0 <= i < |calls| ==>
                 (WellPaired(calls[i].prompt) <==>
                  PairedWhenGuarded(TurnConfig(turns[|turns| - 1]).kind, heads[i]))
  {
    SessionStartsOpen(turns[..|turns| - 1]);
    TurnPromptsExact(turns[|turns| - 1], HistoryAfter(turns[..|turns| - 1]));
  }

  // ---- Sessions in which no round was cut off ----

  predicate AllPaired(calls: seq<LlmCall>) {
    forall i :: 0 <= i < |calls| ==> WellPaired(calls[i].prompt)
  }

  predicate AnyBadCut(kind: LoopKind, heads: seq<seq<Message>>) {
    exists i :: 0 <= i < |heads| && BadCut(kind, heads[i])
  }

  lemma ReplyPairing(w: World, kind: LoopKind, r: Run, n: nat, resp: LLMResponse)
    requires WellPaired(r.messages)
    ensures match AfterReply(w, kind, r, n, resp)
            case Running(next) => WellPaired(next.messages)
            case Stopped(o) => InRound(o.ending) || WellPaired(o.run.messages)
  {
    var h, said := r.messages, Message(Assistant, Blocks(resp.content));
    assert Calls(said) == ToolUses(resp.content);
    if Calls(said) == [] {
      PairedAfterText(h, said);
    } else if w.tools(n).Gathered? {
      var results := Message(User, Blocks(RoundResults(Calls(said), w.tools(n).output)));
      ResultsAreResults(Calls(said), w.tools(n).output);
      PairedAfterRound(h, said, results);
      assert h + [said] + [results] == h + [said, results];
    }
  }

  lemma StepPairing(w: World, cfg: Config, r: Run, n: nat)
    requires r.messages != [] && Opening(r.messages[0]) && WellPaired(r.messages) && !BadCut(cfg.kind, r.messages)
    ensures match Step(w, cfg, r, n)
            case Running(next) => WellPaired(next.messages)
            case Stopped(o) => InRound(o.ending) || WellPaired(o.run.messages)
  {
    if SumCost(r.steps) < cfg.maxCost {
      GuardPairingExact(cfg.kind, r, n);
      PairedUnlessBadCut(cfg.kind, r.messages);
      hide AgentLoop.Guarded, AgentLoop.AfterReply, BadCut, PairedWhenGuarded, WellPaired;
      var asked := Asked(Guarded(cfg.kind, r, n), n, w.llm(n));
      if w.llm(n).Replied? {
        ReplyPairing(w, cfg.kind, asked, n, w.llm(n).response);
      }
    }
  }

  lemma {:induction false} LoopPairing(w: World, cfg: Config, r: Run, n: nat)
    requires r.messages != [] && Opening(r.messages[0]) && WellPaired(r.messages)
    ensures var o, heads := Loop(w, cfg, r, n), Heads(w, cfg, r, n);
            && (AnyBadCut(cfg.kind, heads) <==> exists i :: 0 <= i < |heads| && !PairedWhenGuarded(cfg.kind, heads[i]))
            && (!AnyBadCut(cfg.kind, heads) && !InRound(o.ending) ==> WellPaired(o.run.messages))
    decreases cfg.maxSteps - n
  {
    hide AgentLoop.Step, BadCut, PairedWhenGuarded, WellPaired, Opening;
    if n <= cfg.maxSteps && SumCost(r.steps) < cfg.maxCost {
      var heads := Heads(w, cfg, r, n);
      assert heads[0] == r.messages;
      PairedUnlessBadCut(cfg.kind, r.messages);
      if !BadCut(cfg.kind, r.messages) {
        StepPairing(w, cfg, r, n);
        PromptPairingExact(w, cfg, r, n);
        match Step(w, cfg, r, n)
        case Running(next) =>
          LoopPairing(w, cfg, next, n + 1);
          HeadsBehindFirst(cfg.kind, r.messages, Heads(w, cfg, next, n + 1));
        case Stopped(_) =>
      }
    } else if n <= cfg.maxSteps {
      CostGuardStops(w, cfg, r, n);
    }
  }

  lemma CostGuardStops(w: World, cfg: Config, r: Run, n: nat)
    requires n <= cfg.maxSteps && SumCost(r.steps) >= cfg.maxCost
    ensures Loop(w, cfg, r, n).run.messages == r.messages
  {
  }

  lemma HeadsBehindFirst(kind: LoopKind, first: seq<Message>, more: seq<seq<Message>>)
    requires !BadCut(kind, first) && PairedWhenGuarded(kind, first)
    ensures AnyBadCut(kind, [first] + more) <==> AnyBadCut(kind, more)
    ensures (exists i :: 0 <= i < |[first] + more| && !PairedWhenGuarded(kind, ([first] + more)[i]))
       <==> exists i :: 0 <= i < |more| && !PairedWhenGuarded(kind, more[i])
  {
    hide BadCut, PairedWhenGuarded;
    var all := [first] + more;
    assert forall i :: 0 <= i < |more| ==> all[i + 1] == more[i];
    assert forall i :: 1 <= i < |all| ==> all[i] == more[i - 1];
  }

  /** No turn was cut off inside a tool round. */
  predicate NoRoundCutOff(turns: seq<Turn>) {
    turns != [] ==> NoRoundCutOff(turns[..|turns| - 1]) && !InRound(LastTurn(turns).ending)
  }

  /** Every request of every turn is well paired. */
  predicate SessionPaired(turns: seq<Turn>) {
    turns != [] ==> SessionPaired(turns[..|turns| - 1]) && AllPaired(LastTurn(turns).run.calls)
  }

  /** Some step of some turn makes a bad cut. */
  predicate SessionCutsBadly(turns: seq<Turn>) {
    turns != [] &&
    (SessionCutsBadly(turns[..|turns| - 1]) || AnyBadCut(TurnConfig(turns[|turns| - 1]).kind, LastHeads(turns)))
  }

  lemma TurnPairing(t: Turn, history: seq<Message>)
    requires history == [] || Opening(history[0])
    requires WellPaired(history)
    ensures var o, heads := RunTurn(t, history), TurnHeads(t, history);
            && (AllPaired(o.run.calls) <==> !AnyBadCut(TurnConfig(t).kind, heads))
            && (AllPaired(o.run.calls) && !InRound(o.ending) ==> WellPaired(o.run.messages))
  {
    PairedAfterText(history, UserText(t.userMessage));
    TurnPromptsExact(t, history);
    LoopPairing(t.world, TurnConfig(t), TurnStart(history, t.userMessage), 1);
    hide PairedWhenGuarded, BadCut, WellPaired, AgentLoop.Loop, Heads;
  }

  lemma {:induction false} SessionPairing(turns: seq<Turn>)
    requires NoRoundCutOff(turns) && SessionPaired(turns)
    ensures WellPaired(HistoryAfter(turns))
  {
    if turns != [] {
      var front, t := turns[..|turns| - 1], turns[|turns| - 1];
      SessionPairing(front);
      SessionStartsOpen(front);
      hide WellPaired, AnyBadCut, AllPaired, RunTurn;
      TurnPairing(t, HistoryAfter(front));
    }
  }

  /** In a session none of whose earlier turns was cut off inside a tool round, whether
      they replied, failed or ended at a guard, all requests are well paired exactly when
      no step makes a bad cut. */
  lemma {:induction false} SessionPairedExactly(turns: seq<Turn>)
    requires turns != [] ==> NoRoundCutOff(turns[..|turns| - 1])
    ensures SessionPaired(turns) <==> !SessionCutsBadly(turns)
  {
    if turns != [] {
      var front, t := turns[..|turns| - 1], turns[|turns| - 1];
      SessionPairedExactly(front);
      if SessionPaired(front) {
        SessionPairing(front);
        SessionStartsOpen(front);
        hide WellPaired, AnyBadCut, AllPaired, RunTurn, Opening;
        TurnPairing(t, HistoryAfter(front));
      }
    }
  }
}
