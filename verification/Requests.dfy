/** What the providers make of the requests of whole sessions. */
module Requests {
  import opened Models
  import opened Compaction
  import opened AgentLoop
  import opened Pairing
  import opened Providers

  predicate WellShaped(m: Message) {
    m.role.User? && m.content.Blocks? ==> m.content.blocks != [] && OnlyResults(m.content.blocks)
  }

  lemma ShapedAppend(h: seq<Message>, m: Message)
    requires Shaped(h) && WellShaped(m)
    requires h != [] && BearsResults(h[|h| - 1]) ==> !BearsResults(m)
    ensures Shaped(h + [m])
  {
    hide BearsResults, OnlyResults;
    var all := h + [m];
    assert forall i :: 0 <= i < |h| ==> all[i] == h[i];
  }

  lemma ShapedCut(h: seq<Message>, summary: Message)
    requires |h| > 7 && Shaped(h) && Opening(summary) && Opening(h[0])
    ensures Shaped([h[0], summary] + Recent(h))
  {
    var cut := [h[0], summary] + Recent(h);
    var shift := |h| - 8;
    assert forall i :: 2 <= i < 8 ==> cut[i] == h[shift + i];
    assert !BearsResults(h[0]) && !BearsResults(summary);
    hide BearsResults, OnlyResults;
    forall i | 0 <= i < |cut| - 1 && BearsResults(cut[i]) ensures !BearsResults(cut[i + 1]) {
      if i >= 2 {
        assert cut[i + 1] == h[shift + i + 1];
      }
    }
  }

  /** Shaped, with the session's first message in front. */
  predicate Formed(h: seq<Message>, first: Message) {
    StartsWith(h, first) && Opening(first) && Shaped(h)
  }

  lemma GuardKeepsShape(kind: LoopKind, r: Run, n: nat, first: Message)
    requires Formed(r.messages, first)
    ensures Formed(Guarded(kind, r, n).messages, first) && Guarded(kind, r, n).calls == r.calls
  {
    if NeedsCompaction(kind, r.messages) {
      GuardedCompaction(kind.systemPrompt, r.messages, kind.compactLimit);
      if |r.messages| > 7 {
        SummaryIsPlain(Middle(r.messages));
        ShapedCut(r.messages, Summary(Middle(r.messages)));
      }
    }
  }

  lemma ResultsAreShaped(uses: seq<ToolUse>, output: nat -> ToolOutput)
    requires uses != []
    ensures WellShaped(Message(User, Blocks(RoundResults(uses, output))))
  {
  }

  lemma ReplyKeepsShape(w: World, kind: LoopKind, r: Run, n: nat, resp: LLMResponse, first: Message)
    requires Formed(r.messages, first)
    ensures var p := AfterReply(w, kind, r, n, resp);
            var next := if p.Running? then p.run else p.outcome.run;
            Formed(next.messages, first) && next.calls == r.calls
  {
    var h, said := r.messages, Message(Assistant, Blocks(resp.content));
    var uses := ToolUses(resp.content);
    ShapedAppend(h, said);
    if uses != [] && w.tools(n).Gathered? {
      var results := Message(User, Blocks(RoundResults(uses, w.tools(n).output)));
      ResultsAreShaped(uses, w.tools(n).output);
      hide Shaped, WellShaped;
      ShapedAppend(h + [said], results);
    }
  }

  predicate AllFormed(calls: seq<LlmCall>, first: Message) {
    forall i :: 0 <= i < |calls| ==> Formed(calls[i].prompt, first)
  }

  lemma StepKeepsShape(w: World, cfg: Config, r: Run, n: nat, first: Message)
    requires Formed(r.messages, first) && AllFormed(r.calls, first)
    ensures var p := Step(w, cfg, r, n);
            var next := if p.Running? then p.run else p.outcome.run;
            Formed(next.messages, first) && AllFormed(next.calls, first)
  {
    GuardKeepsShape(cfg.kind, r, n, first);
    hide AgentLoop.AfterReply, AgentLoop.Guarded, Formed;
    if SumCost(r.steps) < cfg.maxCost {
      var asked := Asked(Guarded(cfg.kind, r, n), n, w.llm(n));
      if w.llm(n).Replied? {
        ReplyKeepsShape(w, cfg.kind, asked, n, w.llm(n).response, first);
      }
    }
  }

  lemma {:induction false} LoopKeepsShape(w: World, cfg: Config, r: Run, n: nat, first: Message)
    requires Formed(r.messages, first) && AllFormed(r.calls, first)
    ensures var run := Loop(w, cfg, r, n).run; Formed(run.messages, first) && AllFormed(run.calls, first)
    decreases cfg.maxSteps - n
  {
    if n <= cfg.maxSteps {
      StepKeepsShape(w, cfg, r, n, first);
      hide AgentLoop.Step, Formed, AllFormed;
      var p := Step(w, cfg, r, n);
      if p.Running? {
        LoopKeepsShape(w, cfg, p.run, n + 1, first);
      }
    }
  }

  lemma TurnKeepsShape(t: Turn, history: seq<Message>, first: Message)
    requires if history == [] then first == UserText(t.userMessage) else Formed(history, first)
    ensures var run := RunTurn(t, history).run; Formed(run.messages, first) && AllFormed(run.calls, first)
  {
    ShapedAppend(history, UserText(t.userMessage));
    hide Shaped, AgentLoop.Loop;
    LoopKeepsShape(t.world, TurnConfig(t), TurnStart(history, t.userMessage), 1, first);
  }

  /** In every session, however its turns and rounds ended: every request and the history
      left start with the session's first message, and block messages of the user hold
      tool results only and never follow each other. */
  lemma {:induction false} SessionKeepsShape(turns: seq<Turn>)
    ensures turns != [] ==>
              var first := UserText(turns[0].userMessage);
              Formed(HistoryAfter(turns), first) && AllFormed(LastTurn(turns).run.calls, first)
  {
    if turns != [] {
      SessionKeepsShape(turns[..|turns| - 1]);
      hide Formed, AllFormed, RunTurn;
      TurnKeepsShape(turns[|turns| - 1], HistoryAfter(turns[..|turns| - 1]), UserText(turns[0].userMessage));
    }
  }

  /** In every session, however its turns ended, the provider accepts a request exactly
      when the request's history is well paired; and it accepts every request of a turn
      whose predecessors all ended with a reply. */
  lemma RequestsAcceptedExactly(turns: seq<Turn>)
    requires turns != []
    ensures var calls := LastTurn(turns).run.calls;
            && (forall i :: 0 <= i < |calls| ==>
                  (Accepted(Convert(calls[i].prompt)) <==> WellPaired(calls[i].prompt)))
            && (AllReplied(turns[..|turns| - 1]) ==>
                  forall i :: 0 <= i < |calls| ==> Accepted(Convert(calls[i].prompt)))
  {
    SessionKeepsShape(turns);
    var calls := LastTurn(turns).run.calls;
    if AllReplied(turns[..|turns| - 1]) {
      SessionStaysPaired(turns);
    }
    hide LastTurn, Accepted, Convert, WellPaired, AllReplied;
    forall i | 0 <= i < |calls|
      ensures Accepted(Convert(calls[i].prompt)) <==> WellPaired(calls[i].prompt)
    {
      AcceptedExactly(calls[i].prompt);
    }
  }
}
