/** Tool names over whole sessions: as long as providers give every tool call a fresh id,
    the ids of every request are unique and the Gemini client names every result after the
    call it answers (enclave/agent/llm_client.py:1227-1246). */
module SessionNames {
  import opened Models
  import opened Compaction
  import opened AgentLoop
  import opened LoopAccounts
  import opened Pairing
  import opened Gemini

  // ---- Fresh ids ----

  function IdsIn(uses: seq<ToolUse>): set<string> {
    set u <- uses :: u.id
  }

  function Uses(c: LlmCall): seq<ToolUse> {
    if c.outcome.Replied? then ToolUses(c.outcome.response.content) else []
  }

  /** The ids of all tool calls that the model asked for. */
  function IdsOfCalls(calls: seq<LlmCall>): set<string> {
    if calls == [] then {} else IdsOfCalls(calls[..|calls| - 1]) + IdsIn(Uses(calls[|calls| - 1]))
  }

  predicate Distinct(uses: seq<ToolUse>) {
    forall i, j :: 0 <= i < j < |uses| ==> uses[i].id != uses[j].id
  }

  /** Every reply gives its tool calls ids that are distinct and were not used before. */
  predicate FreshIds(used: set<string>, calls: seq<LlmCall>) {
    calls != [] ==>
      var front, c := calls[..|calls| - 1], calls[|calls| - 1];
      FreshIds(used, front) && Distinct(Uses(c)) && IdsIn(Uses(c)) !! used + IdsOfCalls(front)
  }

  function SessionIds(turns: seq<Turn>): set<string> {
    if turns == [] then {} else SessionIds(turns[..|turns| - 1]) + IdsOfCalls(LastTurn(turns).run.calls)
  }

  predicate SessionFresh(turns: seq<Turn>) {
    turns != [] ==>
      && SessionFresh(turns[..|turns| - 1])
      && FreshIds(SessionIds(turns[..|turns| - 1]), LastTurn(turns).run.calls)
  }

  // ---- Histories with unique ids ----

  /** The ids of the history are unique and among these. */
  ghost predicate Named(h: seq<Message>, ids: set<string>) {
    UniqueIds(h) && forall i, k :: 0 <= i < |h| && 0 <= k < |UsesOf(h[i])| ==> UsesOf(h[i])[k].id in ids
  }

  lemma NamedAppend(h: seq<Message>, m: Message, ids: set<string>)
    requires Named(h, ids) && Distinct(UsesOf(m)) && IdsIn(UsesOf(m)) !! ids
    ensures Named(h + [m], ids + IdsIn(UsesOf(m)))
  {
    hide UsesOf;
    var all := h + [m];
    forall i, j, k, l | 0 <= i < |all| && 0 <= j < |all| && 0 <= k < |UsesOf(all[i])| && 0 <= l < |UsesOf(all[j])|
      && UsesOf(all[i])[k].id == UsesOf(all[j])[l].id
      ensures i == j && k == l
    {
      assert UsesOf(m) != [] ==> IdsIn(UsesOf(m)) !! ids;
      if i == |h| {
        assert UsesOf(m)[k].id in IdsIn(UsesOf(m));
      }
      if j == |h| {
        assert UsesOf(m)[l].id in IdsIn(UsesOf(m));
      }
    }
  }

  lemma NamedMore(h: seq<Message>, ids: set<string>, more: set<string>)
    requires Named(h, ids) && ids <= more
    ensures Named(h, more)
  {
  }

  lemma NamedSpeech(h: seq<Message>, m: Message, ids: set<string>)
    requires Named(h, ids) && UsesOf(m) == []
    ensures Named(h + [m], ids)
  {
    hide UniqueIds, UsesOf;
    NamedAppend(h, m, ids);
    assert ids + IdsIn([]) == ids;
  }

  lemma NamedCut(h: seq<Message>, summary: Message, ids: set<string>)
    requires |h| > 7 && Named(h, ids) && UsesOf(summary) == []
    ensures Named([h[0], summary] + Recent(h), ids)
  {
    UniqueIdsCut(h, summary);
    hide UniqueIds, UsesOf;
    var cut := [h[0], summary] + Recent(h);
    forall i, k | 0 <= i < |cut| && 0 <= k < |UsesOf(cut[i])| ensures UsesOf(cut[i])[k].id in ids {
      assert cut[i] == summary || cut[i] == h[if i == 0 then 0 else |h| - 8 + i];
    }
  }

  lemma GuardKeepsNames(kind: LoopKind, r: Run, n: nat, ids: set<string>)
    requires Named(r.messages, ids)
    ensures Named(Guarded(kind, r, n).messages, ids) && Guarded(kind, r, n).calls == r.calls
  {
    hide Named, Summary;
    var h := r.messages;
    if NeedsCompaction(kind, h) {
      GuardedCompaction(kind.systemPrompt, h, kind.compactLimit);
      if |h| > 7 {
        assert UsesOf(Summary(Middle(h))) == [] by { SummaryIsPlain(Middle(h)); }
        NamedCut(h, Summary(Middle(h)), ids);
      }
    }
  }

  lemma {:induction false} ResultsUseNothing(blocks: seq<ContentBlock>)
    requires forall i :: 0 <= i < |blocks| ==> blocks[i].ToolResultBlock?
    ensures ToolUses(blocks) == []
  {
    if blocks != [] {
      ResultsUseNothing(blocks[..|blocks| - 1]);
    }
  }

  lemma ReplyKeepsNames(w: World, kind: LoopKind, r: Run, n: nat, resp: LLMResponse, ids: set<string>)
    requires Named(r.messages, ids) && Distinct(ToolUses(resp.content)) && IdsIn(ToolUses(resp.content)) !! ids
    ensures var p := AfterReply(w, kind, r, n, resp);
            var next := if p.Running? then p.run else p.outcome.run;
            Named(next.messages, ids + IdsIn(ToolUses(resp.content))) && next.calls == r.calls
  {
    hide Named, Distinct, IdsIn, ToolUses;
    var h, said, uses := r.messages, Message(Assistant, Blocks(resp.content)), ToolUses(resp.content);
    var all := ids + IdsIn(uses);
    NamedAppend(h, said, ids);
    NamedMore(h, ids, all);
    if uses != [] && w.tools(n).Gathered? {
      var results := Message(User, Blocks(RoundResults(uses, w.tools(n).output)));
      ResultsUseNothing(results.content.blocks);
      NamedSpeech(h + [said], results, all);
    }
  }

  predicate Extends(calls: seq<LlmCall>, more: seq<LlmCall>) {
    |calls| <= |more| && more[..|calls|] == calls
  }

  lemma {:induction false} FreshPrefix(used: set<string>, calls: seq<LlmCall>, more: seq<LlmCall>)
    requires Extends(calls, more) && FreshIds(used, more)
    ensures FreshIds(used, calls)
  {
    if |calls| < |more| {
      FreshPrefix(used, calls, more[..|more| - 1]);
    } else {
      assert calls == more;
    }
  }

  ghost predicate AllUnique(calls: seq<LlmCall>) {
    forall i :: 0 <= i < |calls| ==> UniqueIds(calls[i].prompt)
  }

  lemma IdsOfNext(calls: seq<LlmCall>, c: LlmCall)
    ensures IdsOfCalls(calls + [c]) == IdsOfCalls(calls) + IdsIn(Uses(c))
  {
    assert (calls + [c])[..|calls|] == calls;
  }

  lemma FreshNext(used: set<string>, calls: seq<LlmCall>, c: LlmCall)
    requires FreshIds(used, calls + [c])
    ensures Distinct(Uses(c)) && IdsIn(Uses(c)) !! used + IdsOfCalls(calls)
  {
    assert (calls + [c])[..|calls|] == calls;
  }

  /** The history asked with, and the ids after the answer. */
  lemma AskingKeepsNames(kind: LoopKind, r: Run, n: nat, c: LlmCall, used: set<string>)
    requires Named(r.messages, used + IdsOfCalls(r.calls)) && c.prompt == Guarded(kind, r, n).messages
    requires FreshIds(used, r.calls + [c])
    ensures var ids := used + IdsOfCalls(r.calls);
            && UniqueIds(c.prompt) && Named(c.prompt, ids)
            && Distinct(Uses(c)) && IdsIn(Uses(c)) !! ids
            && used + IdsOfCalls(r.calls + [c]) == ids + IdsIn(Uses(c))
            && Named(c.prompt, used + IdsOfCalls(r.calls + [c]))
  {
    var ids := used + IdsOfCalls(r.calls);
    GuardKeepsNames(kind, r, n, ids);
    assert UniqueIds(c.prompt);
    hide Named, UniqueIds, AgentLoop.Guarded, FreshIds, IdsOfCalls, IdsIn, Distinct, Uses;
    IdsOfNext(r.calls, c);
    FreshNext(used, r.calls, c);
    assert ids + IdsIn(Uses(c)) == used + IdsOfCalls(r.calls + [c]);
    NamedMore(c.prompt, ids, used + IdsOfCalls(r.calls + [c]));
  }

  lemma UniqueNext(calls: seq<LlmCall>, c: LlmCall)
    requires AllUnique(calls) && UniqueIds(c.prompt)
    ensures AllUnique(calls + [c])
  {
    hide UniqueIds;
  }

  lemma StepKeepsNames(w: World, cfg: Config, r: Run, n: nat, used: set<string>)
    requires Named(r.messages, used + IdsOfCalls(r.calls)) && AllUnique(r.calls)
    ensures var p := Step(w, cfg, r, n);
            var next := if p.Running? then p.run else p.outcome.run;
            && Extends(r.calls, next.calls)
            && (FreshIds(used, next.calls) ==>
                  Named(next.messages, used + IdsOfCalls(next.calls)) && AllUnique(next.calls))
  {
    hide Named, UniqueIds, AllUnique, AgentLoop.AfterReply, AgentLoop.Guarded, FreshIds, IdsOfCalls, IdsIn, Distinct;
    StepExtends(w, cfg, r, n);
    if SumCost(r.steps) < cfg.maxCost {
      var guarded := Guarded(cfg.kind, r, n);
      var c := LlmCall(guarded.messages, SumCost(r.steps), w.llm(n));
      GuardKeepsAccounts(cfg.kind, r, n);
      var asked := Asked(guarded, n, w.llm(n));
      assert asked.calls == r.calls + [c];
      if w.llm(n).Replied? {
        ReplyKeepsCalls(w, cfg.kind, asked, n, w.llm(n).response);
      }
      if FreshIds(used, r.calls + [c]) {
        AskingKeepsNames(cfg.kind, r, n, c, used);
        UniqueNext(r.calls, c);
        if w.llm(n).Replied? {
          ReplyKeepsNames(w, cfg.kind, asked, n, w.llm(n).response, used + IdsOfCalls(r.calls));
        }
      }
    }
  }

  lemma {:induction false} LoopKeepsNames(w: World, cfg: Config, r: Run, n: nat, used: set<string>)
    requires Named(r.messages, used + IdsOfCalls(r.calls)) && AllUnique(r.calls)
    ensures var run := Loop(w, cfg, r, n).run;
            && Extends(r.calls, run.calls)
            && (FreshIds(used, run.calls) ==>
                  Named(run.messages, used + IdsOfCalls(run.calls)) && AllUnique(run.calls))
    decreases cfg.maxSteps - n
  {
    if n <= cfg.maxSteps {
      StepKeepsNames(w, cfg, r, n, used);
      hide AgentLoop.Step, Named, AllUnique, FreshIds, IdsOfCalls;
      var p := Step(w, cfg, r, n);
      if p.Running? {
        LoopExtends(w, cfg, p.run, n + 1);
        var calls := Loop(w, cfg, p.run, n + 1).run.calls;
        assert calls[..|r.calls|] == calls[..|p.run.calls|][..|r.calls|];
        if FreshIds(used, calls) {
          FreshPrefix(used, p.run.calls, calls);
          LoopKeepsNames(w, cfg, p.run, n + 1, used);
        }
      }
    }
  }

  lemma {:induction false} LoopExtends(w: World, cfg: Config, r: Run, n: nat)
    ensures Extends(r.calls, Loop(w, cfg, r, n).run.calls)
    decreases cfg.maxSteps - n
  {
    if n <= cfg.maxSteps {
      StepExtends(w, cfg, r, n);
      hide AgentLoop.Step;
      var p := Step(w, cfg, r, n);
      if p.Running? {
        LoopExtends(w, cfg, p.run, n + 1);
        var calls := Loop(w, cfg, p.run, n + 1).run.calls;
        assert calls[..|r.calls|] == calls[..|p.run.calls|][..|r.calls|];
      }
    }
  }

  lemma StepExtends(w: World, cfg: Config, r: Run, n: nat)
    ensures var p := Step(w, cfg, r, n); Extends(r.calls, (if p.Running? then p.run else p.outcome.run).calls)
  {
    GuardKeepsAccounts(cfg.kind, r, n);
    hide AgentLoop.AfterReply, AgentLoop.Guarded;
    if w.llm(n).Replied? {
      ReplyKeepsCalls(w, cfg.kind, Asked(Guarded(cfg.kind, r, n), n, w.llm(n)), n, w.llm(n).response);
    }
  }

  lemma TurnKeepsNames(t: Turn, history: seq<Message>, used: set<string>)
    requires Named(history, used)
    ensures var run := RunTurn(t, history).run;
            FreshIds(used, run.calls) ==> Named(run.messages, used + IdsOfCalls(run.calls)) && AllUnique(run.calls)
  {
    hide Named, AgentLoop.Loop, FreshIds;
    NamedSpeech(history, UserText(t.userMessage), used);
    assert used + IdsOfCalls([]) == used;
    LoopKeepsNames(t.world, TurnConfig(t), TurnStart(history, t.userMessage), 1, used);
  }

  /** In every session with fresh ids, however its turns ended, no request and no history
      between two turns has two calls with the same id. */
  lemma {:induction false} SessionKeepsNames(turns: seq<Turn>)
    requires SessionFresh(turns)
    ensures Named(HistoryAfter(turns), SessionIds(turns))
    ensures turns != [] ==> AllUnique(LastTurn(turns).run.calls)
  {
    if turns == [] {
      assert Named([], {});
    } else {
      var front := turns[..|turns| - 1];
      SessionKeepsNames(front);
      hide Named, AllUnique, RunTurn, FreshIds;
      TurnKeepsNames(turns[|turns| - 1], HistoryAfter(front), SessionIds(front));
    }
  }

  /** So in every request of a session with fresh ids whose earlier turns replied, through
      any number of compactions, a result gets the name of the call it answers: the
      placeholder stands only for a call that has no name. */
  lemma SessionResultNames(turns: seq<Turn>, i: nat, j: nat, k: nat)
    requires turns != [] && SessionFresh(turns) && AllReplied(turns[..|turns| - 1])
    requires i < |LastTurn(turns).run.calls|
    requires var h := LastTurn(turns).run.calls[i].prompt;
             j < |h| && BearsResults(h[j]) && k < |h[j].content.blocks|
    ensures var h := LastTurn(turns).run.calls[i].prompt;
            && j > 0 && k < |Calls(h[j - 1])| && h[j].content.blocks[k].ToolResultBlock?
            && var call := Calls(h[j - 1])[k];
               NameFor(h, h[j].content.blocks[k].answer.toolUseId)
               == if call.name != "" then call.name else UNKNOWN_TOOL
  {
    SessionKeepsNames(turns);
    SessionStaysPaired(turns);
    hide LastTurn, WellPaired, UniqueIds, NameFor;
    ResultNames(LastTurn(turns).run.calls[i].prompt, j, k);
  }
}
