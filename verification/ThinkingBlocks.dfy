/** What becomes of a model's thinking (enclave/agent/models.py:27-38). The loop stores the
    whole response, thinking included; every provider client leaves the thinking out of
    what it sends (enclave/agent/llm_client.py:343-391, 518-528, 1216-1247). */
module ThinkingBlocks {
  import opened Models
  import opened Compaction
  import opened AgentLoop
  import opened Pairing
  import opened Providers
  import opened Requests
  import Gemini

  function Spoken(blocks: seq<ContentBlock>): seq<ContentBlock> {
    if blocks == [] then []
    else
      var b := blocks[|blocks| - 1];
      Spoken(blocks[..|blocks| - 1]) + if b.ThinkingBlock? then [] else [b]
  }

  function SpokenMessage(m: Message): Message {
    if m.content.Blocks? then m.(content := Blocks(Spoken(m.content.blocks))) else m
  }

  /** The history as the Anthropic client sends it. */
  function SpokenHistory(h: seq<Message>): seq<Message> {
    seq(|h|, i requires 0 <= i < |h| => SpokenMessage(h[i]))
  }

  // ---- No provider is sent any thinking ----

  lemma {:induction false} SpokenTexts(blocks: seq<ContentBlock>)
    ensures PlainText(Spoken(blocks)) == PlainText(blocks)
    ensures TextParts(Spoken(blocks)) == TextParts(blocks)
  {
    if blocks != [] {
      var front := blocks[..|blocks| - 1];
      SpokenTexts(front);
      var spoken := Spoken(blocks);
      if blocks[|blocks| - 1].ThinkingBlock? {
        assert spoken == Spoken(front);
      } else {
        assert spoken != [] && spoken[..|spoken| - 1] == Spoken(front);
      }
    }
  }

  lemma {:induction false} SpokenTools(blocks: seq<ContentBlock>)
    ensures ToolUses(Spoken(blocks)) == ToolUses(blocks)
    ensures ToolResults(Spoken(blocks)) == ToolResults(blocks)
  {
    if blocks != [] {
      var front := blocks[..|blocks| - 1];
      SpokenTools(front);
      var spoken := Spoken(blocks);
      if blocks[|blocks| - 1].ThinkingBlock? {
        assert spoken == Spoken(front);
      } else {
        assert spoken != [] && spoken[..|spoken| - 1] == Spoken(front);
      }
    }
  }

  lemma {:induction false} SpokenResults(blocks: seq<ContentBlock>)
    ensures ConvertResults(Spoken(blocks)) == ConvertResults(blocks)
    ensures forall b <- Spoken(blocks) :: !b.ThinkingBlock?
  {
    if blocks != [] {
      var front := blocks[..|blocks| - 1];
      SpokenResults(front);
      var spoken := Spoken(blocks);
      if blocks[|blocks| - 1].ThinkingBlock? {
        assert spoken == Spoken(front);
      } else {
        assert spoken != [] && spoken[..|spoken| - 1] == Spoken(front);
      }
    }
  }

  lemma SpokenMessageConverts(m: Message)
    ensures ConvertMessage(SpokenMessage(m)) == ConvertMessage(m)
    ensures Gemini.UsesOf(SpokenMessage(m)) == Gemini.UsesOf(m)
  {
    hide PlainText, TextParts, ToolUses, ToolResults, ConvertResults, Spoken;
    if m.content.Blocks? {
      SpokenTexts(m.content.blocks);
      SpokenTools(m.content.blocks);
      SpokenResults(m.content.blocks);
    }
  }

  /** The OpenAI request of a history is the request of the history without its thinking. */
  lemma {:induction false} ThinkingIsNotSent(h: seq<Message>)
    ensures Convert(SpokenHistory(h)) == Convert(h)
  {
    if h != [] {
      var front := h[..|h| - 1];
      ThinkingIsNotSent(front);
      SpokenMessageConverts(h[|h| - 1]);
      assert SpokenHistory(h)[..|h| - 1] == SpokenHistory(front);
    }
  }

  /** Thinking does not influence the names that the Gemini client looks up either. */
  lemma {:induction false} ThinkingNamesNothing(h: seq<Message>, id: string)
    ensures Gemini.NameFor(SpokenHistory(h), id) == Gemini.NameFor(h, id)
  {
    if h != [] {
      ThinkingNamesNothing(h[1..], id);
      SpokenMessageConverts(h[0]);
      assert SpokenHistory(h)[1..] == SpokenHistory(h[1..]);
    }
  }

  lemma {:induction false} ResultsAreSpoken(blocks: seq<ContentBlock>)
    requires OnlyResults(blocks)
    ensures Spoken(blocks) == blocks
  {
    if blocks != [] {
      ResultsAreSpoken(blocks[..|blocks| - 1]);
    }
  }

  /** Leaving the thinking out never disturbs the pairing: the Anthropic request is well
      paired exactly when the history is. */
  lemma SpokenPairing(h: seq<Message>)
    requires Shaped(h)
    ensures WellPaired(SpokenHistory(h)) <==> WellPaired(h)
  {
    var spoken := SpokenHistory(h);
    forall i: nat | i < |h|
      ensures Calls(spoken[i]) == Calls(h[i])
      ensures h[i].role.User? ==> spoken[i] == h[i]
      ensures spoken[i].role == h[i].role
    {
      if h[i].content.Blocks? {
        SpokenTools(h[i].content.blocks);
        if h[i].role.User? {
          ResultsAreSpoken(h[i].content.blocks);
        }
      }
    }
    hide Calls, ToolResults, Shaped, SpokenMessage, SpokenHistory;
    forall i: nat | i < |h| ensures PairedAt(spoken, i) <==> PairedAt(h, i) {}
    if WellPaired(h) {
      forall i: nat | i < |spoken| ensures PairedAt(spoken, i) {
        assert PairedAt(h, i);
      }
    }
    if WellPaired(spoken) {
      forall i: nat | i < |h| ensures PairedAt(h, i) {
        assert PairedAt(spoken, i);
      }
    }
  }

  // ---- What is stored ----

  predicate Thinks(blocks: seq<ContentBlock>) {
    exists b :: b in blocks && b.ThinkingBlock?
  }

  predicate HoldsThinking(h: seq<Message>) {
    exists i :: 0 <= i < |h| && h[i].content.Blocks? && Thinks(h[i].content.blocks)
  }

  lemma HoldsEither(a: seq<Message>, b: seq<Message>)
    ensures HoldsThinking(a + b) <==> HoldsThinking(a) || HoldsThinking(b)
  {
    hide Thinks;
    var all := a + b;
    if HoldsThinking(b) {
      var i :| 0 <= i < |b| && b[i].content.Blocks? && Thinks(b[i].content.blocks);
      assert all[|a| + i] == b[i];
    }
    if HoldsThinking(a) {
      var i :| 0 <= i < |a| && a[i].content.Blocks? && Thinks(a[i].content.blocks);
      assert all[i] == a[i];
    }
  }

  lemma HoldsOne(m: Message)
    ensures HoldsThinking([m]) <==> m.content.Blocks? && Thinks(m.content.blocks)
  {
    assert [m][0] == m;
  }

  lemma GuardedThinking(kind: LoopKind, r: Run, n: nat)
    requires r.messages != [] && Opening(r.messages[0])
    ensures HoldsThinking(Guarded(kind, r, n).messages) <==>
            HoldsThinking(if NeedsCompaction(kind, r.messages) && |r.messages| > 7 then Recent(r.messages) else r.messages)
  {
    var h := r.messages;
    hide HoldsThinking, Summary;
    if NeedsCompaction(kind, h) {
      GuardedCompaction(kind.systemPrompt, h, kind.compactLimit);
      if |h| > 7 {
        SummaryIsPlain(Middle(h));
        HoldsOne(h[0]);
        HoldsOne(Summary(Middle(h)));
        HoldsEither([h[0]], [Summary(Middle(h))]);
        HoldsEither([h[0]] + [Summary(Middle(h))], Recent(h));
        assert Guarded(kind, r, n).messages == [h[0]] + [Summary(Middle(h))] + Recent(h);
      }
    }
  }

  lemma ResultsDoNotThink(uses: seq<ToolUse>, output: nat -> ToolOutput)
    ensures !HoldsThinking([Message(User, Blocks(RoundResults(uses, output)))])
  {
    HoldsOne(Message(User, Blocks(RoundResults(uses, output))));
  }

  lemma ReplyThinking(w: World, kind: LoopKind, r: Run, n: nat, resp: LLMResponse)
    requires kind.TurnLoop?
    ensures var p := AfterReply(w, kind, r, n, resp);
            var next := if p.Running? then p.run else p.outcome.run;
            HoldsThinking(next.messages) <==> HoldsThinking(r.messages) || Thinks(resp.content)
  {
    hide HoldsThinking;
    var h, said := r.messages, Message(Assistant, Blocks(resp.content));
    HoldsEither(h, [said]);
    HoldsOne(said);
    var uses := ToolUses(resp.content);
    if uses != [] && w.tools(n).Gathered? {
      var results := Message(User, Blocks(RoundResults(uses, w.tools(n).output)));
      ResultsDoNotThink(uses, w.tools(n).output);
      HoldsEither(h + [said], [results]);
    }
  }

  /** Exactly when the stored history of a turn holds thinking after a step: some was there
      and the guard did not summarise it away, or the model's reply brings some. */
  lemma StoredThinkingExactly(w: World, cfg: Config, r: Run, n: nat)
    requires cfg.kind.TurnLoop? && r.messages != [] && Opening(r.messages[0]) && SumCost(r.steps) < cfg.maxCost
    ensures var p := Step(w, cfg, r, n);
            var next := if p.Running? then p.run else p.outcome.run;
            var h := r.messages;
            HoldsThinking(next.messages) <==>
              || HoldsThinking(if NeedsCompaction(cfg.kind, h) && |h| > 7 then Recent(h) else h)
              || (w.llm(n).Replied? && Thinks(w.llm(n).response.content))
  {
    GuardedThinking(cfg.kind, r, n);
    hide HoldsThinking, Thinks, AgentLoop.Guarded, AgentLoop.AfterReply, NeedsCompaction;
    var asked := Asked(Guarded(cfg.kind, r, n), n, w.llm(n));
    if w.llm(n).Replied? {
      ReplyThinking(w, cfg.kind, asked, n, w.llm(n).response);
    }
  }

  /** In every session: the providers see each request as if no thinking were stored. */
  lemma SessionSendsNoThinking(turns: seq<Turn>, i: nat)
    requires turns != [] && i < |LastTurn(turns).run.calls|
    ensures var h := LastTurn(turns).run.calls[i].prompt;
            && !HoldsThinking(SpokenHistory(h))
            && Convert(SpokenHistory(h)) == Convert(h)
            && (WellPaired(SpokenHistory(h)) <==> WellPaired(h))
  {
    SessionKeepsShape(turns);
    hide LastTurn, WellPaired;
    var h := LastTurn(turns).run.calls[i].prompt;
    ThinkingIsNotSent(h);
    SpokenPairing(h);
    forall j | 0 <= j < |h| && h[j].content.Blocks? ensures !Thinks(SpokenHistory(h)[j].content.blocks) {
      SpokenResults(h[j].content.blocks);
    }
  }
}
