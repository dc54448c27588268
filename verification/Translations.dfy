/** The OpenAI translation loses nothing it should keep: a reader of the request can restore
    the history, up to thinking, the division of a reply into blocks, and error flags
    (enclave/agent/llm_client.py:343-391). */
module Translations {
  import opened Models
  import opened Text
  import opened Pairing
  import opened Providers

  // ---- What is kept of any history ----

  datatype Answered = Answered(id: string, content: string)

  function AnswersIn(results: seq<ToolResult>): seq<Answered> {
    seq(|results|, i requires 0 <= i < |results| => Answered(results[i].toolUseId, results[i].content))
  }

  /** The results in the user's block messages. */
  function HistoryAnswers(h: seq<Message>): seq<Answered> {
    if h == [] then []
    else
      var m := h[0];
      (if m.role.User? && m.content.Blocks? then AnswersIn(ToolResults(m.content.blocks)) else []) + HistoryAnswers(h[1..])
  }

  /** The results that the request holds. */
  function ApiAnswers(api: seq<ApiMessage>): seq<Answered> {
    if api == [] then []
    else (if api[0].ApiTool? then [Answered(api[0].toolCallId, api[0].result)] else []) + ApiAnswers(api[1..])
  }

  lemma FirstApiAnswer(api: seq<ApiMessage>)
    requires api != []
    ensures ApiAnswers(api)
            == (if api[0].ApiTool? then [Answered(api[0].toolCallId, api[0].result)] else []) + ApiAnswers(api[1..])
  {
  }

  lemma {:induction false} ApiAnswersConcat(a: seq<ApiMessage>, b: seq<ApiMessage>)
    ensures ApiAnswers(a + b) == ApiAnswers(a) + ApiAnswers(b)
  {
    if a == [] {
      assert a + b == b;
    } else {
      FirstApiAnswer(a);
      FirstApiAnswer(a + b);
      hide ApiAnswers;
      assert (a + b)[1..] == a[1..] + b && (a + b)[0] == a[0];
      ApiAnswersConcat(a[1..], b);
      Associates(if a[0].ApiTool? then [Answered(a[0].toolCallId, a[0].result)] else [], ApiAnswers(a[1..]), ApiAnswers(b));
    }
  }

  lemma {:induction false} HistoryAnswersConcat(a: seq<Message>, b: seq<Message>)
    ensures HistoryAnswers(a + b) == HistoryAnswers(a) + HistoryAnswers(b)
  {
    hide ToolResults;
    if a == [] {
      assert a + b == b;
    } else {
      assert (a + b)[1..] == a[1..] + b;
      HistoryAnswersConcat(a[1..], b);
    }
  }

  lemma OneApiAnswer(m: ApiMessage)
    ensures ApiAnswers([m]) == if m.ApiTool? then [Answered(m.toolCallId, m.result)] else []
  {
    assert [m][1..] == [];
  }

  lemma {:induction false} BlockAnswers(blocks: seq<ContentBlock>)
    ensures ApiAnswers(ConvertResults(blocks)) == AnswersIn(ToolResults(blocks))
  {
    if blocks != [] {
      var front, b := blocks[..|blocks| - 1], blocks[|blocks| - 1];
      BlockAnswers(front);
      assert ConvertResults(blocks) == ConvertResults(front) + ConvertResultBlock(b);
      assert ToolResults(blocks) == ToolResults(front) + if b.ToolResultBlock? then [b.answer] else [];
      hide ApiAnswers, ConvertResults, ToolResults;
      ApiAnswersConcat(ConvertResults(front), ConvertResultBlock(b));
      OneBlockAnswers(b);
    }
  }

  lemma OneBlockAnswers(b: ContentBlock)
    ensures ApiAnswers(ConvertResultBlock(b))
            == if b.ToolResultBlock? then [Answered(b.answer.toolUseId, b.answer.content)] else []
  {
    if ConvertResultBlock(b) != [] {
      OneApiAnswer(ConvertResultBlock(b)[0]);
    }
  }

  lemma MessageAnswers(m: Message)
    ensures ApiAnswers(ConvertMessage(m)) == HistoryAnswers([m])
  {
    assert [m][1..] == [];
    if m.role.User? && m.content.Blocks? && ToolResults(m.content.blocks) != [] {
      BlockAnswers(m.content.blocks);
      hide ToolResults, ConvertResults;
    } else {
      hide ToolResults, PlainText, ToolUses, TextParts;
      OneApiAnswer(ConvertMessage(m)[0]);
    }
  }

  lemma ConvertLast(h: seq<Message>)
    requires h != []
    ensures Convert(h) == Convert(h[..|h| - 1]) + ConvertMessage(h[|h| - 1])
  {
    hide ConvertMessage;
  }

  /** Every history: the request holds the results of the history, each with its id and its
      content, in order. */
  lemma {:induction false} AnswersAreKept(h: seq<Message>)
    ensures ApiAnswers(Convert(h)) == HistoryAnswers(h)
  {
    if h != [] {
      var front, m := h[..|h| - 1], h[|h| - 1];
      hide ApiAnswers, HistoryAnswers, Convert, ConvertMessage;
      AnswersAreKept(front);
      FrontAndLast(h);
      ConvertLast(h);
      ApiAnswersConcat(Convert(front), ConvertMessage(m));
      MessageAnswers(m);
      HistoryAnswersConcat(front, [m]);
    }
  }

  /** The texts of a reply, one behind the other. */
  function AllText(blocks: seq<ContentBlock>): string {
    if blocks == [] then ""
    else (if blocks[0].TextBlock? then blocks[0].text else "") + AllText(blocks[1..])
  }

  lemma {:induction false} AllTextConcat(a: seq<ContentBlock>, b: seq<ContentBlock>)
    ensures AllText(a + b) == AllText(a) + AllText(b)
  {
    if a == [] {
      assert a + b == b;
    } else {
      assert (a + b)[1..] == a[1..] + b;
      AllTextConcat(a[1..], b);
    }
  }

  lemma {:induction false} PlainIsAllText(blocks: seq<ContentBlock>)
    ensures PlainText(blocks) == AllText(blocks)
  {
    if blocks != [] {
      var front, b := blocks[..|blocks| - 1], blocks[|blocks| - 1];
      PlainIsAllText(front);
      AllTextConcat(front, [b]);
      assert blocks == front + [b] && [b][1..] == [];
    }
  }

  /** A reply becomes one message with its text and with its calls, by id, name and
      arguments; content is left out exactly if there are calls and no text. */
  lemma ReplyIsKept(blocks: seq<ContentBlock>)
    ensures var api := ConvertMessage(Message(Assistant, Blocks(blocks)));
            && |api| == 1 && api[0].ApiAssistant?
            && api[0].toolCalls == ToolUses(blocks)
            && (api[0].content == None <==> AllText(blocks) == "" && ToolUses(blocks) != [])
            && (api[0].content.Some? ==> api[0].content.value == AllText(blocks))
  {
    PlainIsAllText(blocks);
    hide PlainText, AllText, ToolUses;
  }

  /** Plain messages keep their role and text. */
  lemma PlainMessageIsKept(role: Role, text: string)
    ensures ConvertMessage(Message(role, Text(text))) == [ApiText(role, text)]
  {
  }

  /** A user message of texts and no results becomes one message with these texts. */
  lemma TextsAreKept(blocks: seq<ContentBlock>)
    requires forall i :: 0 <= i < |blocks| ==> blocks[i].TextBlock?
    ensures var api := ConvertMessage(Message(User, Blocks(blocks)));
            && |api| == 1 && api[0].ApiParts? && |api[0].texts| == |blocks|
            && forall i :: 0 <= i < |blocks| ==> api[0].texts[i] == blocks[i].text
  {
    TextBlocksOnly(blocks);
  }

  /** In a user message with results, each text and each result becomes one message, in the
      order of the blocks. */
  lemma {:induction false} MixedMessageIsKept(blocks: seq<ContentBlock>, i: nat)
    requires ToolResults(blocks) != [] && i < |blocks| && (blocks[i].TextBlock? || blocks[i].ToolResultBlock?)
    ensures var api, place := ConvertMessage(Message(User, Blocks(blocks))), |ConvertResults(blocks[..i])|;
            && place < |api|
            && api[place] == (match blocks[i]
                              case TextBlock(text) => ApiText(User, text)
                              case ToolResultBlock(answer) => ApiTool(answer.toolUseId, answer.content))
  {
    BlockIsConverted(blocks, i);
  }

  lemma {:induction false} BlockIsConverted(blocks: seq<ContentBlock>, i: nat)
    requires i < |blocks| && (blocks[i].TextBlock? || blocks[i].ToolResultBlock?)
    ensures var api, place := ConvertResults(blocks), |ConvertResults(blocks[..i])|;
            place < |api| && [api[place]] == ConvertResultBlock(blocks[i])
  {
    if i < |blocks| - 1 {
      var front := blocks[..|blocks| - 1];
      BlockIsConverted(front, i);
      assert front[..i] == blocks[..i];
    }
  }

  /** Nothing else is in it. */
  lemma {:induction false} ConvertedIsBlock(blocks: seq<ContentBlock>, place: nat) returns (i: nat)
    requires place < |ConvertResults(blocks)|
    ensures i < |blocks| && |ConvertResults(blocks[..i])| == place
    ensures blocks[i].TextBlock? || blocks[i].ToolResultBlock?
  {
    var front := blocks[..|blocks| - 1];
    if place < |ConvertResults(front)| {
      i := ConvertedIsBlock(front, place);
      assert front[..i] == blocks[..i];
    } else {
      i := |blocks| - 1;
    }
  }

  lemma {:induction false} TextBlocksOnly(blocks: seq<ContentBlock>)
    requires forall i :: 0 <= i < |blocks| ==> blocks[i].TextBlock?
    ensures ToolResults(blocks) == [] && |TextParts(blocks)| == |blocks|
    ensures forall i :: 0 <= i < |blocks| ==> TextParts(blocks)[i] == blocks[i].text
  {
    if blocks != [] {
      TextBlocksOnly(blocks[..|blocks| - 1]);
    }
  }

  // ---- Restoring a history ----

  /** A reply as one text, if any, and its calls. */
  function Speech(text: string, calls: seq<ToolUse>): Message {
    Message(Assistant, Blocks((if text != "" then [TextBlock(text)] else [])
                              + seq(|calls|, i requires 0 <= i < |calls| => ToolUseBlock(calls[i]))))
  }

  function ResultBlock(id: string, content: string): ContentBlock {
    ToolResultBlock(ToolResult(id, content, false))
  }

  /** What a reader makes of the next message of a request: a result belongs to the message
      with the results right before it. */
  function Attach(h: seq<Message>, m: ApiMessage): seq<Message> {
    match m
    case ApiText(User, text) => h + [Message(User, Text(text))]
    case ApiText(Assistant, text) => h + [Speech(text, [])]
    case ApiAssistant(content, calls) => h + [Speech(if content.Some? then content.value else "", calls)]
    case ApiParts(texts) =>
      h + [Message(User, Blocks(seq(|texts|, i requires 0 <= i < |texts| => TextBlock(texts[i]))))]
    case ApiTool(id, result) =>
      if h != [] && HoldsResults(h[|h| - 1]) then
        h[..|h| - 1] + [Message(User, Blocks(h[|h| - 1].content.blocks + [ResultBlock(id, result)]))]
      else h + [Message(User, Blocks([ResultBlock(id, result)]))]
  }

  predicate HoldsResults(m: Message) {
    m.role.User? && m.content.Blocks? && m.content.blocks != [] && m.content.blocks[|m.content.blocks| - 1].ToolResultBlock?
  }

  function Restored(api: seq<ApiMessage>): seq<Message> {
    if api == [] then [] else Attach(Restored(api[..|api| - 1]), api[|api| - 1])
  }

  /** What can be restored of a message: the text of a reply undivided and without thinking,
      results without their error flags. */
  function Kept(m: Message): Message {
    if m.content.Text? then
      if m.role.User? then m else Speech(m.content.text, [])
    else if m.role.Assistant? then Speech(AllText(m.content.blocks), ToolUses(m.content.blocks))
    else Message(User, Blocks(Unflagged(m.content.blocks)))
  }

  function Unflagged(blocks: seq<ContentBlock>): seq<ContentBlock> {
    seq(|blocks|, i requires 0 <= i < |blocks| =>
      if blocks[i].ToolResultBlock? then ResultBlock(blocks[i].answer.toolUseId, blocks[i].answer.content) else blocks[i])
  }

  function KeptHistory(h: seq<Message>): seq<Message> {
    seq(|h|, i requires 0 <= i < |h| => Kept(h[i]))
  }

  lemma RestoredNext(api: seq<ApiMessage>, m: ApiMessage)
    ensures Restored(api + [m]) == Attach(Restored(api), m)
  {
    assert (api + [m])[..|api|] == api;
  }

  lemma AttachFirst(h: seq<Message>, id: string, content: string)
    requires h != [] ==> !HoldsResults(h[|h| - 1])
    ensures Attach(h, ApiTool(id, content)) == h + [Message(User, Blocks([ResultBlock(id, content)]))]
  {
  }

  lemma AttachNext(h: seq<Message>, blocks: seq<ContentBlock>, id: string, content: string)
    requires HoldsResults(Message(User, Blocks(blocks)))
    ensures Attach(h + [Message(User, Blocks(blocks))], ApiTool(id, content))
            == h + [Message(User, Blocks(blocks + [ResultBlock(id, content)]))]
  {
    var all := h + [Message(User, Blocks(blocks))];
    assert all[..|all| - 1] == h;
  }

  lemma UnflaggedNext(blocks: seq<ContentBlock>)
    requires blocks != [] && blocks[|blocks| - 1].ToolResultBlock?
    ensures var answer := blocks[|blocks| - 1].answer;
            Unflagged(blocks) == Unflagged(blocks[..|blocks| - 1]) + [ResultBlock(answer.toolUseId, answer.content)]
  {
  }

  lemma {:induction false} RestoredResults(api: seq<ApiMessage>, h: seq<Message>, blocks: seq<ContentBlock>)
    requires Restored(api) == h && (h != [] ==> !HoldsResults(h[|h| - 1]))
    requires OnlyResults(blocks) && blocks != []
    ensures Restored(api + ConvertResults(blocks)) == h + [Message(User, Blocks(Unflagged(blocks)))]
  {
    var front, b := blocks[..|blocks| - 1], blocks[|blocks| - 1];
    var m := ApiTool(b.answer.toolUseId, b.answer.content);
    assert ConvertResults(blocks) == ConvertResults(front) + [m];
    UnflaggedNext(blocks);
    assert front == [] ==> ConvertResults(front) == [] && Unflagged(front) == [];
    hide ConvertResults, Restored, Unflagged, Attach, HoldsResults, ResultBlock;
    if front == [] {
      assert api + ConvertResults(blocks) == api + [m];
      RestoredNext(api, m);
      AttachFirst(h, m.toolCallId, m.result);
      assert Unflagged(blocks) == [ResultBlock(m.toolCallId, m.result)];
    } else {
      RestoredResults(api, h, front);
      LastIsResult(front);
      Associates(api, ConvertResults(front), [m]);
      RestoredNext(api + ConvertResults(front), m);
      AttachNext(h, Unflagged(front), m.toolCallId, m.result);
    }
  }

  lemma LastIsResult(blocks: seq<ContentBlock>)
    requires OnlyResults(blocks) && blocks != []
    ensures HoldsResults(Message(User, Blocks(Unflagged(blocks))))
  {
  }

  lemma RestoredSpeech(api: seq<ApiMessage>, m: Message)
    requires !(m.role.User? && m.content.Blocks?)
    ensures Restored(api + ConvertMessage(m)) == Restored(api) + [Kept(m)]
  {
    if m.content.Blocks? {
      PlainIsAllText(m.content.blocks);
    }
    hide PlainText, AllText, ToolUses, Restored;
    assert ConvertMessage(m) == [ConvertMessage(m)[0]];
    RestoredNext(api, ConvertMessage(m)[0]);
  }

  lemma KeptHoldsResults(m: Message)
    requires m.role.User? && m.content.Blocks? ==> m.content.blocks != [] && OnlyResults(m.content.blocks)
    ensures HoldsResults(Kept(m)) ==> BearsResults(m)
  {
  }

  lemma NoResultsBefore(h: seq<Message>)
    requires Shaped(h) && h != [] && BearsResults(h[|h| - 1])
    ensures var kept := KeptHistory(h[..|h| - 1]); kept != [] ==> !HoldsResults(kept[|kept| - 1])
  {
    var front := h[..|h| - 1];
    if front != [] {
      var before := front[|front| - 1];
      ShapedFront(h);
      ShapedFront(front);
      assert h[|h| - 2] == before;
      hide BearsResults, HoldsResults, Kept, Shaped;
      KeptHoldsResults(before);
    }
  }

  /** From the request of a shaped history, that is, of every request of a session, the
      history can be restored, up to thinking, the division of replies and error flags. */
  lemma {:induction false} TranslationRestores(h: seq<Message>)
    requires Shaped(h)
    ensures Restored(Convert(h)) == KeptHistory(h)
  {
    if h != [] {
      var front, m := h[..|h| - 1], h[|h| - 1];
      ShapedFront(h);
      TranslationRestores(front);
      ConvertLast(h);
      assert KeptHistory(h) == KeptHistory(front) + [Kept(m)];
      hide Convert, Restored, Kept, ConvertMessage, Shaped, KeptHistory;
      if m.role.User? && m.content.Blocks? {
        ResultBlocksBear(m);
        NoResultsBefore(h);
        RestoredResults(Convert(front), KeptHistory(front), m.content.blocks);
        ResultsConvert(m);
      } else {
        RestoredSpeech(Convert(front), m);
      }
    }
  }

  lemma ResultsConvert(m: Message)
    requires m.role.User? && m.content.Blocks? && BearsResults(m)
    ensures ConvertMessage(m) == ConvertResults(m.content.blocks)
    ensures Kept(m) == Message(User, Blocks(Unflagged(m.content.blocks)))
  {
  }

  /** So equal requests come from histories that tell the same. */
  lemma TranslationIsInjective(g: seq<Message>, h: seq<Message>)
    requires Shaped(g) && Shaped(h) && Convert(g) == Convert(h)
    ensures KeptHistory(g) == KeptHistory(h)
  {
    TranslationRestores(g);
    TranslationRestores(h);
  }
}
