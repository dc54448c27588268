/** The histories in the providers' own message formats (enclave/agent/llm_client.py:343-391
    and 1211-1247). */
module Providers {
  import opened Models
  import opened Pairing

  // ---- OpenAI: the conversion ----

  datatype ApiMessage =
    | ApiText(role: Role, text: string)
    | ApiAssistant(content: Option<string>, toolCalls: seq<ToolUse>)
    | ApiTool(toolCallId: string, result: string)
    | ApiParts(texts: seq<string>)

  function PlainText(blocks: seq<ContentBlock>): string {
    if blocks == [] then ""
    else
      var b := blocks[|blocks| - 1];
      PlainText(blocks[..|blocks| - 1]) + if b.TextBlock? then b.text else ""
  }

  function TextParts(blocks: seq<ContentBlock>): seq<string> {
    if blocks == [] then []
    else
      var b := blocks[|blocks| - 1];
      TextParts(blocks[..|blocks| - 1]) + if b.TextBlock? then [b.text] else []
  }

  function ConvertResultBlock(b: ContentBlock): seq<ApiMessage> {
    match b
    case ToolResultBlock(answer) => [ApiTool(answer.toolUseId, answer.content)]
    case TextBlock(text) => [ApiText(User, text)]
    case _ => []
  }

  function ConvertResults(blocks: seq<ContentBlock>): seq<ApiMessage> {
    if blocks == [] then []
    else ConvertResults(blocks[..|blocks| - 1]) + ConvertResultBlock(blocks[|blocks| - 1])
  }

  function AssistantMessage(text: string, calls: seq<ToolUse>): ApiMessage {
    ApiAssistant(if text != "" then Some(text) else if calls == [] then Some("") else None, calls)
  }

  function ConvertMessage(m: Message): seq<ApiMessage> {
    match m.content
    case Text(text) => [ApiText(m.role, text)]
    case Blocks(blocks) =>
      if m.role.Assistant? then [AssistantMessage(PlainText(blocks), ToolUses(blocks))]
      else if ToolResults(blocks) != [] then ConvertResults(blocks)
      else [ApiParts(TextParts(blocks))]
  }

  function Convert(h: seq<Message>): seq<ApiMessage> {
    if h == [] then [] else Convert(h[..|h| - 1]) + ConvertMessage(h[|h| - 1])
  }

  method ConvertAssistant(blocks: seq<ContentBlock>) returns (api: ApiMessage)
    ensures api == AssistantMessage(PlainText(blocks), ToolUses(blocks))
  {
    var text, calls := "", [];
    for j := 0 to |blocks|
      invariant text == PlainText(blocks[..j]) && calls == ToolUses(blocks[..j])
    {
      assert blocks[..j + 1][..j] == blocks[..j];
      match blocks[j] {
        case TextBlock(t) => text := text + t;
        case ToolUseBlock(call) => calls := calls + [call];
        case _ =>
      }
    }
    assert blocks[..|blocks|] == blocks;
    api := AssistantMessage(text, calls);
  }

  method ConvertUser(blocks: seq<ContentBlock>) returns (api: seq<ApiMessage>)
    ensures api == ConvertMessage(Message(User, Blocks(blocks)))
  {
    api := [];
    if ToolResults(blocks) != [] {
      for j := 0 to |blocks|
        invariant api == ConvertResults(blocks[..j])
      {
        assert blocks[..j + 1][..j] == blocks[..j];
        api := api + ConvertResultBlock(blocks[j]);
      }
    } else {
      var parts := [];
      for j := 0 to |blocks|
        invariant parts == TextParts(blocks[..j])
      {
        assert blocks[..j + 1][..j] == blocks[..j];
        if blocks[j].TextBlock? {
          parts := parts + [blocks[j].text];
        }
      }
      assert blocks[..|blocks|] == blocks;
      return [ApiParts(parts)];
    }
    assert blocks[..|blocks|] == blocks;
  }

  method ConvertMessages(h: seq<Message>) returns (api: seq<ApiMessage>)
    ensures api == Convert(h)
  {
    api := [];
    for i := 0 to |h|
      invariant api == Convert(h[..i])
    {
      assert h[..i + 1][..i] == h[..i];
      match h[i].content {
        case Text(text) =>
          api := api + [ApiText(h[i].role, text)];
        case Blocks(blocks) =>
          if h[i].role.Assistant? {
            var said := ConvertAssistant(blocks);
            api := api + [said];
          } else {
            var heard := ConvertUser(blocks);
            api := api + heard;
          }
      }
    }
    assert h[..|h|] == h;
  }

  /** The conversion distributes over concatenation. */
  lemma {:induction false} ConvertConcat(a: seq<Message>, b: seq<Message>)
    ensures Convert(a + b) == Convert(a) + Convert(b)
  {
    hide ConvertMessage;
    if b == [] {
      assert a + b == a;
    } else {
      var front := b[..|b| - 1];
      assert (a + b)[..|a + b| - 1] == a + front;
      ConvertConcat(a, front);
    }
  }

  // ---- OpenAI: what the provider accepts ----

  function Ids(calls: seq<ToolUse>): (ids: seq<string>)
    ensures ids == [] <==> calls == []
  {
    seq(|calls|, i requires 0 <= i < |calls| => calls[i].id)
  }

  /** The tool call ids still to be answered, or None once a message was out of place:
      "tool" messages must answer the calls of the preceding assistant message, all of
      them and in order, before anything else is said. */
  function Next(pending: Option<seq<string>>, m: ApiMessage): Option<seq<string>> {
    match pending
    case None => None
    case Some(ids) =>
      match m
      case ApiTool(id, _) => if ids != [] && ids[0] == id then Some(ids[1..]) else None
      case ApiAssistant(_, calls) => if ids == [] then Some(Ids(calls)) else None
      case _ => if ids == [] then Some([]) else None
  }

  function Feed(pending: Option<seq<string>>, api: seq<ApiMessage>): Option<seq<string>> {
    if api == [] then pending else Next(Feed(pending, api[..|api| - 1]), api[|api| - 1])
  }

  predicate Accepted(api: seq<ApiMessage>) {
    Feed(Some([]), api) == Some([])
  }

  lemma {:induction false} FeedConcat(pending: Option<seq<string>>, a: seq<ApiMessage>, b: seq<ApiMessage>)
    ensures Feed(pending, a + b) == Feed(Feed(pending, a), b)
  {
    if b == [] {
      assert a + b == a;
    } else {
      var front := b[..|b| - 1];
      assert (a + b)[..|a + b| - 1] == a + front;
      FeedConcat(pending, a, front);
    }
  }

  lemma {:induction false} FeedNone(api: seq<ApiMessage>)
    ensures Feed(None, api) == None
  {
    if api != [] {
      FeedNone(api[..|api| - 1]);
    }
  }

  lemma FeedOne(pending: Option<seq<string>>, m: ApiMessage)
    ensures Feed(pending, [m]) == Next(pending, m)
  {
    assert [m][..0] == [];
  }

  predicate OnlyResults(blocks: seq<ContentBlock>) {
    forall i :: 0 <= i < |blocks| ==> blocks[i].ToolResultBlock?
  }

  function ResultIds(blocks: seq<ContentBlock>): seq<string>
    requires OnlyResults(blocks)
  {
    seq(|blocks|, i requires 0 <= i < |blocks| => blocks[i].answer.toolUseId)
  }

  /** What is left of the pending ids when these are answered. */
  function Rest(ids: seq<string>, answered: seq<string>): Option<seq<string>> {
    if answered <= ids then Some(ids[|answered|..]) else None
  }

  lemma RestOfAppend(ids: seq<string>, answered: seq<string>, id: string, result: string)
    ensures Rest(ids, answered + [id]) == Next(Rest(ids, answered), ApiTool(id, result))
  {
    if answered <= ids && |answered| < |ids| {
      assert ids[|answered|] == id <==> answered + [id] <= ids;
    }
  }

  lemma ResultIdsNext(blocks: seq<ContentBlock>)
    requires OnlyResults(blocks) && blocks != []
    ensures OnlyResults(blocks[..|blocks| - 1]) && blocks[|blocks| - 1].ToolResultBlock?
    ensures ResultIds(blocks) == ResultIds(blocks[..|blocks| - 1]) + [blocks[|blocks| - 1].answer.toolUseId]
  {
  }

  /** Results use up the pending ids they are a prefix of, and nothing else. */
  lemma {:induction false} FeedResults(ids: seq<string>, blocks: seq<ContentBlock>)
    requires OnlyResults(blocks)
    ensures Feed(Some(ids), ConvertResults(blocks)) == Rest(ids, ResultIds(blocks))
  {
    if blocks == [] {
      assert ids[0..] == ids;
    } else {
      var front, last := blocks[..|blocks| - 1], blocks[|blocks| - 1];
      assert ConvertResults(blocks) == ConvertResults(front) + ConvertResultBlock(last);
      ResultIdsNext(blocks);
      hide Next, Rest, Feed, ConvertResults, ResultIds;
      FeedResults(ids, front);
      FeedConcat(Some(ids), ConvertResults(front), ConvertResultBlock(last));
      FeedOne(Rest(ids, ResultIds(front)), ApiTool(last.answer.toolUseId, last.answer.content));
      RestOfAppend(ids, ResultIds(front), last.answer.toolUseId, last.answer.content);
    }
  }

  /** The histories of the step loop: block messages of the user hold tool results only,
      and two of them never follow each other. */
  predicate Shaped(h: seq<Message>) {
    && (forall i :: 0 <= i < |h| && h[i].role.User? && h[i].content.Blocks? ==>
          h[i].content.blocks != [] && OnlyResults(h[i].content.blocks))
    && (forall i :: 0 <= i < |h| - 1 && BearsResults(h[i]) ==> !BearsResults(h[i + 1]))
  }

  /** Paired, except that the last message may still wait for its results. */
  predicate PairedSoFar(h: seq<Message>) {
    h != [] ==>
      var front, m := h[..|h| - 1], h[|h| - 1];
      && PairedSoFar(front)
      && (BearsResults(m) ==> LastCalls(front) != [])
      && (LastCalls(front) != [] ==> Answers(m, LastCalls(front)))
  }

  function LastCalls(h: seq<Message>): seq<ToolUse> {
    if h == [] then [] else Calls(h[|h| - 1])
  }

  lemma ResultBlocksBear(m: Message)
    requires m.role.User? && m.content.Blocks? && m.content.blocks != [] && OnlyResults(m.content.blocks)
    ensures BearsResults(m)
  {
  }

  /** A message of a shaped history that does not bear results converts to one message
      that is no "tool" message. */
  lemma FeedSpeech(ids: seq<string>, m: Message)
    requires !BearsResults(m)
    requires m.role.User? && m.content.Blocks? ==> m.content.blocks != [] && OnlyResults(m.content.blocks)
    ensures Feed(Some(ids), ConvertMessage(m)) == if ids == [] then Some(Ids(Calls(m))) else None
  {
    if m.role.User? && m.content.Blocks? {
      ResultBlocksBear(m);
    }
    FeedOne(Some(ids), ConvertMessage(m)[0]);
  }

  lemma FeedAnswer(calls: seq<ToolUse>, m: Message)
    requires BearsResults(m) && OnlyResults(m.content.blocks)
    ensures Answers(m, calls) ==> Feed(Some(Ids(calls)), ConvertMessage(m)) == Some([])
    ensures !Answers(m, calls) ==>
              var fed := Feed(Some(Ids(calls)), ConvertMessage(m)); fed.None? || fed.value != []
  {
    var ids, blocks := Ids(calls), m.content.blocks;
    FeedResults(ids, blocks);
    if ResultIds(blocks) <= ids && |blocks| == |ids| {
      assert ResultIds(blocks) == ids;
      assert forall i :: 0 <= i < |calls| ==> ResultIds(blocks)[i] == calls[i].id;
    }
    if Answers(m, calls) {
      assert ResultIds(blocks) == ids;
    }
  }

  /** Pairing seen from the second of two neighbours. */
  predicate Linked(h: seq<Message>, i: nat)
    requires i < |h|
  {
    && (BearsResults(h[i]) ==> i > 0 && Calls(h[i - 1]) != [])
    && (i > 0 && Calls(h[i - 1]) != [] ==> Answers(h[i], Calls(h[i - 1])))
  }

  lemma {:induction false} SoFarIsLinked(h: seq<Message>)
    ensures PairedSoFar(h) <==> forall i: nat :: i < |h| ==> Linked(h, i)
  {
    if h != [] {
      var front := h[..|h| - 1];
      SoFarIsLinked(front);
      hide BearsResults, Calls, Answers;
      assert forall i: nat :: i < |front| ==> Linked(front, i) == Linked(h, i);
      assert Linked(h, |front|) <==>
        && (BearsResults(h[|front|]) ==> LastCalls(front) != [])
        && (LastCalls(front) != [] ==> Answers(h[|front|], LastCalls(front)));
    }
  }

  lemma PairedIsLinked(h: seq<Message>)
    ensures WellPaired(h) <==> PairedSoFar(h) && LastCalls(h) == []
  {
    SoFarIsLinked(h);
    hide BearsResults, Calls, Answers;
    if WellPaired(h) {
      forall i: nat | i < |h| ensures Linked(h, i) {
        assert PairedAt(h, i);
        if i > 0 { assert PairedAt(h, i - 1); }
      }
      if h != [] { assert PairedAt(h, |h| - 1); }
    }
    if PairedSoFar(h) && LastCalls(h) == [] {
      forall i: nat | i < |h| ensures PairedAt(h, i) {
        assert Linked(h, i);
        if i + 1 < |h| { assert Linked(h, i + 1); }
      }
    }
  }

  lemma ShapedFront(h: seq<Message>)
    requires Shaped(h) && h != []
    ensures Shaped(h[..|h| - 1])
    ensures var m := h[|h| - 1];
            m.role.User? && m.content.Blocks? ==> m.content.blocks != [] && OnlyResults(m.content.blocks)
    ensures |h| > 1 && BearsResults(h[|h| - 2]) ==> !BearsResults(h[|h| - 1])
  {
    var front := h[..|h| - 1];
    assert forall i :: 0 <= i < |front| ==> front[i] == h[i];
  }

  /** What the provider is left with after a shaped history. */
  predicate FedAs(h: seq<Message>, fed: Option<seq<string>>) {
    if PairedSoFar(h) then fed == Some(Ids(LastCalls(h)))
    else fed == None || (fed.value != [] && h != [] && BearsResults(h[|h| - 1]))
  }

  lemma FeedNextMessage(h: seq<Message>, fed: Option<seq<string>>)
    requires h != [] && Shaped(h) && FedAs(h[..|h| - 1], fed)
    ensures FedAs(h, Feed(fed, ConvertMessage(h[|h| - 1])))
  {
    var front, m := h[..|h| - 1], h[|h| - 1];
    ShapedFront(h);
    hide Feed, ConvertMessage, Shaped;
    assert LastCalls(front) == [] ==> Ids(LastCalls(front)) == [];
    if fed == None {
      FeedNone(ConvertMessage(m));
    } else if !BearsResults(m) {
      FeedSpeech(fed.value, m);
    } else {
      assert Calls(m) == [] && Ids(Calls(m)) == [];
      FeedAnswer(LastCalls(front), m);
      FeedOrphan(m);
    }
  }

  lemma {:induction false} FeedShaped(h: seq<Message>)
    requires Shaped(h)
    ensures FedAs(h, Feed(Some([]), Convert(h)))
  {
    if h == [] {
      assert Ids(LastCalls(h)) == [];
    } else {
      var front, m := h[..|h| - 1], h[|h| - 1];
      ShapedFront(h);
      FeedShaped(front);
      FeedNextMessage(h, Feed(Some([]), Convert(front)));
      FeedConcat(Some([]), Convert(front), ConvertMessage(m));
    }
  }

  lemma FeedOrphan(m: Message)
    requires BearsResults(m) && OnlyResults(m.content.blocks) && m.content.blocks != []
    ensures Feed(Some([]), ConvertMessage(m)) == None
  {
    FeedResults([], m.content.blocks);
  }

  /** The provider accepts the translation of a history exactly when its calls and
      results are paired. */
  lemma AcceptedExactly(h: seq<Message>)
    requires Shaped(h)
    ensures Accepted(Convert(h)) <==> WellPaired(h)
  {
    FeedShaped(h);
    PairedIsLinked(h);
    hide PairedSoFar, WellPaired, Feed, Convert;
    if LastCalls(h) == [] {
      assert Ids(LastCalls(h)) == [];
    }
  }
}
