/** Token estimates and history compaction (enclave/agent/controller.py:75-186). */
module Compaction {
  import opened Models
  import opened Text

  const CHARS_PER_TOKEN := 4
  const MIN_RECENT_MESSAGES := 6
  const ROLE_OVERHEAD := 4
  const MAX_SUMMARY_LINES := 30
  const SUMMARY_HEADER: string :=
    "[CONTEXT COMPACTED \U{2014} Earlier conversation summarized to save context window space]\n\n"

  // ---- Estimates ----

  function EstimateTokens(text: string): nat {
    if |text| / CHARS_PER_TOKEN < 1 then 1 else |text| / CHARS_PER_TOKEN
  }

  function BlockTokens(b: ContentBlock): nat {
    match b
    case TextBlock(text) => EstimateTokens(text)
    case ThinkingBlock(thinking, _) => EstimateTokens(thinking)
    case ToolUseBlock(call) => EstimateTokens(call.input) + EstimateTokens(call.name)
    case ToolResultBlock(answer) => EstimateTokens(answer.content)
  }

  function BlocksTokens(blocks: seq<ContentBlock>): nat {
    if blocks == [] then 0
    else BlocksTokens(blocks[..|blocks| - 1]) + BlockTokens(blocks[|blocks| - 1])
  }

  function MessageTokens(m: Message): nat {
    match m.content
    case Text(text) => EstimateTokens(text) + ROLE_OVERHEAD
    case Blocks(blocks) => ROLE_OVERHEAD + BlocksTokens(blocks)
  }

  function MessagesTokens(ms: seq<Message>): nat {
    if ms == [] then 0
    else MessagesTokens(ms[..|ms| - 1]) + MessageTokens(ms[|ms| - 1])
  }

  function HistoryTokens(systemPrompt: string, ms: seq<Message>): nat {
    EstimateTokens(systemPrompt) + MessagesTokens(ms)
  }

  /** A text of four characters or more counts a token for every four of them, the rest not
      counted; a shorter one counts as one token. */
  lemma TextEstimate(text: string)
    ensures if |text| < 4 then EstimateTokens(text) == 1
            else 4 * EstimateTokens(text) <= |text| < 4 * (EstimateTokens(text) + 1)
  {
  }

  /** The texts that the estimate of a block reads: not the signature of a thought, and not the
      ids of calls and results. */
  function TextsRead(b: ContentBlock): seq<string> {
    match b
    case TextBlock(text) => [text]
    case ThinkingBlock(thinking, _) => [thinking]
    case ToolUseBlock(call) => [call.name, call.input]
    case ToolResultBlock(answer) => [answer.content]
  }

  function AllRead(blocks: seq<ContentBlock>): seq<string> {
    if blocks == [] then [] else TextsRead(blocks[0]) + AllRead(blocks[1..])
  }

  function Estimates(texts: seq<string>): nat {
    if texts == [] then 0 else EstimateTokens(texts[0]) + Estimates(texts[1..])
  }

  lemma {:induction false} EstimatesConcat(a: seq<string>, b: seq<string>)
    ensures Estimates(a + b) == Estimates(a) + Estimates(b)
  {
    hide EstimateTokens;
    if a == [] {
      assert a + b == b;
    } else {
      FirstOfConcat(a, b);
      EstimatesConcat(a[1..], b);
    }
  }

  lemma {:induction false} BlocksTokensConcat(a: seq<ContentBlock>, b: seq<ContentBlock>)
    ensures BlocksTokens(a + b) == BlocksTokens(a) + BlocksTokens(b)
  {
    if b == [] {
      assert a + b == a;
    } else {
      assert (a + b)[..|a + b| - 1] == a + b[..|b| - 1];
      BlocksTokensConcat(a, b[..|b| - 1]);
    }
  }

  lemma BlockEstimate(b: ContentBlock)
    ensures BlocksTokens([b]) == Estimates(TextsRead(b))
  {
    hide EstimateTokens;
    assert [b][..0] == [];
    var texts := TextsRead(b);
    OneEstimate(texts[0]);
    if b.ToolUseBlock? {
      assert texts[1..] == [b.call.input];
      OneEstimate(b.call.input);
    }
  }

  lemma OneEstimate(text: string)
    ensures Estimates([text]) == EstimateTokens(text)
  {
    hide EstimateTokens;
    assert [text][1..] == [];
  }

  function MessageTexts(m: Message): seq<string> {
    match m.content
    case Text(text) => [text]
    case Blocks(blocks) => AllRead(blocks)
  }

  /** The estimate of a message adds up the texts that it consists of, and four tokens for its
      role. */
  lemma MessageEstimate(m: Message)
    ensures MessageTokens(m) == Estimates(MessageTexts(m)) + 4
  {
    match m.content
    case Text(text) => OneEstimate(text);
    case Blocks(blocks) => BlocksEstimate(blocks);
  }

  lemma {:induction false} BlocksEstimate(blocks: seq<ContentBlock>)
    ensures BlocksTokens(blocks) == Estimates(AllRead(blocks))
  {
    if blocks != [] {
      var b, rest := blocks[0], blocks[1..];
      assert blocks == [b] + rest;
      BlocksEstimate(rest);
      BlockEstimate(b);
      BlocksTokensConcat([b], rest);
      EstimatesConcat(TextsRead(b), AllRead(rest));
    }
  }

  method EstimateMessagesTokens(ms: seq<Message>) returns (total: nat)
    ensures total == MessagesTokens(ms)
  {
    total := 0;
    for i := 0 to |ms|
      invariant total == MessagesTokens(ms[..i])
    {
      assert ms[..i + 1][..i] == ms[..i];
      total := total + MessageTokens(ms[i]);
    }
    assert ms[..|ms|] == ms;
  }

  // ---- The summary ----

  function RoleName(r: Role): string {
    if r == User then "user" else "assistant"
  }

  /** What one block adds to the summary of its message; nothing for thinking
      and for empty texts. */
  function BlockPreview(b: ContentBlock): seq<string> {
    match b
    case TextBlock(text) => if text != "" then [Take(text, 100)] else []
    case ThinkingBlock(_, _) => []
    case ToolUseBlock(call) => ["[tool:" + call.name + "(" + Take(call.input, 80) + ")]"]
    case ToolResultBlock(answer) =>
      ["[result:" + (if answer.isError then "error" else "ok") + ":" + Take(answer.content, 80) + "]"]
  }

  function BlockPreviews(blocks: seq<ContentBlock>): seq<string> {
    if blocks == [] then []
    else BlockPreviews(blocks[..|blocks| - 1]) + BlockPreview(blocks[|blocks| - 1])
  }

  function Preview(m: Message): string {
    match m.content
    case Text(text) => Take(text, 200)
    case Blocks(blocks) => Take(Join(" | ", BlockPreviews(blocks)), 200)
  }

  function SummaryLine(m: Message): seq<string> {
    if HasInk(Preview(m)) then ["[" + RoleName(m.role) + "]: " + Preview(m)] else []
  }

  function SummaryLines(ms: seq<Message>): seq<string> {
    if ms == [] then []
    else SummaryLines(ms[..|ms| - 1]) + SummaryLine(ms[|ms| - 1])
  }

  function SummaryText(lines: seq<string>): string {
    SUMMARY_HEADER + Join("\n", Take(lines, MAX_SUMMARY_LINES)) + Overflow(|lines|)
  }

  function Overflow(lineCount: nat): string {
    if lineCount > MAX_SUMMARY_LINES
    then "\n... and " + Decimal(lineCount - MAX_SUMMARY_LINES) + " more exchanges"
    else ""
  }

  function Summary(middle: seq<Message>): Message {
    Message(User, Text(SummaryText(SummaryLines(middle))))
  }

  // ---- Compaction ----

  /** The messages between the first one and the recent ones. */
  function Middle(ms: seq<Message>): seq<Message>
    requires |ms| > MIN_RECENT_MESSAGES
  {
    ms[1..|ms| - MIN_RECENT_MESSAGES]
  }

  function Recent(ms: seq<Message>): seq<Message>
    requires |ms| >= MIN_RECENT_MESSAGES
  {
    ms[|ms| - MIN_RECENT_MESSAGES..]
  }

  /** The history that `CompactHistory` returns. */
  function Compacted(ms: seq<Message>, targetTokens: int, systemTokens: int): seq<Message> {
    if |ms| <= MIN_RECENT_MESSAGES || MessagesTokens(ms) <= targetTokens - systemTokens || Middle(ms) == []
    then ms
    else [ms[0], Summary(Middle(ms))] + Recent(ms)
  }

  method PreviewMessage(m: Message) returns (text: string)
    ensures text == Preview(m)
  {
    match m.content {
      case Text(t) =>
        text := Take(t, 200);
      case Blocks(blocks) =>
        var previews := [];
        for j := 0 to |blocks|
          invariant previews == BlockPreviews(blocks[..j])
        {
          assert blocks[..j + 1][..j] == blocks[..j];
          previews := previews + BlockPreview(blocks[j]);
        }
        assert blocks[..|blocks|] == blocks;
        text := Take(Join(" | ", previews), 200);
    }
  }

  method CompactHistory(ms: seq<Message>, targetTokens: int, systemTokens: int) returns (compacted: seq<Message>)
    ensures compacted == Compacted(ms, targetTokens, systemTokens)
  {
    if |ms| <= MIN_RECENT_MESSAGES {
      return ms;
    }
    var available := targetTokens - systemTokens;
    var current := EstimateMessagesTokens(ms);
    if current <= available {
      return ms;
    }
    var first, recent, middle := ms[0], Recent(ms), Middle(ms);
    if middle == [] {
      return ms;
    }
    var lines := [];
    for i := 0 to |middle|
      invariant lines == SummaryLines(middle[..i])
    {
      assert middle[..i + 1][..i] == middle[..i];
      var text := PreviewMessage(middle[i]);
      if HasInk(text) {
        lines := lines + ["[" + RoleName(middle[i].role) + "]: " + text];
      }
    }
    assert middle[..|middle|] == middle;
    var summary := Message(User, Text(SummaryText(lines)));
    compacted := [first, summary] + recent;
  }

  // ---- What a compaction keeps and saves ----

  lemma {:induction false} MessagesTokensConcat(a: seq<Message>, b: seq<Message>)
    ensures MessagesTokens(a + b) == MessagesTokens(a) + MessagesTokens(b)
  {
    if b == [] {
      assert a + b == a;
    } else {
      var front := b[..|b| - 1];
      assert (a + b)[..|a + b| - 1] == a + front;
      MessagesTokensConcat(a, front);
    }
  }

  function HistoryTexts(ms: seq<Message>): seq<string> {
    if ms == [] then [] else MessageTexts(ms[0]) + HistoryTexts(ms[1..])
  }

  lemma {:induction false} MessagesEstimate(ms: seq<Message>)
    ensures MessagesTokens(ms) == Estimates(HistoryTexts(ms)) + 4 * |ms|
  {
    if ms != [] {
      var m, rest := ms[0], ms[1..];
      assert ms == [m] + rest && [m][..0] == [];
      MessagesTokensConcat([m], rest);
      MessagesEstimate(rest);
      MessageEstimate(m);
      hide MessageTokens, MessageTexts;
      EstimatesConcat(MessageTexts(m), HistoryTexts(rest));
    }
  }

  /** What is compared with the context window: the estimates of the system prompt and of all
      texts of the history, and four tokens for each message. */
  lemma HistoryEstimate(systemPrompt: string, ms: seq<Message>)
    ensures HistoryTokens(systemPrompt, ms) == Estimates([systemPrompt] + HistoryTexts(ms)) + 4 * |ms|
  {
    MessagesEstimate(ms);
    OneEstimate(systemPrompt);
    EstimatesConcat([systemPrompt], HistoryTexts(ms));
  }

  /** At the loop's guard the estimate exceeds the limit, so the early returns of
      `CompactHistory` never fire there, except for a history of exactly seven
      messages, which has no middle. From eight messages on the result has eight. */
  lemma GuardedCompaction(systemPrompt: string, ms: seq<Message>, limit: int)
    requires HistoryTokens(systemPrompt, ms) > limit && |ms| > MIN_RECENT_MESSAGES
    ensures var r := Compacted(ms, limit, EstimateTokens(systemPrompt));
            && MessagesTokens(ms) > limit - EstimateTokens(systemPrompt)
            && (|ms| == 7 <==> Middle(ms) == [])
            && (|ms| == 7 ==> r == ms)
            && (|ms| > 7 ==>
                  && |r| == 2 + MIN_RECENT_MESSAGES
                  && r[0] == ms[0]
                  && r[1] == Summary(Middle(ms))
                  && r[2..] == ms[|ms| - MIN_RECENT_MESSAGES..])
  {
  }

  /** An upper bound of the summary's estimate that depends on the number of
      summarised lines only through the digits of the overflow count. */
  function SummaryBound(lineCount: nat): nat {
    (|SUMMARY_HEADER| + MAX_SUMMARY_LINES * 214 + |Overflow(lineCount)|) / CHARS_PER_TOKEN + ROLE_OVERHEAD
  }

  lemma {:induction false} SummaryLinesAreShort(ms: seq<Message>)
    ensures |SummaryLines(ms)| <= |ms|
    ensures forall i :: 0 <= i < |SummaryLines(ms)| ==> |SummaryLines(ms)[i]| <= 213
  {
    if ms != [] {
      SummaryLinesAreShort(ms[..|ms| - 1]);
    }
  }

  lemma SummaryTextIsShort(lines: seq<string>)
    requires forall i :: 0 <= i < |lines| ==> |lines[i]| <= 213
    ensures |SummaryText(lines)| <= |SUMMARY_HEADER| + MAX_SUMMARY_LINES * 214 + |Overflow(|lines|)|
  {
    JoinLength("\n", Take(lines, MAX_SUMMARY_LINES), 213);
  }

  lemma SummaryIsShort(middle: seq<Message>)
    ensures MessageTokens(Summary(middle)) <= SummaryBound(|SummaryLines(middle)|)
    ensures |SummaryLines(middle)| <= |middle|
  {
    SummaryLinesAreShort(middle);
    SummaryTextIsShort(SummaryLines(middle));
  }

  lemma OneMessageTokens(m: Message)
    ensures MessagesTokens([m]) == MessageTokens(m)
  {
    assert [m][..0] == [];
  }

  lemma ThreePartTokens(first: Message, middle: seq<Message>, recent: seq<Message>)
    ensures MessagesTokens([first] + middle + recent)
            == MessageTokens(first) + MessagesTokens(middle) + MessagesTokens(recent)
  {
    MessagesTokensConcat([first] + middle, recent);
    MessagesTokensConcat([first], middle);
    OneMessageTokens(first);
  }

  lemma ReplacingMiddleTokens(ms: seq<Message>, summary: Message)
    requires |ms| > MIN_RECENT_MESSAGES
    ensures MessagesTokens([ms[0], summary] + Recent(ms)) + MessagesTokens(Middle(ms))
            == MessagesTokens(ms) + MessageTokens(summary)
  {
    hide MessagesTokens, MessageTokens;
    ThreePartTokens(ms[0], Middle(ms), Recent(ms));
    assert [ms[0]] + Middle(ms) + Recent(ms) == ms;
    ThreePartTokens(ms[0], [summary], Recent(ms));
    assert [ms[0]] + [summary] == [ms[0], summary];
    OneMessageTokens(summary);
  }

  /** Compaction strictly lowers the estimate of the whole history exactly when the
      middle costs more than its summary, and so whenever it exceeds the bound. */
  lemma CompactionSavesTokens(ms: seq<Message>, targetTokens: int, systemTokens: int)
    requires |ms| > 7 && MessagesTokens(ms) > targetTokens - systemTokens
    ensures var r := Compacted(ms, targetTokens, systemTokens);
            var middle := Middle(ms);
            && (MessagesTokens(r) < MessagesTokens(ms) <==> MessageTokens(Summary(middle)) < MessagesTokens(middle))
            && (MessagesTokens(middle) > SummaryBound(|SummaryLines(middle)|) ==> MessagesTokens(r) < MessagesTokens(ms))
  {
    SummaryIsShort(Middle(ms));
    hide MessagesTokens, MessageTokens, Summary, SummaryBound;
    ReplacingMiddleTokens(ms, Summary(Middle(ms)));
  }

  lemma CompactedTokens(ms: seq<Message>, targetTokens: int, systemTokens: int)
    requires |ms| > 7 && MessagesTokens(ms) > targetTokens - systemTokens
    ensures MessagesTokens(Compacted(ms, targetTokens, systemTokens))
            == MessageTokens(ms[0]) + MessageTokens(Summary(Middle(ms))) + MessagesTokens(Recent(ms))
  {
    hide MessagesTokens, MessageTokens, Summary;
    var summary := Summary(Middle(ms));
    ThreePartTokens(ms[0], [summary], Recent(ms));
    assert [ms[0]] + [summary] == [ms[0], summary];
    OneMessageTokens(summary);
  }

  /** Compaction promises a history that fits. It keeps the promise exactly if the history
      fits already, or has at least eight messages and those it keeps leave room for the
      summary: a long history of at most seven messages, or with large messages at its
      ends, comes back too large. */
  lemma CompactedFits(ms: seq<Message>, targetTokens: int, systemTokens: int)
    ensures MessagesTokens(Compacted(ms, targetTokens, systemTokens)) <= targetTokens - systemTokens <==>
            || MessagesTokens(ms) <= targetTokens - systemTokens
            || (|ms| > 7
                && MessageTokens(ms[0]) + MessageTokens(Summary(Middle(ms))) + MessagesTokens(Recent(ms))
                   <= targetTokens - systemTokens)
  {
    hide MessagesTokens, MessageTokens, Summary;
    if |ms| > 7 && MessagesTokens(ms) > targetTokens - systemTokens {
      CompactedTokens(ms, targetTokens, systemTokens);
    }
  }

  /** Without looking at the middle: the result fits if the messages kept leave room for
      the largest possible summary, and does not if they fill the target by themselves. */
  lemma KeptMessagesDecide(ms: seq<Message>, targetTokens: int, systemTokens: int)
    requires |ms| > 7 && MessagesTokens(ms) > targetTokens - systemTokens
    ensures var kept := MessageTokens(ms[0]) + MessagesTokens(Recent(ms));
            var r := Compacted(ms, targetTokens, systemTokens);
            && (kept + SummaryBound(|SummaryLines(Middle(ms))|) <= targetTokens - systemTokens ==>
                  MessagesTokens(r) <= targetTokens - systemTokens)
            && (kept >= targetTokens - systemTokens ==> MessagesTokens(r) > targetTokens - systemTokens)
  {
    SummaryIsShort(Middle(ms));
    assert MessageTokens(Summary(Middle(ms))) >= ROLE_OVERHEAD;
    hide MessagesTokens, MessageTokens, Summary, SummaryBound, SummaryLines;
    CompactedTokens(ms, targetTokens, systemTokens);
  }
}
