/** What the summary of a compacted history tells about the messages it replaces
    (enclave/agent/controller.py:138-173). */
module SummaryContents {
  import opened Models
  import opened Text
  import opened Compaction

  function Least(a: nat, b: nat): nat {
    if a <= b then a else b
  }

  function FirstOf(text: string, n: nat): string {
    text[..Least(n, |text|)]
  }

  // ---- One message ----

  /** Thinking and empty texts do not show. */
  predicate Contributing(b: ContentBlock) {
    (b.TextBlock? && b.text != "") || b.ToolUseBlock? || b.ToolResultBlock?
  }

  function ContributingOf(blocks: seq<ContentBlock>): seq<ContentBlock> {
    if blocks == [] then []
    else (if Contributing(blocks[0]) then [blocks[0]] else []) + ContributingOf(blocks[1..])
  }

  /** What such a block shows of itself. */
  predicate Shows(b: ContentBlock, piece: string) {
    match b
    case TextBlock(text) => piece == FirstOf(text, 100)
    case ThinkingBlock(_, _) => false
    case ToolUseBlock(call) => piece == "[tool:" + call.name + "(" + FirstOf(call.input, 80) + ")]"
    case ToolResultBlock(answer) =>
      piece == (if answer.isError then "[result:error:" else "[result:ok:") + FirstOf(answer.content, 80) + "]"
  }

  predicate ShowAll(blocks: seq<ContentBlock>, pieces: seq<string>) {
    |pieces| == |blocks| && forall i :: 0 <= i < |blocks| ==> Shows(blocks[i], pieces[i])
  }

  lemma {:induction false} ContributingConcat(a: seq<ContentBlock>, b: seq<ContentBlock>)
    ensures ContributingOf(a + b) == ContributingOf(a) + ContributingOf(b)
  {
    if a == [] {
      assert a + b == b;
    } else {
      assert (a + b)[1..] == a[1..] + b;
      ContributingConcat(a[1..], b);
    }
  }

  lemma PieceShows(b: ContentBlock)
    ensures Contributing(b) <==> BlockPreview(b) != []
    ensures Contributing(b) ==> |BlockPreview(b)| == 1 && Shows(b, BlockPreview(b)[0])
  {
    if b.ToolResultBlock? {
      var flag := if b.answer.isError then "error" else "ok";
      assert "[result:" + flag + ":" == if b.answer.isError then "[result:error:" else "[result:ok:";
    }
  }

  lemma {:induction false} PiecesShow(blocks: seq<ContentBlock>)
    ensures ShowAll(ContributingOf(blocks), BlockPreviews(blocks))
  {
    if blocks != [] {
      var front, b := blocks[..|blocks| - 1], blocks[|blocks| - 1];
      assert blocks == front + [b];
      assert BlockPreviews(blocks) == BlockPreviews(front) + BlockPreview(b);
      hide Shows, Contributing, BlockPreview, ShowAll, ContributingOf, BlockPreviews;
      PiecesShow(front);
      PieceShows(b);
      OneContributing(b);
      ContributingConcat(front, [b]);
      OneMorePiece(ContributingOf(front), BlockPreviews(front), b, BlockPreview(b));
    }
  }

  lemma OneContributing(b: ContentBlock)
    ensures ContributingOf([b]) == if Contributing(b) then [b] else []
  {
    hide Contributing;
    assert [b][1..] == [];
  }

  lemma OneMorePiece(blocks: seq<ContentBlock>, pieces: seq<string>, b: ContentBlock, piece: seq<string>)
    requires ShowAll(blocks, pieces)
    requires Contributing(b) <==> piece != []
    requires Contributing(b) ==> |piece| == 1 && Shows(b, piece[0])
    ensures ShowAll(blocks + if Contributing(b) then [b] else [], pieces + piece)
  {
    hide Shows, Contributing;
  }

  /** A line of the summary: the role of its message, and the first 200 characters of its
      text, or of what its blocks show, one behind the other. */
  ghost predicate Describes(line: string, m: Message) {
    exists text :: ShowsMessage(text, m)
                   && line == (if m.role.User? then "[user]: " else "[assistant]: ") + FirstOf(text, 200)
  }

  ghost predicate ShowsMessage(text: string, m: Message) {
    match m.content
    case Text(t) => text == t
    case Blocks(blocks) => exists pieces :: ShowAll(ContributingOf(blocks), pieces) && text == Join(" | ", pieces)
  }

  lemma PreviewShows(m: Message)
    ensures exists text :: ShowsMessage(text, m) && Preview(m) == FirstOf(text, 200)
  {
    match m.content
    case Text(t) =>
      assert ShowsMessage(t, m);
    case Blocks(blocks) =>
      PiecesShow(blocks);
      assert ShowsMessage(Join(" | ", BlockPreviews(blocks)), m);
  }

  lemma LineDescribes(m: Message)
    ensures Describes("[" + RoleName(m.role) + "]: " + Preview(m), m)
  {
    PreviewShows(m);
    hide ShowsMessage, Preview;
    var text :| ShowsMessage(text, m) && Preview(m) == FirstOf(text, 200);
    assert "[" + RoleName(m.role) + "]: " == if m.role.User? then "[user]: " else "[assistant]: ";
  }

  /** Where the 200 characters reach, every block is told in full: piece `i` stands behind the
      pieces before it and the bars between them. */
  lemma BlockIsTold(blocks: seq<ContentBlock>, pieces: seq<string>, i: nat)
    requires ShowAll(ContributingOf(blocks), pieces) && i < |pieces|
    requires Offset(" | ", pieces, i) + |pieces[i]| <= 200
    ensures var o := Offset(" | ", pieces, i);
            var text := FirstOf(Join(" | ", pieces), 200);
            o + |pieces[i]| <= |text| && text[o..o + |pieces[i]|] == pieces[i]
  {
    hide Join, Offset, ShowAll, ContributingOf, FirstOf;
    JoinHolds(" | ", pieces, i);
    var text, o := Join(" | ", pieces), Offset(" | ", pieces, i);
    SliceOfFirst(text, 200, o, o + |pieces[i]|);
  }

  lemma SliceOfFirst(text: string, n: nat, from: nat, end: nat)
    requires from <= end <= |text| && end <= n
    ensures end <= |FirstOf(text, n)| && FirstOf(text, n)[from..end] == text[from..end]
  {
  }

  // ---- Which messages are told ----

  /** The messages that are not blank. */
  function Told(ms: seq<Message>): seq<Message> {
    if ms == [] then [] else ToldAlone(ms[0]) + Told(ms[1..])
  }

  function ToldAlone(m: Message): seq<Message> {
    if HasInk(Preview(m)) then [m] else []
  }

  lemma {:induction false} ToldConcat(a: seq<Message>, b: seq<Message>)
    ensures Told(a + b) == Told(a) + Told(b)
  {
    if a == [] {
      assert a + b == b;
    } else {
      FirstTold(a);
      FirstTold(a + b);
      hide Told, ToldAlone;
      FirstOfConcat(a, b);
      ToldConcat(a[1..], b);
      Associates(ToldAlone(a[0]), Told(a[1..]), Told(b));
    }
  }

  lemma FirstTold(ms: seq<Message>)
    requires ms != []
    ensures Told(ms) == ToldAlone(ms[0]) + Told(ms[1..])
  {
    hide ToldAlone;
  }

  /** A plain message with a printable character among its first 200 is told, one of white
      space is not. */
  lemma PlainMessageTold(m: Message)
    requires m.content.Text?
    ensures (exists i :: 0 <= i < 200 && i < |m.content.text| && '!' <= m.content.text[i] <= '~') ==> Told([m]) == [m]
    ensures (forall i :: 0 <= i < |m.content.text| ==> m.content.text[i] in " \t\n\r") ==> Told([m]) == []
  {
    var text := m.content.text;
    InkOfAscii(Preview(m));
    hide HasInk;
    assert [m][1..] == [];
    if i :| 0 <= i < 200 && i < |text| && '!' <= text[i] <= '~' {
      assert Preview(m)[i] == text[i];
    }
  }

  /** Every message with a call or a result is told. */
  lemma ToolMessageTold(m: Message, b: ContentBlock)
    requires m.content.Blocks? && b in m.content.blocks && (b.ToolUseBlock? || b.ToolResultBlock?)
    ensures Told([m]) == [m]
  {
    var blocks := m.content.blocks;
    ToolIsContributing(blocks, b);
    PiecesShow(blocks);
    hide HasInk, ContributingOf, BlockPreviews, Join, ShowAll;
    InkyPieces(ContributingOf(blocks), BlockPreviews(blocks));
    InkOfAscii(Preview(m));
    var text := Join(" | ", BlockPreviews(blocks));
    var i :| 0 <= i < 200 && i < |text| && '!' <= text[i] <= '~';
    assert Preview(m)[i] == text[i];
    assert [m][1..] == [];
  }

  lemma {:induction false} ToolIsContributing(blocks: seq<ContentBlock>, b: ContentBlock)
    requires b in blocks && (b.ToolUseBlock? || b.ToolResultBlock?)
    ensures b in ContributingOf(blocks)
  {
    if blocks[0] != b {
      ToolIsContributing(blocks[1..], b);
    }
  }

  /** Ink is among the first characters: the bracket of a call or a result, or the bar
      behind a text. */
  lemma InkyPieces(blocks: seq<ContentBlock>, pieces: seq<string>)
    requires ShowAll(blocks, pieces) && exists b :: b in blocks && (b.ToolUseBlock? || b.ToolResultBlock?)
    ensures var text := Join(" | ", pieces);
            exists i :: 0 <= i < 200 && i < |text| && '!' <= text[i] <= '~'
  {
    var text := Join(" | ", pieces);
    JoinHolds(" | ", pieces, 0);
    hide Join;
    var o := |pieces[0]|;
    assert Shows(blocks[0], pieces[0]);
    if blocks[0].TextBlock? {
      assert |pieces| > 1 by { assert |blocks| > 1; }
      assert text[o..o + 3] == " | ";
      assert text[o + 1] == text[o..o + 3][1] == '|';
    } else {
      assert text[0] == text[0..o][0] == '[';
    }
  }

  // ---- The summary ----

  /** The lines tell the first thirty messages, and the number behind them how many more
      there were. */
  ghost predicate Tells(text: string, lines: seq<string>, told: seq<Message>) {
    && |lines| == Least(30, |told|)
    && (forall i :: 0 <= i < |lines| ==> Describes(lines[i], told[i]))
    && exists tail :: text == SUMMARY_HEADER + Join("\n", lines) + tail && TellsRest(tail, |told|)
  }

  ghost predicate TellsOf(text: string, middle: seq<Message>) {
    exists lines :: Tells(text, lines, Told(middle))
  }

  predicate TellsRest(tail: string, count: nat) {
    if count <= 30 then tail == ""
    else
      |tail| > 9 + 15 && tail[..9] == "\n... and " && tail[|tail| - 15..] == " more exchanges"
      && IsNumeral(tail[9..|tail| - 15]) && NumeralValue(tail[9..|tail| - 15]) == count - 30
  }

  lemma ToldOne(m: Message)
    ensures Told([m]) == if HasInk(Preview(m)) then [m] else []
  {
    hide Preview, HasInk;
    assert [m][1..] == [];
  }

  ghost predicate AllDescribe(lines: seq<string>, told: seq<Message>) {
    && |lines| == |told|
    && forall i :: 0 <= i < |told| ==> Describes(lines[i], told[i])
  }

  lemma {:induction false} LinesDescribe(ms: seq<Message>)
    ensures AllDescribe(SummaryLines(ms), Told(ms))
  {
    if ms != [] {
      hide AllDescribe, Told, SummaryLines, SummaryLine;
      var front, m := ms[..|ms| - 1], ms[|ms| - 1];
      LinesOfLast(ms);
      LinesDescribe(front);
      OneLineDescribes(m);
      FrontAndLast(ms);
      ToldConcat(front, [m]);
      DescribesNext(SummaryLines(front), Told(front), SummaryLine(m), Told([m]));
    }
  }

  lemma LinesOfLast(ms: seq<Message>)
    requires ms != []
    ensures SummaryLines(ms) == SummaryLines(ms[..|ms| - 1]) + SummaryLine(ms[|ms| - 1])
  {
    hide SummaryLine;
  }

  lemma OneLineDescribes(m: Message)
    ensures AllDescribe(SummaryLine(m), Told([m]))
  {
    ToldOne(m);
    LineDescribes(m);
    hide Describes, Preview, HasInk, RoleName, Told;
  }

  lemma DescribesNext(lines: seq<string>, told: seq<Message>, moreLines: seq<string>, more: seq<Message>)
    requires AllDescribe(lines, told) && AllDescribe(moreLines, more)
    ensures AllDescribe(lines + moreLines, told + more)
  {
    hide Describes;
  }

  lemma RestIsTold(count: nat)
    ensures TellsRest(Overflow(count), count)
  {
    if count > MAX_SUMMARY_LINES {
      DecimalReads(count - 30);
      hide Decimal, NumeralValue, IsNumeral;
      ThreeParts("\n... and ", Decimal(count - 30), " more exchanges");
    }
  }

  lemma ThreeParts(a: string, b: string, c: string)
    ensures var text := a + b + c;
            text[..|a|] == a && text[|a|..|text| - |c|] == b && text[|text| - |c|..] == c
  {
  }

  /** The summary of any messages begins with the header, goes on with a line for each of
      the first thirty that are not blank, in order, and ends with the number of the others. */
  lemma SummaryTells(middle: seq<Message>)
    ensures Summary(middle).role.User? && Summary(middle).content.Text?
    ensures TellsOf(Summary(middle).content.text, middle)
  {
    var told, all := Told(middle), SummaryLines(middle);
    LinesDescribe(middle);
    RestIsTold(|told|);
    var lines := all[..Least(30, |all|)];
    assert lines == Take(all, MAX_SUMMARY_LINES);
    hide Describes, TellsRest, SummaryLines, Told;
    assert SummaryText(all) == SUMMARY_HEADER + Join("\n", lines) + Overflow(|told|);
    assert Tells(SummaryText(all), lines, told);
  }

  /** So does the second message of every history that compaction changes, about the
      messages between the first and the last six. */
  lemma CompactionTells(ms: seq<Message>, targetTokens: int, systemTokens: int)
    requires Compacted(ms, targetTokens, systemTokens) != ms
    ensures var r := Compacted(ms, targetTokens, systemTokens);
            && |ms| > 7 && |r| == 8
            && r[0] == ms[0] && r[2..] == ms[|ms| - 6..]
            && r[1].role.User? && r[1].content.Text?
            && TellsOf(r[1].content.text, ms[1..|ms| - 6])
  {
    hide MessagesTokens, Summary, TellsOf;
    SummaryTells(Middle(ms));
  }
}
