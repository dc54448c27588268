/** The tool name that the Gemini client attaches to a tool result: the client searches
    the whole history for the call with the result's id (enclave/agent/llm_client.py:1227-1246). */
module Gemini {
  import opened Models
  import opened Compaction
  import opened Pairing

  const UNKNOWN_TOOL := "unknown_tool"

  function UsesOf(m: Message): seq<ToolUse> {
    if m.content.Blocks? then ToolUses(m.content.blocks) else []
  }

  /** The name of the first call with the id, if any. */
  function FirstName(uses: seq<ToolUse>, id: string): Option<string> {
    if uses == [] then None
    else if uses[0].id == id then Some(uses[0].name)
    else FirstName(uses[1..], id)
  }

  /** The search goes on past a call whose name is empty, message by message. */
  function NameFor(h: seq<Message>, id: string): string {
    if h == [] then UNKNOWN_TOOL
    else
      var found := FirstName(UsesOf(h[0]), id);
      if found.Some? && found.value != "" then found.value else NameFor(h[1..], id)
  }

  method LookUpName(h: seq<Message>, id: string) returns (name: string)
    ensures name == NameFor(h, id)
  {
    name := "";
    for i := 0 to |h|
      invariant name == ""
      invariant NameFor(h, id) == NameFor(h[i..], id)
    {
      if h[i].content.Blocks? {
        name := FindInBlocks(h[i].content.blocks, id);
      }
      if name != "" {
        return;
      }
    }
    name := UNKNOWN_TOOL;
  }

  method FindInBlocks(blocks: seq<ContentBlock>, id: string) returns (name: string)
    ensures var found := FirstName(ToolUses(blocks), id);
            name == if found.Some? then found.value else ""
  {
    name := "";
    assert blocks[..|blocks|] == blocks;
    for j := 0 to |blocks|
      invariant FirstName(ToolUses(blocks[..j]), id) == None
    {
      assert blocks[..j + 1][..j] == blocks[..j];
      if blocks[j].ToolUseBlock? {
        FirstNameConcat(ToolUses(blocks[..j]), [blocks[j].call], id);
        assert FirstName([blocks[j].call], id) == if blocks[j].call.id == id then Some(blocks[j].call.name) else None;
        assert ToolUses(blocks[..j + 1]) == ToolUses(blocks[..j]) + [blocks[j].call];
        if blocks[j].call.id == id {
          var uses, seen := ToolUses(blocks), ToolUses(blocks[..j + 1]);
          UsesOfPrefix(blocks, j + 1);
          assert uses == seen + uses[|seen|..];
          FirstNameConcat(seen, uses[|seen|..], id);
          return blocks[j].call.name;
        }
      } else {
        assert ToolUses(blocks[..j + 1]) == ToolUses(blocks[..j]) + [];
        assert ToolUses(blocks[..j + 1]) == ToolUses(blocks[..j]);
      }
    }
  }

  lemma {:induction false} FirstNameConcat(a: seq<ToolUse>, b: seq<ToolUse>, id: string)
    ensures FirstName(a + b, id) == if FirstName(a, id).Some? then FirstName(a, id) else FirstName(b, id)
  {
    if a == [] {
      assert a + b == b;
    } else {
      assert (a + b)[1..] == a[1..] + b;
      FirstNameConcat(a[1..], b, id);
    }
  }

  lemma {:induction false} UsesOfPrefix(blocks: seq<ContentBlock>, k: nat)
    requires k <= |blocks|
    ensures ToolUses(blocks[..k]) <= ToolUses(blocks)
  {
    if k < |blocks| {
      var front := blocks[..|blocks| - 1];
      UsesOfPrefix(front, k);
      assert front[..k] == blocks[..k];
    } else {
      assert blocks[..k] == blocks;
    }
  }

  // ---- With unique ids the search finds the right call ----

  /** No two tool calls of the history share an id. */
  predicate UniqueIds(h: seq<Message>) {
    forall i, j, k, l |
      0 <= i < |h| && 0 <= j < |h| && 0 <= k < |UsesOf(h[i])| && 0 <= l < |UsesOf(h[j])|
      && UsesOf(h[i])[k].id == UsesOf(h[j])[l].id
      :: i == j && k == l
  }

  lemma {:induction false} FirstNameAt(uses: seq<ToolUse>, k: nat)
    requires k < |uses| && forall l :: 0 <= l < k ==> uses[l].id != uses[k].id
    ensures FirstName(uses, uses[k].id) == Some(uses[k].name)
  {
    if k > 0 {
      FirstNameAt(uses[1..], k - 1);
    }
  }

  lemma {:induction false} FirstNameNone(uses: seq<ToolUse>, id: string)
    requires forall l :: 0 <= l < |uses| ==> uses[l].id != id
    ensures FirstName(uses, id) == None
  {
    if uses != [] {
      FirstNameNone(uses[1..], id);
    }
  }

  lemma {:induction false} NameForNobody(h: seq<Message>, id: string)
    requires forall i, k :: 0 <= i < |h| && 0 <= k < |UsesOf(h[i])| ==> UsesOf(h[i])[k].id != id
    ensures NameFor(h, id) == UNKNOWN_TOOL
  {
    if h != [] {
      FirstNameNone(UsesOf(h[0]), id);
      assert forall i :: 0 <= i < |h[1..]| ==> h[1..][i] == h[i + 1];
      NameForNobody(h[1..], id);
    }
  }

  /** The lookup of a call's id gives the call's name, or the placeholder for a
      nameless call. */
  lemma {:induction false} NameForCall(h: seq<Message>, i: nat, k: nat)
    requires UniqueIds(h) && i < |h| && k < |UsesOf(h[i])|
    ensures var call := UsesOf(h[i])[k];
            NameFor(h, call.id) == if call.name != "" then call.name else UNKNOWN_TOOL
  {
    hide UniqueIds, UsesOf, FirstName;
    var call, rest := UsesOf(h[i])[k], h[1..];
    if i == 0 {
      forall l | 0 <= l < k ensures UsesOf(h[0])[l].id != call.id {
        Apart(h, 0, l, 0, k);
      }
      FirstNameAt(UsesOf(h[0]), k);
      forall j, l | 0 <= j < |rest| && 0 <= l < |UsesOf(rest[j])| ensures UsesOf(rest[j])[l].id != call.id {
        Apart(h, j + 1, l, 0, k);
      }
      NameForNobody(rest, call.id);
    } else {
      forall l | 0 <= l < |UsesOf(h[0])| ensures UsesOf(h[0])[l].id != call.id {
        Apart(h, 0, l, i, k);
      }
      FirstNameNone(UsesOf(h[0]), call.id);
      UniqueIdsRest(h);
      assert rest[i - 1] == h[i];
      NameForCall(rest, i - 1, k);
    }
  }

  lemma Apart(h: seq<Message>, i: nat, k: nat, j: nat, l: nat)
    requires UniqueIds(h) && i < |h| && j < |h| && k < |UsesOf(h[i])| && l < |UsesOf(h[j])|
    requires i != j || k != l
    ensures UsesOf(h[i])[k].id != UsesOf(h[j])[l].id
  {}

  lemma UniqueIdsRest(h: seq<Message>)
    requires UniqueIds(h) && h != []
    ensures UniqueIds(h[1..])
  {
    var rest := h[1..];
    forall i, j, k, l | 0 <= i < |rest| && 0 <= j < |rest| && 0 <= k < |UsesOf(rest[i])| && 0 <= l < |UsesOf(rest[j])|
      && UsesOf(rest[i])[k].id == UsesOf(rest[j])[l].id
      ensures i == j && k == l
    {
      assert UsesOf(h[i + 1])[k].id == UsesOf(h[j + 1])[l].id;
    }
  }

  lemma UniqueIdsCut(h: seq<Message>, summary: Message)
    requires |h| > 7 && UniqueIds(h) && UsesOf(summary) == []
    ensures UniqueIds([h[0], summary] + Recent(h))
  {
    hide UsesOf;
    var cut := [h[0], summary] + Recent(h);
    forall i, j, k, l | 0 <= i < |cut| && 0 <= j < |cut| && 0 <= k < |UsesOf(cut[i])| && 0 <= l < |UsesOf(cut[j])|
      && UsesOf(cut[i])[k].id == UsesOf(cut[j])[l].id
      ensures i == j && k == l
    {
      var i', j' := CutFrom(h, summary, i), CutFrom(h, summary, j);
      assert UsesOf(h[i'])[k].id == UsesOf(h[j'])[l].id;
    }
  }

  /** Where a message of the cut history that uses tools comes from. */
  function CutFrom(h: seq<Message>, summary: Message, i: nat): (j: nat)
    requires |h| > 7 && UsesOf(summary) == []
    requires i < 8 && UsesOf(([h[0], summary] + Recent(h))[i]) != []
    ensures j < |h| && h[j] == ([h[0], summary] + Recent(h))[i] && j == if i == 0 then 0 else |h| - 8 + i
  {
    if i == 0 then 0 else |h| - 8 + i
  }

  /** In a paired history with unique ids, the name attached to a result is the name of
      the call it answers. */
  lemma ResultNames(h: seq<Message>, i: nat, k: nat)
    requires WellPaired(h) && UniqueIds(h) && i < |h| && BearsResults(h[i]) && k < |h[i].content.blocks|
    ensures i > 0 && k < |Calls(h[i - 1])| && h[i].content.blocks[k].ToolResultBlock?
    ensures var call := Calls(h[i - 1])[k];
            NameFor(h, h[i].content.blocks[k].answer.toolUseId)
            == if call.name != "" then call.name else UNKNOWN_TOOL
  {
    assert PairedAt(h, i);
    assert PairedAt(h, i - 1);
    NameForCall(h, i - 1, k);
  }

  lemma OrphanIsNameless(h: seq<Message>, summary: Message, k: nat)
    requires |h| > 7 && Opening(h[0]) && Opening(summary) && WellPaired(h) && UniqueIds(h)
    requires BearsResults(CutAt(h)) && k < |CutAt(h).content.blocks|
    ensures CutAt(h).content.blocks[k].ToolResultBlock?
    ensures NameFor([h[0], summary] + Recent(h), CutAt(h).content.blocks[k].answer.toolUseId) == UNKNOWN_TOOL
  {
    var c := |h| - MIN_RECENT_MESSAGES;
    assert PairedAt(h, c) && PairedAt(h, c - 1);
    var id := CutAt(h).content.blocks[k].answer.toolUseId;
    assert UsesOf(h[c - 1])[k].id == id;
    var cut := [h[0], summary] + Recent(h);
    var shift := |h| - 8;
    forall i, l | 0 <= i < |cut| && 0 <= l < |UsesOf(cut[i])| ensures UsesOf(cut[i])[l].id != id {
      if i >= 2 {
        assert cut[i] == h[shift + i];
        assert UsesOf(h[shift + i])[l].id != id;
      }
    }
    NameForNobody(cut, id);
  }

  /** Compaction keeps ids unique and, unless its cut lands on results, keeps the history
      paired, so that `ResultNames` goes on to hold; if the cut lands on results, every
      one of them is attributed to the unknown tool. */
  lemma NamesAfterCut(h: seq<Message>, summary: Message)
    requires |h| > 7 && Opening(h[0]) && Opening(summary) && WellPaired(h) && UniqueIds(h)
    ensures var cut := [h[0], summary] + Recent(h);
            && UniqueIds(cut)
            && (WellPaired(cut) <==> !BearsResults(CutAt(h)))
            && (BearsResults(CutAt(h)) ==>
                  forall b <- CutAt(h).content.blocks ::
                    b.ToolResultBlock? && NameFor(cut, b.answer.toolUseId) == UNKNOWN_TOOL)
  {
    UniqueIdsCut(h, summary);
    CutKeepsPairing(h, summary);
    hide UniqueIds, WellPaired, NameFor;
    if BearsResults(CutAt(h)) {
      forall k: nat | k < |CutAt(h).content.blocks|
        ensures CutAt(h).content.blocks[k].ToolResultBlock?
        ensures NameFor([h[0], summary] + Recent(h), CutAt(h).content.blocks[k].answer.toolUseId) == UNKNOWN_TOOL
      {
        OrphanIsNameless(h, summary, k);
      }
    }
  }
}
