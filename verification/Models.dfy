/** The values passed between the agent's components (enclave/agent/models.py).
    Tool arguments and tool results appear as their printed text, and money in
    whole micro-dollars. */
module Models {

  datatype Option<+T> = None | Some(value: T)

  datatype ToolUse = ToolUse(id: string, name: string, input: string)

  datatype ToolResult = ToolResult(toolUseId: string, content: string, isError: bool)

  datatype ContentBlock =
    | TextBlock(text: string)
    | ThinkingBlock(thinking: string, signature: string)
    | ToolUseBlock(call: ToolUse)
    | ToolResultBlock(answer: ToolResult)

  datatype Role = User | Assistant

  datatype Content = Text(text: string) | Blocks(blocks: seq<ContentBlock>)

  datatype Message = Message(role: Role, content: Content)

  datatype ToolOutput = ToolOutput(success: bool, result: string, error: string)

  datatype LLMResponse = LLMResponse(content: seq<ContentBlock>, inputTokens: int, outputTokens: int)

  datatype StepResult = StepResult(
    stepNumber: int,
    toolName: Option<string>,
    toolArgs: string,
    output: Option<ToolOutput>,
    llmResponse: string,
    inputTokens: int,
    outputTokens: int)

  /** Sonnet pricing: 3 micro-dollars per input token and 15 per output token. */
  function TokenCost(inputTokens: int, outputTokens: int): int {
    3 * inputTokens + 15 * outputTokens
  }

  /** Three dollars per million input tokens, fifteen per million output tokens. */
  lemma SonnetPricing(content: seq<ContentBlock>, input: int, output: int, moreInput: int, moreOutput: int)
    ensures ResponseCost(LLMResponse(content, 1_000_000, 0)) == 3_000_000
    ensures ResponseCost(LLMResponse(content, 0, 1_000_000)) == 15_000_000
    ensures ResponseCost(LLMResponse(content, input + moreInput, output + moreOutput))
            == ResponseCost(LLMResponse(content, input, output)) + ResponseCost(LLMResponse(content, moreInput, moreOutput))
  {
  }

  function StepCost(s: StepResult): int {
    TokenCost(s.inputTokens, s.outputTokens)
  }

  function ResponseCost(r: LLMResponse): int {
    TokenCost(r.inputTokens, r.outputTokens)
  }

  function SumCost(steps: seq<StepResult>): int {
    if steps == [] then 0 else SumCost(steps[..|steps| - 1]) + StepCost(steps[|steps| - 1])
  }

  /** The tool_use blocks of a message, in order. */
  function ToolUses(blocks: seq<ContentBlock>): seq<ToolUse> {
    if blocks == [] then []
    else
      var b := blocks[|blocks| - 1];
      ToolUses(blocks[..|blocks| - 1]) + if b.ToolUseBlock? then [b.call] else []
  }

  /** The tool_result blocks of a message, in order. */
  function ToolResults(blocks: seq<ContentBlock>): seq<ToolResult> {
    if blocks == [] then []
    else
      var b := blocks[|blocks| - 1];
      ToolResults(blocks[..|blocks| - 1]) + if b.ToolResultBlock? then [b.answer] else []
  }

  /** The non-empty texts of the text blocks, in order. */
  function Texts(blocks: seq<ContentBlock>): seq<string> {
    if blocks == [] then []
    else
      var b := blocks[|blocks| - 1];
      Texts(blocks[..|blocks| - 1]) + if b.TextBlock? && b.text != "" then [b.text] else []
  }

  /** The call in block `i` comes behind those in the blocks before it. */
  lemma {:induction false} CallIsListed(blocks: seq<ContentBlock>, i: nat)
    requires i < |blocks| && blocks[i].ToolUseBlock?
    ensures var place := |ToolUses(blocks[..i])|;
            place < |ToolUses(blocks)| && ToolUses(blocks)[place] == blocks[i].call
  {
    if i < |blocks| - 1 {
      var front := blocks[..|blocks| - 1];
      CallIsListed(front, i);
      assert front[..i] == blocks[..i];
    }
  }

  /** Each of the listed calls is that of a block. */
  lemma {:induction false} ListedIsCall(blocks: seq<ContentBlock>, place: nat) returns (i: nat)
    requires place < |ToolUses(blocks)|
    ensures i < |blocks| && |ToolUses(blocks[..i])| == place && blocks[i] == ToolUseBlock(ToolUses(blocks)[place])
  {
    var front := blocks[..|blocks| - 1];
    if place < |ToolUses(front)| {
      i := ListedIsCall(front, place);
      assert front[..i] == blocks[..i];
    } else {
      i := |blocks| - 1;
    }
  }

  /** The result in block `i` comes behind those in the blocks before it. */
  lemma {:induction false} ResultIsListed(blocks: seq<ContentBlock>, i: nat)
    requires i < |blocks| && blocks[i].ToolResultBlock?
    ensures var place := |ToolResults(blocks[..i])|;
            place < |ToolResults(blocks)| && ToolResults(blocks)[place] == blocks[i].answer
  {
    if i < |blocks| - 1 {
      var front := blocks[..|blocks| - 1];
      ResultIsListed(front, i);
      assert front[..i] == blocks[..i];
    }
  }

  /** Each of the listed results is that of a block. */
  lemma {:induction false} ListedIsResult(blocks: seq<ContentBlock>, place: nat) returns (i: nat)
    requires place < |ToolResults(blocks)|
    ensures i < |blocks| && |ToolResults(blocks[..i])| == place && blocks[i] == ToolResultBlock(ToolResults(blocks)[place])
  {
    var front := blocks[..|blocks| - 1];
    if place < |ToolResults(front)| {
      i := ListedIsResult(front, place);
      assert front[..i] == blocks[..i];
    } else {
      i := |blocks| - 1;
    }
  }

  lemma {:induction false} SumCostConcat(a: seq<StepResult>, b: seq<StepResult>)
    ensures SumCost(a + b) == SumCost(a) + SumCost(b)
  {
    if b == [] {
      assert a + b == a;
    } else {
      var front := b[..|b| - 1];
      assert (a + b)[..|a + b| - 1] == a + front;
      SumCostConcat(a, front);
    }
  }
}
