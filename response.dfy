/**
 * The non-streaming response path of `handleMessages` in index.js: an
 * OpenAI chat completion becomes an Anthropic Messages response. Parsing a
 * tool call's `arguments` is a parameter (`parse`, failing with `None`);
 * the proxy's exceptions (a failed parse, a missing `choices[0]` or
 * `usage`) are the `None` result.
 */
module ResponseMapping {
  import opened Wrappers
  import opened Events

  /** An entry of `message.tool_calls`. */
  datatype UpstreamCall = UpstreamCall(id: string, name: string, arguments: string)

  /** `choices[0].message`; "" for an absent or null text field. */
  datatype UpstreamMessage = UpstreamMessage(content: string, reasoning: string, toolCalls: seq<UpstreamCall>)

  datatype UpstreamChoice = UpstreamChoice(message: UpstreamMessage, finish: string)

  datatype Usage = Usage(promptTokens: int, completionTokens: int)

  datatype Completion = Completion(id: string, choices: seq<UpstreamChoice>, usage: Option<Usage>)

  /** A content block of the response; `J` is the type of a parsed tool input. */
  datatype ContentBlock<J> =
    | ThinkingBlock(thinking: string)
    | TextBlock(text: string)
    | ToolUseBlock(id: string, name: string, input: J)

  datatype Response<J> = Response(
    id: string,
    content: seq<ContentBlock<J>>,
    model: string,
    stopReason: StopReason,
    inputTokens: int,
    outputTokens: int)

  /** The tool-use blocks for `calls`, in order, or `None` if an argument string does not parse. */
  function ToolBlocks<J>(calls: seq<UpstreamCall>, parse: string -> Option<J>): (r: Option<seq<ContentBlock<J>>>)
    decreases |calls|
    ensures r.Some? <==> forall i :: 0 <= i < |calls| ==> parse(calls[i].arguments).Some?
    ensures r.Some? ==> |r.value| == |calls|
    ensures r.Some? ==> forall i :: 0 <= i < |calls| ==>
      r.value[i] == ToolUseBlock(calls[i].id, calls[i].name, parse(calls[i].arguments).value)
  {
    if calls == [] then Some([])
    else
      match parse(calls[0].arguments)
      case None => None
      case Some(input) =>
        match ToolBlocks(calls[1..], parse)
        case None =>
          assert forall i :: 0 <= i < |calls[1..]| ==> calls[1..][i] == calls[i + 1];
          None
        case Some(rest) =>
          assert forall i :: 0 <= i < |calls[1..]| ==> calls[1..][i] == calls[i + 1];
          Some([ToolUseBlock(calls[0].id, calls[0].name, input)] + rest)
  }

  /** Thinking if there is reasoning, text if there is content, then the tool uses. */
  function Layout<J>(reasoning: string, content: string, tools: seq<ContentBlock<J>>): seq<ContentBlock<J>>
  {
    (if reasoning != "" then [ThinkingBlock(reasoning)] else [])
    + (if content != "" then [TextBlock(content)] else [])
    + tools
  }

  /** The blocks of the response, or `None` if a tool call's arguments do not parse. */
  function ContentOf<J>(m: UpstreamMessage, parse: string -> Option<J>): Option<seq<ContentBlock<J>>>
  {
    match ToolBlocks(m.toolCalls, parse)
    case None => None
    case Some(tools) => Some(Layout(m.reasoning, m.content, tools))
  }

  /**
   * The response for a completion: `choices[0]`'s message reshaped (an empty
   * result becomes a single empty text block), the stop reason, and usage.
   */
  function Reshape<J>(c: Completion, model: string, parse: string -> Option<J>): (r: Option<Response<J>>)
    ensures r.Some? <==> (c.choices != [] && c.usage.Some?
                          && forall i :: 0 <= i < |c.choices[0].message.toolCalls| ==>
                               parse(c.choices[0].message.toolCalls[i].arguments).Some?)
    ensures r.Some? ==>
      var m := c.choices[0].message;
      |r.value.content| >= 1
      && r.value.id == c.id && r.value.model == model
      && r.value.inputTokens == c.usage.value.promptTokens && r.value.outputTokens == c.usage.value.completionTokens
      && (r.value.stopReason == ToolUse <==> c.choices[0].finish == "tool_calls" || m.toolCalls != [])
      && (r.value.stopReason == MaxTokens <==> c.choices[0].finish == "length" && m.toolCalls == [])
      && (m.reasoning != "" ==> r.value.content[0] == ThinkingBlock(m.reasoning))
      && (m.reasoning == "" && m.content != "" ==> r.value.content[0] == TextBlock(m.content))
      && (m.reasoning == "" && m.content == "" && m.toolCalls == [] ==> r.value.content == [TextBlock("")])
  {
    if c.choices == [] || c.usage.None? then None
    else
      var choice := c.choices[0];
      match ContentOf(choice.message, parse)
      case None => None
      case Some(blocks) =>
        Some(Response(c.id, if blocks != [] then blocks else [TextBlock("")], model,
                      FinishStopReason(choice.finish, |choice.message.toolCalls| > 0),
                      c.usage.value.promptTokens, c.usage.value.completionTokens))
  }

  /** The text of the text blocks, concatenated. */
  function TextOf<J>(blocks: seq<ContentBlock<J>>): string
    decreases |blocks|
  {
    if blocks == [] then "" else (if blocks[0].TextBlock? then blocks[0].text else "") + TextOf(blocks[1..])
  }

  /** The thinking of the thinking blocks, concatenated. */
  function ThinkingOf<J>(blocks: seq<ContentBlock<J>>): string
    decreases |blocks|
  {
    if blocks == [] then "" else (if blocks[0].ThinkingBlock? then blocks[0].thinking else "") + ThinkingOf(blocks[1..])
  }

  lemma {:induction false} NoTextInTools<J>(blocks: seq<ContentBlock<J>>)
    requires forall i :: 0 <= i < |blocks| ==> blocks[i].ToolUseBlock?
    ensures TextOf(blocks) == "" && ThinkingOf(blocks) == ""
    decreases |blocks|
  {
    if blocks != [] {
      NoTextInTools(blocks[1..]);
    }
  }

  /**
   * Nothing of the upstream message is lost: its reasoning and its content
   * are read back from the response blocks, and the last blocks are the tool
   * uses of its calls, one per call in order.
   */
  lemma ReshapeKeepsMessage<J>(c: Completion, model: string, parse: string -> Option<J>)
    requires Reshape(c, model, parse).Some?
    ensures var m := c.choices[0].message; var blocks := Reshape(c, model, parse).value.content;
      ThinkingOf(blocks) == m.reasoning && TextOf(blocks) == m.content
      && |m.toolCalls| <= |blocks| && blocks[|blocks| - |m.toolCalls|..] == ToolBlocks(m.toolCalls, parse).value
  {
    var m := c.choices[0].message;
    var tools, laid := ReshapedContent(c, model, parse);
    LayoutReadsBack(m.reasoning, m.content, tools);
    if laid == [] {
      var blocks := Reshape(c, model, parse).value.content;
      assert blocks[1..] == [];
      assert blocks[|blocks|..] == [];
    }
  }

  lemma ReshapedContent<J>(c: Completion, model: string, parse: string -> Option<J>)
    returns (tools: seq<ContentBlock<J>>, laid: seq<ContentBlock<J>>)
    requires Reshape(c, model, parse).Some?
    ensures var m := c.choices[0].message;
      ToolBlocks(m.toolCalls, parse) == Some(tools) && laid == Layout(m.reasoning, m.content, tools)
      && Reshape(c, model, parse).value.content == if laid == [] then [TextBlock("")] else laid
  {
    var m := c.choices[0].message;
    tools := ToolBlocks(m.toolCalls, parse).value;
    laid := Layout(m.reasoning, m.content, tools);
  }

  /** Reading reasoning, content and tool uses back out of a layout. */
  lemma LayoutReadsBack<J>(reasoning: string, content: string, tools: seq<ContentBlock<J>>)
    requires forall i :: 0 <= i < |tools| ==> tools[i].ToolUseBlock?
    ensures var blocks := Layout(reasoning, content, tools);
      ThinkingOf(blocks) == reasoning && TextOf(blocks) == content
      && |tools| <= |blocks| && blocks[|blocks| - |tools|..] == tools
  {
    var thinking: seq<ContentBlock<J>> := if reasoning != "" then [ThinkingBlock(reasoning)] else [];
    var text: seq<ContentBlock<J>> := if content != "" then [TextBlock(content)] else [];
    NoTextInTools(tools);
    TextOfAppend(thinking + text, tools);
    TextOfAppend(thinking, text);
    if thinking != [] {
      assert thinking[1..] == [];
    }
    if text != [] {
      assert text[1..] == [];
    }
    assert (thinking + text + tools)[|thinking + text|..] == tools;
  }

  lemma {:induction false} TextOfAppend<J>(a: seq<ContentBlock<J>>, b: seq<ContentBlock<J>>)
    ensures TextOf(a + b) == TextOf(a) + TextOf(b)
    ensures ThinkingOf(a + b) == ThinkingOf(a) + ThinkingOf(b)
    decreases |a|
  {
    if a == [] {
      assert a + b == b;
    } else {
      assert (a + b)[0] == a[0] && (a + b)[1..] == a[1..] + b;
      TextOfAppend(a[1..], b);
    }
  }

}
