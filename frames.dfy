/**
 * The upstream (OpenAI chat-completions) stream chunk after JSON parsing,
 * as a tagged value with every field optional. Text fields that are only
 * tested for truthiness use "" for "absent or null".
 */
module Frames {
  import opened Wrappers

  /** One entry of `delta.tool_calls`. */
  datatype ToolDelta = ToolDelta(
    index: nat,               // upstream position of the tool call
    id: Option<string>,
    name: Option<string>,     // `function.name`
    arguments: string)        // `function.arguments`, "" when absent

  /** `choices[0].delta`; an absent delta is the all-empty one. */
  datatype Delta = Delta(
    content: string,
    reasoning: string,        // `reasoning_content`
    toolCalls: Option<seq<ToolDelta>>)

  /** `choices[0]`: its delta and `finish_reason` ("" when absent or null). */
  datatype Choice = Choice(delta: Delta, finish: string)

  /** A parsed chunk: `choices[0]` if any, and `usage.completion_tokens` if `usage` is present. */
  datatype Frame = Frame(choice: Option<Choice>, usage: Option<nat>)

  /** JavaScript truthiness of an optional string. */
  predicate Truthy(s: Option<string>)
  {
    s.Some? && s.value != ""
  }
}
