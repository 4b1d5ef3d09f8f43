# Anthropic-to-OpenAI proxy core, modelled in Dafny

The proxy (`index.js`) accepts Anthropic Messages API requests and forwards
them to an OpenAI-compatible chat-completions endpoint. It translates in both
directions. This project models the three pieces of it that carry logic:

- **Request mapping** (`request.dfy`, module `RequestMapping`). This is
  `convertMessage` plus the part of `handleMessages` that builds the upstream
  payload: the system message, the message list, tools and `tool_choice`.
- **Non-streaming response reshaping** (`response.dfy`, module
  `ResponseMapping`). A chat completion becomes an Anthropic response: a
  thinking block, a text block, the tool-use blocks, the stop reason and the
  usage.
- **The streaming transcoder** (`handleStream`). It turns an upstream SSE body
  of chat-completion chunks into the Anthropic event stream (`message_start`,
  `content_block_start/delta/stop`, `message_delta`, `message_stop`). It is
  modelled twice:
  - `StreamSpec` (`stream_spec.dfy`) is a pure state-machine specification
    over a `State` value (the closure variables of `handleStream`).
  - `Transcoder.StreamTranscoder` (`transcoder.dfy`) is a class whose fields
    are those variables. Its methods (`sendThinking`, `sendText`,
    `processContent` with its `while` loop, `flushBuffer`, the tool-call
    aggregator, `closeStream`, the line reader) update the fields in place.
    Each method is proved equal to its `StreamSpec` counterpart.

The properties are proved about the specification:

- `Splitter` (`splitter.dfy`): the `<think>` tag splitter agrees with a
  character-by-character reference for every chunking of the content.
- `StreamProperties` (`stream_properties.dfy`):
  - the block lifecycle, tool-call aggregation and close sequence;
  - the framing of the event stream;
  - the line reader is independent of how the upstream body is chunked.

Supporting modules:

- `Text` (`text.dfy`): `indexOf`, `startsWith`, `split`, `join`, `trim`.
- `ObjectKeys` (`keys.dfy`): `Object.keys` order for array-index keys.
- `Events` (`events.dfy`): downstream events and stop reasons.
- `Frames` (`frames.dfy`): parsed upstream chunks.
- `Wrappers` (`wrappers.dfy`): `Option`.

The model keeps the transcoder's observable quirks as the code has them. Each
is stated as a lemma:

- Thinking that arrives while a text block is open starts a thinking block at
  the text block's own index (`ThinkingAfterTextReusesIndex`).
- A tool call that arrives while a thinking block is open (and no text block)
  starts its `tool_use` block at `contentIndex + index` without stopping the
  thinking block. For upstream index 0, that is the index the thinking block
  already has. On close, the thinking block is stopped first and the index
  moves on, so that tool block's stop is sent one index past its start
  (`ToolDuringThinkingSharesIndex`).
- A tool call's arguments are sent at `contentIndex + index` as it stands
  when they arrive, not at the index its `tool_use` block was started at. A
  new tool call that stops an open text block moves `contentIndex` on, so the
  next arguments fragment of an earlier call goes one index further on than
  before. For example: tool 0 starts at 0; content `hi` is then flushed into a
  text block at 0; tool 1 stops that text block and starts at 2; a further
  fragment of tool 0 is sent at 1 (`KnownToolMovesAfterTextStop`).
- A chunk that carries a `finish_reason` closes the stream before its `usage`
  is read, so the `message_delta` reports the token count of an earlier chunk
  (`StreamSpec.HandleChoice`).
- Inside a `<think>` span the splitter holds back the last 8 characters.
  Outside one it holds back 7. So `<think>ab` followed by `c</think>hi` sends
  a single thinking delta `abc`, not `ab` and then `c`, and keeps `hi` back as
  possible text (`TagAcrossFragments`). A reading of the tag handling as
  "send what is safe as soon as it arrives" suggests two deltas; the model
  follows the code.

## Model

| member | source | states |
|---|---|---|
| Text.IndexOf | index.js:262 | the result is -1 or a position where the pattern occurs, and the pattern occurs at no earlier position (none at all when -1) |
| Text.SplitPiecesFree | index.js:330 | no piece of `split('\n')` contains a newline |
| Text.JoinSplit | index.js:330 | joining the pieces of a split with the separator gives back the original string |
| Text.SplitJoin | index.js:330 | splitting a join of at least one separator-free piece gives back exactly those pieces |
| Text.SplitAppend | index.js:329-331 | splitting `x + y` keeps every complete line of `x`, and the last (unterminated) piece of `x` is continued by `y` (carrying the partial line across reads) |
| Text.Trim | index.js:335 | the result neither starts nor ends with JavaScript white space, and it is the slice of the input left after removing only white space at both ends |
| ObjectKeys.Ascending | index.js:307 | lists every key of the tool-call map exactly once (same count, membership in both directions), in strictly ascending numeric order |
| Events.FinishStopReason | index.js:393-396 | `tool_use` iff the finish is `tool_calls` or a tool call was seen; `max_tokens` iff the finish is `length` and there is no tool call; `end_turn` otherwise |
| Splitter.Scan | index.js:257-290 | after one `processContent` loop the retained buffer holds no complete tag of the current state, and it has at most 7 characters outside a span and 8 inside one |
| Splitter.FlushPieces | index.js:292-301 | at most one piece, whose characters are exactly the buffer, all on the channel of the current state (partner: `Splitter.FlushDemux`) |
| Splitter.Feed | index.js:257-290 | successive `processContent` calls keep the retained buffer bounded, and keep it free of complete tags |
| Splitter.ScanDemux | index.js:260-289 | one loop loses nothing: what it sends, followed by the reference applied to the retained buffer and any later text, equals the reference applied to the whole buffer and that text |
| Splitter.FeedDemux | index.js:257-290 | the same over any sequence of content fragments fed one by one |
| Splitter.FlushDemux | index.js:292-301 | flushing a settled buffer sends exactly what the reference sends for it |
| Splitter.FeedThenFlushIsDemux | index.js:257-301 | for any chunking, the tagged characters sent (fragments fed, then the final flush) equal the character-level reference on the concatenated content |
| Splitter.FragmentationIndependent | index.js:257-301 | two chunkings of the same content send the same characters on the same channels |
| Splitter.ChannelTextIndependent | index.js:257-301 | the concatenated thinking text and the concatenated visible text do not depend on the chunking |
| Splitter.PlainTextIsVisible | index.js:281-283 | content without any `<` comes out verbatim as visible text, with no thinking text |
| StreamSpec.Start | index.js:220-226 | the initial state: only `message_start` for the model has been sent, index 0, no open block, empty buffer outside a span, no tool calls, zero tokens |
| StreamSpec.SendThinking | index.js:235-242 | empty text changes nothing; otherwise a thinking start only if no thinking block is open, then the delta, both at the current index, which does not move; only block events are appended |
| StreamSpec.SendText | index.js:244-255 | empty text changes nothing; otherwise an open thinking block is stopped first when no text block is open (the index moves on by one), a text start is sent if none is open, then the delta at the new index |
| StreamSpec.StopCurrent | index.js:247 | a stop at the current index, and the index moves on by one |
| StreamSpec.Emit | index.js:264-283 | handing pieces to `sendThinking`/`sendText` only appends block events |
| StreamSpec.EmitDeltaText | index.js:235-255 | the text delivered on each channel grows by exactly the text of that channel's pieces |
| StreamSpec.ProcessContent | index.js:257-290 | leaves the buffer bounded, the tool calls and token count unchanged, and appends only block events |
| StreamSpec.FlushBuffer | index.js:292-301 | the buffer is emptied with the span state kept, what is sent is the whole buffer on the current channel, and nothing else changes |
| StreamSpec.OpenToolCall | index.js:369-379 | stops an open text block (the index moves on), sends the `tool_use` start at `contentIndex + index`, and registers the call with its id and name and empty arguments |
| StreamSpec.ToolDeltaStep | index.js:367-389 | the index becomes a key and other calls are unchanged; the arguments are extended by this entry's arguments; a truthy name replaces the name; the id is the one from the first entry |
| StreamSpec.ToolDeltaStepEvents | index.js:367-389 | one entry appends only block events: one `tool_use` start exactly when the index is new, and one `input_json_delta` exactly when its arguments are non-empty |
| StreamSpec.ToolDeltaStepBlocks | index.js:367-389 | one entry's block bookkeeping: a new index stops an open text block (the index moves on by one, `hasTextBlock` becomes false) and sends its `tool_use` opening; a known index leaves the flags and index alone; the thinking flag never changes; the `input_json_delta`, when there are arguments, is sent at the index as it stands after the opening plus the upstream index |
| StreamSpec.ToolDeltas | index.js:367-390 | the registered indices become the old ones plus the entries' indices; buffer and tokens unchanged; only block events appended |
| StreamSpec.HandleToolCalls | index.js:365-391 | flushes the buffer first (buffer empty, span state kept), keeps the token count, and appends only block events |
| StreamSpec.ToolStops | index.js:307-309 | one `content_block_stop` per key, in key order, at `contentIndex + key` |
| StreamSpec.StopOpenBlocks | index.js:305-306 | appends exactly a stop at `contentIndex` for an open thinking block, then a stop at the next index for an open text block; the index moves on by one for each |
| StreamSpec.CloseStream | index.js:303-313 | after block events only, ends with `message_delta` carrying the reason and the last recorded token count, then `message_stop`; the buffer is empty and the tool calls and tokens are kept |
| StreamSpec.DoneStopReason | index.js:338-339 | `[DONE]` gives `tool_use` iff a tool call was registered, and never `max_tokens` |
| StreamSpec.HandleLineSteps | index.js:333-352 | one line either appends block events only, or closes the stream: block events, then `message_delta` and `message_stop` |
| StreamSpec.HandleLines | index.js:333-341 | the lines of one read, in order, up to the line that closes the stream: block events only, or block events followed by the close pair (partner: `StreamProperties.HandleLinesAppend`) |
| StreamSpec.Pump | index.js:320-405 | the reader loop always ends the log with block events and then the close pair (partner: `StreamProperties.PumpIsDrive`, which says which lines it handles) |
| StreamSpec.Transcode | index.js:215-410 | a whole run is `message_start` for the model, block events, `message_delta` and `message_stop` (partners: `StreamProperties.TranscodeFraming`, `StreamProperties.ReaderChunkingIndependent`) |
| StreamSpec.HandleDelta | index.js:354-391 | a delta keeps the token count and appends only block events |
| StreamSpec.HandleChoice | index.js:351-401 | the stream closes iff the finish reason is truthy. If not, the token count becomes the chunk's usage when present and only block events are appended. If so, the log closes with `message_delta` carrying the finish's stop reason and the token count from before this chunk |
| StreamSpec.HandleLine | index.js:333-352 | a line without `data: `, an empty payload, a payload that does not parse, or a chunk without `choices[0]` changes nothing; `[DONE]` closes with the tool-dependent reason; any other chunk is handled as its choice |
| StreamProperties.FeedContentIsFeed | index.js:361-363 | feeding content fragments through `processContent` sends exactly the splitter's pieces and leaves its state; tool calls and tokens unchanged |
| StreamProperties.ContentDeltasFollowReference | index.js:257-301 | from a fresh splitter, after the flush, the concatenated `thinking_delta` and `text_delta` payloads are the two channels of the reference applied to all content |
| StreamProperties.ContentDeltasIndependent | index.js:257-301 | the concatenated thinking and text deltas are the same for every chunking of the same content |
| StreamProperties.PlainContentIsText | index.js:281-283 | content without `<` is delivered verbatim as text deltas, and adds no thinking |
| StreamProperties.EmitThinkingRun | index.js:235-242 | a run of thinking fragments, whatever blocks are open, opens a thinking block only if none is open and some fragment is non-empty, sends one delta per non-empty fragment at the current index, and leaves the index and an open text block as they were |
| StreamProperties.EmitTextRun | index.js:244-255 | a run of text fragments opens at most one text block, closing an open thinking block first, and sends one delta per non-empty fragment into it |
| StreamProperties.TextRunStep | index.js:244-255 | a text run is a first `sendText` followed by a text run |
| StreamProperties.ThinkingThenText | index.js:235-255 | thinking then text from a fresh index `i`: a thinking block at `i` with its deltas and its stop, then a text block at `i + 1` with its deltas |
| StreamProperties.ThinkingAfterTextReusesIndex | index.js:237-241 | thinking after text starts a thinking block at the index of the still-open text block |
| StreamProperties.ToolArgumentsConcatenate | index.js:382-383 | a call's arguments are the concatenation, in arrival order, of the arguments of the entries for its index |
| StreamProperties.ToolJsonFragments | index.js:382-388 | every non-empty `arguments` is forwarded as exactly one `input_json_delta`, in arrival order |
| StreamProperties.ToolStartsPerNewIndex | index.js:369-379 | the number of `tool_use` starts sent grows by exactly the number of indices not registered before |
| StreamProperties.ToolNameKept | index.js:381 | entries without a truthy name leave a registered name alone |
| StreamProperties.ToolNameIsLastTruthy | index.js:381 | the registered name is the last truthy name sent for that index |
| StreamProperties.ToolIdKept | index.js:369-374 | a registered call keeps its id, whatever later entries carry |
| StreamProperties.ToolIdIsFirst | index.js:374 | a new call takes the id of the first entry for its index |
| StreamProperties.SortedStops | index.js:307-309 | stops for an ascending listing of the keys stop each key once, at strictly increasing indices |
| StreamProperties.CloseStopsEachToolOnce | index.js:303-309 | after the open-block stops, `closeStream` sends exactly one stop per registered tool call at `contentIndex + key`, in ascending key order |
| StreamProperties.StreamingThenClose | index.js:310-311 | a streaming log followed by block events and the close pair is a finished log |
| StreamProperties.HandleLineFraming | index.js:333-401 | one line keeps a streaming log streaming, or finishes it when it closes |
| StreamProperties.PumpFraming | index.js:325-405 | the reader loop always ends with a finished log |
| StreamProperties.TranscodeFraming | index.js:303-405 | every run sends `message_start` for the model first, then only block events, and ends with exactly one `message_delta` and one `message_stop` |
| StreamProperties.CompleteLinesFree | index.js:330-331 | no line the reader handles contains a newline |
| StreamProperties.HandleLinesAppend | index.js:333-341 | handling `a + b` is handling `a` and then, unless that closed the stream, `b` |
| StreamProperties.CompleteLinesAppend | index.js:329-331 | the complete lines of `t + rest` are those of `t`, then those of `t`'s unterminated tail continued by `rest` |
| StreamProperties.PumpIsDrive | index.js:325-405 | the chunked reader handles exactly the complete lines of the whole body, in order, then closes with `end_turn` unless a line closed the stream |
| StreamProperties.ReaderChunkingIndependent | index.js:325-331 | the downstream events depend on the upstream body only, not on how it was split into reads |
| StreamProperties.UnterminatedLineIgnored | index.js:331 | text after the last newline of the body is never handled |
| StreamProperties.EndOfBodyStopsWithEndTurn | index.js:405 | a body that runs out without a closing line closes with `end_turn` and the last recorded token count |
| StreamProperties.TagAcrossFragments | index.js:257-290 | `<think>ab` then `c</think>hi` sends nothing for the first fragment, then one thinking block with the single delta `abc`, and holds `hi` back outside a span |
| StreamProperties.OpenTagHeld | index.js:275-287 | `<think>ab` consumes the tag, sends nothing, and holds `ab` inside the span |
| StreamProperties.ToolDuringThinkingSharesIndex | index.js:365-379 | reasoning then a tool call at index 0 with a `tool_calls` finish: the tool block starts at 0 (the thinking block's index), the thinking block stops at 0 and the tool block at 1, and the reason is `tool_use` |
| StreamProperties.KnownToolArguments | index.js:380-388 | an entry with arguments for a known index sends only its `input_json_delta`, at `contentIndex + index`, and changes no block flag or index |
| StreamProperties.NewToolStopsText | index.js:367-379 | a new index while a text block is open sends the text stop and the `tool_use` start at `contentIndex + 1 + index`, closes the text block and keeps the thinking flag |
| StreamProperties.KnownToolMovesAfterTextStop | index.js:366-389 | with a text block open, the entries [new call, known call with arguments] send the text stop, the new `tool_use` start, and the known call's delta at `contentIndex + 1 + index`: one past where the same delta would have gone before the new call |
| StreamProperties.ChoiceWithoutFinish | index.js:393-401 | a chunk without a finish reason and without usage is just its delta, and the stream stays open |
| StreamProperties.ChoiceWithFinish | index.js:393-398 | a chunk with a finish reason is its delta followed by `closeStream` with the finish's reason |
| Transcoder.StreamTranscoder.constructor | index.js:220-226 | the fields start as `StreamSpec.Start`, with `message_start` sent |
| Transcoder.StreamTranscoder.Send | index.js:231-233 | appends one event, and nothing else changes |
| Transcoder.StreamTranscoder.SendThinking | index.js:235-242 | updates the fields exactly as `StreamSpec.SendThinking` |
| Transcoder.StreamTranscoder.SendText | index.js:244-255 | updates the fields exactly as `StreamSpec.SendText` |
| Transcoder.StreamTranscoder.ProcessContent | index.js:257-290 | the in-place splitter loop leaves the fields exactly as `StreamSpec.ProcessContent` |
| Transcoder.StreamTranscoder.FlushBuffer | index.js:292-301 | updates the fields exactly as `StreamSpec.FlushBuffer` |
| Transcoder.StreamTranscoder.OpenToolCall | index.js:369-379 | updates the fields exactly as `StreamSpec.OpenToolCall` |
| Transcoder.StreamTranscoder.ApplyToolDelta | index.js:367-389 | updates the fields exactly as `StreamSpec.ToolDeltaStep` |
| Transcoder.StreamTranscoder.HandleToolCalls | index.js:365-391 | the flush and the loop over the entries update the fields exactly as `StreamSpec.HandleToolCalls` |
| Transcoder.StreamTranscoder.StopOpenBlocks | index.js:305-306 | updates the fields exactly as `StreamSpec.StopOpenBlocks` |
| Transcoder.StreamTranscoder.StopToolBlocks | index.js:307-309 | appends the stops `StreamSpec.ToolStops` gives for the keys at the current index, and nothing else changes |
| Transcoder.StreamTranscoder.CloseStream | index.js:303-313 | updates the fields exactly as `StreamSpec.CloseStream` |
| Transcoder.StreamTranscoder.HandleDelta | index.js:354-391 | updates the fields exactly as `StreamSpec.HandleDelta` |
| Transcoder.StreamTranscoder.HandleChoice | index.js:351-401 | state and "stream closed" result exactly as `StreamSpec.HandleChoice` |
| Transcoder.StreamTranscoder.HandleLine | index.js:333-352 | state and "stream closed" result exactly as `StreamSpec.HandleLine` |
| Transcoder.StreamTranscoder.HandleLines | index.js:333-341 | the loop over the lines of one read stops at the line that closes; state and result exactly as `StreamSpec.HandleLines` |
| Transcoder.StreamTranscoder.Run | index.js:320-405 | the reader loop with its carried-over partial line leaves the fields exactly as `StreamSpec.Pump` |
| Transcoder.HandleStream | index.js:215-410 | the events a whole run sends are `StreamSpec.Transcode` of the body, so every `StreamProperties` theorem about `Transcode` holds of them |
| RequestMapping.ParseDataUrl | index.js:192 | a URL it accepts is rebuilt exactly by the data-URL template |
| RequestMapping.DataUrlRoundTrip | index.js:192 | an image source whose media type has no `;` is read back unchanged from its data URL |
| RequestMapping.ResultItemsSplitBack | index.js:183-185 | array tool-result content is the items joined with newlines, so items without newlines are recovered by splitting it |
| RequestMapping.CollectSortsBlocks | index.js:163-194 | the block loop puts text and image blocks into the parts, tool uses into the calls, and tool results into the results, each in block order; unknown blocks are dropped |
| RequestMapping.ResultsOfEmpty | index.js:196 | there are no tool-result messages iff the message has no tool-result block |
| RequestMapping.ToolResultsReplaceMessage | index.js:196-198 | a message becomes several messages iff it holds a tool result, and then it is exactly its tool results, in order |
| RequestMapping.AssistantToolCalls | index.js:200-206 | an assistant message with tool uses and no tool results keeps every tool use in order; its content is the joined parts, or `null` when that is empty |
| RequestMapping.TextPartsJoin | index.js:208-209 | without images every part is text, and joining the parts concatenates the texts |
| RequestMapping.TextMessageJoins | index.js:208-210 | a message of text blocks becomes one message whose content is its texts concatenated |
| RequestMapping.ImageMessageKeepsParts | index.js:212 | a message with an image keeps its text and image parts as an array, in order |
| RequestMapping.SystemMessages | index.js:53-58 | at most one `system` message, and none exactly when `system` is absent or the empty string |
| RequestMapping.ChatMessages | index.js:53-66 | the system message, when there is one, comes first (partners: `RequestMapping.ChatMessagesInOrder`, `RequestMapping.NoMessageDropped`) |
| RequestMapping.FlattenAppend | index.js:59-66 | pushing the conversions of `a + b` gives what `a` pushes followed by what `b` pushes |
| RequestMapping.ChatMessagesInOrder | index.js:53-66 | without request messages the array is just the system message; appending a request message appends exactly what its conversion pushes (the message itself, or every element of an array), so the array is the conversions in request order |
| RequestMapping.NoMessageDropped | index.js:59-66 | a count: the payload has at least one message per request message, plus the system message when there is one (their contents and order: `RequestMapping.ChatMessagesInOrder`) |
| RequestMapping.MapTools | index.js:78-86 | one `function` tool per tool, in order, with its name, description and input schema as parameters |
| RequestMapping.MapToolChoice | index.js:88-96 | only with tools: `auto` iff `'auto'`, `any` iff `'required'`, `tool` iff a named function with that name; any other type is dropped |
| RequestMapping.BuildPayload | index.js:68-97 | model, `max_tokens`, stream flag, temperature, `top_p` and stop sequences pass through; `tools` is `MapTools` of the tools iff there are any; `tool_choice` is `MapToolChoice` (so only with tools and a requested choice); `messages` is `ChatMessages`, at least one per request message, with a non-empty system prompt (a string, or block texts joined with newlines) first |
| ResponseMapping.ToolBlocks | index.js:126-135 | succeeds iff every call's arguments parse, and then gives one `tool_use` block per call, in order, with its id, name and parsed input |
| ResponseMapping.Reshape | index.js:112-153 | succeeds iff there is a `choices[0]`, usage, and every tool call parses. Id, model and token counts are carried over. Stop reason: `tool_use` iff the finish is `tool_calls` or there are tool calls, and `max_tokens` iff the finish is `length` without tool calls. Thinking comes first, then text; an empty message gives one empty text block |
| ResponseMapping.ReshapeKeepsMessage | index.js:116-135 | the response's thinking is the reasoning, its text is the content, and its last blocks are the tool uses of the calls in order |
| ResponseMapping.LayoutReadsBack | index.js:116-135 | reasoning, content and tool blocks can each be read back from the laid-out content |

## Left out

- HTTP routing, CORS, authentication, `/v1/models`, the `fetch` call and upstream HTTP errors are not modelled. They are outside the translation logic.
- `JSON.parse` is a parameter (`parse`) that fails with `None`. `JSON.stringify` is modelled as opaque strings, which covers tool inputs, input schemas, non-text tool-result items and the SSE `data:` payloads.
- The message id `msg_${Date.now()}` is left out because it comes from the clock.
- `TextEncoder`/`TextDecoder` are left out. Upstream reads are already-decoded strings, and a multi-byte character split across two reads is not modelled.
- Strings are sequences of Dafny `char`. JavaScript counts UTF-16 code units, so `slice(-8)` cutting a surrogate pair is not modelled.
- The async writer, the `TransformStream` and the unawaited `closeStream` calls at index.js:339 and 397 are modelled as appends to an event log, in program order.
- The `catch` path (index.js:406-409) is not modelled. It closes the writer without `message_stop` when a handler throws. Malformed JSON lines are modelled: they are skipped.
- A tool-call `index` is a natural number. A missing, negative or non-numeric index (which would make `contentIndex + idx` a string) is not modelled.
- ObjectKeys.Ascending: models the `Object.keys` order of array-index keys only, that is integers below 2^32 − 1. JavaScript lists an integer key of 2^32 − 1 or more after the array-index keys, in insertion order, so for tool-call indices that large the stop order in `closeStream` (index.js:307-309) is not modelled.
- ResponseMapping.Reshape: `None` stands for the handler throwing. index.js:112-153 reads `choices[0]`, `usage` and `JSON.parse` without guards, so the error response the runtime would then produce is not modelled.
- RequestMapping.BuildPayload: `temperature` and `top_p` are `Option<real>`. index.js:74-75 copies any value other than `undefined`, including `null`, and a `null` value is not modelled.
- Usage is `completion_tokens` as a natural number when `usage` is present. A `usage` object without `completion_tokens` (which would make `tokens` undefined) is not modelled.
- Upstream text fields are strings, with absent fields as `""`. Non-string `content`, `reasoning_content` or `arguments`, and a truthy non-string `finish_reason`, are not modelled.
- Request content that is neither a string nor an array, and image blocks without `source`, are not modelled; the proxy would throw on them.
- `console.error` logging is not modelled.
- RequestMapping.ParseDataUrl: is only a reader used to state the round trip. The proxy never parses data URLs.
- RequestMapping.DataUrlRoundTrip: holds only for media types without `;`. A media type containing `;base64,` cannot be read back unambiguously.
- RequestMapping.ResultItemsSplitBack: holds only when no item contains a newline. With a newline inside an item, the join in index.js:184 cannot be undone.
- RequestMapping.ConvertMessage: carries no contract of its own. Its cases are stated by `ToolResultsReplaceMessage`, `AssistantToolCalls`, `TextMessageJoins` and `ImageMessageKeepsParts`. A string content is passed through unchanged, by definition.
