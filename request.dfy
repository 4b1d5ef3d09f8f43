/**
 * The request side of the proxy (`handleMessages` and `convertMessage` in
 * index.js): an Anthropic Messages request becomes an OpenAI
 * chat-completions payload. JSON values the proxy only passes through (a
 * tool's input, a tool's input schema, a non-text tool-result item) appear
 * in their serialised form as strings.
 */
module RequestMapping {
  import opened Wrappers
  import opened Text

  // ----- The Anthropic request -----

  /** `source` of an image block. */
  datatype ImageSource = ImageSource(mediaType: string, data: string)

  /** One item of a tool result's array content: a text item, or any other object serialised. */
  datatype ResultItem = ResultText(text: string) | ResultObject(serialized: string)

  /** A tool result's `content`: a string, an array of items, or anything else. */
  datatype ResultContent = ResultString(s: string) | ResultItems(items: seq<ResultItem>) | ResultNone

  datatype Block =
    | TextBlock(text: string)
    | ToolUseBlock(id: string, name: string, input: string)  // `input` serialised
    | ToolResultBlock(toolUseId: string, content: ResultContent)
    | ImageBlock(source: ImageSource)
    | OtherBlock(kind: string)                               // any other `type`

  /** A message's `content`: a plain string or an array of blocks. */
  datatype Content = StringContent(text: string) | Blocks(blocks: seq<Block>)

  datatype Message = Message(role: string, content: Content)

  /** `system`: absent, a string, or an array of blocks (only their `text` is used). */
  datatype System = NoSystem | SystemText(text: string) | SystemBlocks(texts: seq<string>)

  datatype Tool = Tool(name: string, description: Option<string>, inputSchema: string)

  /** `tool_choice`: its `type` and, for a `tool` choice, the tool `name`. */
  datatype ToolChoice = ToolChoice(kind: string, name: string)

  datatype Request = Request(
    model: string,
    system: System,
    messages: seq<Message>,
    maxTokens: Option<int>,
    stream: bool,                         // truthiness of `stream`
    temperature: Option<real>,
    topP: Option<real>,
    stopSequences: Option<seq<string>>,
    tools: seq<Tool>,                     // [] when absent
    toolChoice: Option<ToolChoice>)

  // ----- The OpenAI payload -----

  /** An element of `textParts`: a text string or an `image_url` object. */
  datatype Part = TextPart(text: string) | ImagePart(url: string)

  /** An entry of an assistant message's `tool_calls` (`type: 'function'`). */
  datatype FunctionCall = FunctionCall(id: string, name: string, arguments: string)

  datatype ChatMessage =
    | ChatText(role: string, text: string)                          // `content` a string
    | ChatParts(role: string, parts: seq<Part>)                     // `content` an array
    | ChatToolCalls(content: Option<string>, calls: seq<FunctionCall>) // assistant, `content` null when None
    | ChatToolResult(toolCallId: string, text: string)              // role `tool`

  /** What `convertMessage` returns: one message or an array of them. */
  datatype Converted = Single(message: ChatMessage) | Many(messages: seq<ChatMessage>)

  datatype FunctionTool = FunctionTool(name: string, description: Option<string>, parameters: string)

  /** `tool_choice` in the payload: `'auto'`, `'required'` or a named function. */
  datatype UpstreamChoice = ChoiceAuto | ChoiceRequired | ChoiceFunction(name: string)

  datatype Payload = Payload(
    model: string,
    messages: seq<ChatMessage>,
    maxTokens: Option<int>,
    stream: bool,
    temperature: Option<real>,
    topP: Option<real>,
    stop: Option<seq<string>>,
    tools: Option<seq<FunctionTool>>,
    toolChoice: Option<UpstreamChoice>)

  // ----- Images as data URLs -----

  const DATA_SCHEME: string := "data:"
  const BASE64_MARK: string := ";base64,"

  /** The `url` of the `image_url` part an image block becomes. */
  function DataUrl(src: ImageSource): string
  {
    DATA_SCHEME + src.mediaType + BASE64_MARK + src.data
  }

  /** Reads a data URL back into media type and data. */
  function ParseDataUrl(url: string): (r: Option<ImageSource>)
    ensures r.Some? ==> DataUrl(r.value) == url
  {
    if !StartsWith(url, DATA_SCHEME) then None
    else
      var rest := url[|DATA_SCHEME|..];
      var k := IndexOf(rest, BASE64_MARK);
      if k == -1 then None
      else
        DataUrlParts(url, k);
        Some(ImageSource(rest[..k], rest[k + |BASE64_MARK|..]))
  }

  /** A URL with the scheme, and the mark at `k` after it, is the data URL of the parts around the mark. */
  lemma DataUrlParts(url: string, k: nat)
    requires StartsWith(url, DATA_SCHEME) && OccursAt(url[|DATA_SCHEME|..], k, BASE64_MARK)
    ensures var rest := url[|DATA_SCHEME|..];
      DataUrl(ImageSource(rest[..k], rest[k + |BASE64_MARK|..])) == url
  {
    Reassemble(url, DATA_SCHEME, BASE64_MARK, k);
  }

  /** A string that starts with `pre` and has `mark` at `k` after it is rebuilt from the pieces around them. */
  lemma Reassemble(s: string, pre: string, mark: string, k: nat)
    requires |pre| <= |s| && s[..|pre|] == pre
    requires k + |mark| <= |s| - |pre| && s[|pre|..][k..k + |mark|] == mark
    ensures var rest := s[|pre|..]; pre + rest[..k] + mark + rest[k + |mark|..] == s
  {
    var rest := s[|pre|..];
    assert s == s[..|pre|] + rest;
    assert rest == rest[..k] + rest[k..k + |mark|] + rest[k + |mark|..];
  }

  /** A media type without `;` survives the trip through a data URL. */
  lemma DataUrlRoundTrip(src: ImageSource)
    requires ';' !in src.mediaType
    ensures ParseDataUrl(DataUrl(src)) == Some(src)
  {
    var url := DataUrl(src);
    var rest := src.mediaType + BASE64_MARK + src.data;
    assert url[..5] == "data:" && url[5..] == rest;
    forall j | 0 <= j < |src.mediaType| ensures !OccursAt(rest, j, BASE64_MARK) {
      assert rest[j] == src.mediaType[j] != ';';
      assert j + 8 <= |rest| ==> rest[j..j + 8][0] == rest[j];
    }
    assert rest[|src.mediaType|..|src.mediaType| + 8] == BASE64_MARK;
    assert OccursAt(rest, |src.mediaType|, BASE64_MARK);
    var k := IndexOf(rest, BASE64_MARK);
    assert k != -1 && !(k < |src.mediaType|) && !(k > |src.mediaType|);
    assert rest[..k] == src.mediaType && rest[k + 8..] == src.data;
  }

  // ----- Tool results -----

  /** What an array item of a tool result contributes: its text, or the serialised object. */
  function ItemString(item: ResultItem): string
  {
    match item
    case ResultText(t) => t
    case ResultObject(j) => j
  }

  /** The `content` string a tool result block becomes. */
  function ResultString(c: ResultContent): string
  {
    match c
    case ResultString(s) => s
    case ResultItems(items) => Join(seq(|items|, i requires 0 <= i < |items| => ItemString(items[i])), "\n")
    case ResultNone => ""
  }

  /**
   * Array content is joined with newlines, so when no item holds a newline
   * the items can be read back by splitting.
   */
  lemma ResultItemsSplitBack(items: seq<ResultItem>)
    requires |items| >= 1
    requires forall i :: 0 <= i < |items| ==> '\n' !in ItemString(items[i])
    ensures var texts := seq(|items|, i requires 0 <= i < |items| => ItemString(items[i]));
      Split(ResultString(ResultItems(items)), '\n') == texts
  {
    var texts := seq(|items|, i requires 0 <= i < |items| => ItemString(items[i]));
    assert "\n" == ['\n'];
    SplitJoin(texts, '\n');
  }

  // ----- convertMessage -----

  /** The three arrays `convertMessage` fills while walking the blocks. */
  datatype Collected = Collected(parts: seq<Part>, calls: seq<FunctionCall>, results: seq<ChatMessage>)

  /** One iteration of the block loop: where a block goes; unknown blocks are dropped. */
  function CollectBlock(acc: Collected, b: Block): Collected
  {
    match b
    case TextBlock(_) => acc.(parts := acc.parts + PartOf(b))
    case ToolUseBlock(_, _, _) => acc.(calls := acc.calls + CallOf(b))
    case ToolResultBlock(_, _) => acc.(results := acc.results + ResultOf(b))
    case ImageBlock(_) => acc.(parts := acc.parts + PartOf(b))
    case OtherBlock(_) => acc
  }

  /** The block loop over `blocks`, first block first. */
  function Collect(blocks: seq<Block>): Collected
    decreases |blocks|
  {
    if blocks == [] then Collected([], [], [])
    else CollectBlock(Collect(blocks[..|blocks| - 1]), blocks[|blocks| - 1])
  }

  /** The text and image blocks, in order, as parts. */
  function PartsOf(blocks: seq<Block>): seq<Part>
    decreases |blocks|
  {
    if blocks == [] then [] else PartOf(blocks[0]) + PartsOf(blocks[1..])
  }

  /** The part a text or image block adds to `textParts`; other blocks add none. */
  function PartOf(b: Block): seq<Part>
  {
    match b
    case TextBlock(t) => [TextPart(t)]
    case ImageBlock(src) => [ImagePart(DataUrl(src))]
    case _ => []
  }

  /** The tool-use blocks, in order, as function calls. */
  function CallsOf(blocks: seq<Block>): seq<FunctionCall>
    decreases |blocks|
  {
    if blocks == [] then [] else CallOf(blocks[0]) + CallsOf(blocks[1..])
  }

  /** The call a tool-use block adds to `toolCalls`, its input serialised; other blocks add none. */
  function CallOf(b: Block): seq<FunctionCall>
  {
    match b
    case ToolUseBlock(id, name, input) => [FunctionCall(id, name, input)]
    case _ => []
  }

  /** The tool-result blocks, in order, as `tool` messages. */
  function ResultsOf(blocks: seq<Block>): seq<ChatMessage>
    decreases |blocks|
  {
    if blocks == [] then [] else ResultOf(blocks[0]) + ResultsOf(blocks[1..])
  }

  /** The `tool` message a tool-result block adds to `toolResults`; other blocks add none. */
  function ResultOf(b: Block): seq<ChatMessage>
  {
    match b
    case ToolResultBlock(u, c) => [ChatToolResult(u, ResultString(c))]
    case _ => []
  }

  lemma {:induction false} PartsOfAppend(a: seq<Block>, b: Block)
    ensures PartsOf(a + [b]) == PartsOf(a) + PartsOf([b])
    decreases |a|
  {
    if a == [] {
      assert a + [b] == [b];
    } else {
      assert (a + [b])[0] == a[0] && (a + [b])[1..] == a[1..] + [b];
      PartsOfAppend(a[1..], b);
    }
  }

  lemma {:induction false} CallsOfAppend(a: seq<Block>, b: Block)
    ensures CallsOf(a + [b]) == CallsOf(a) + CallsOf([b])
    decreases |a|
  {
    if a == [] {
      assert a + [b] == [b];
    } else {
      assert (a + [b])[0] == a[0] && (a + [b])[1..] == a[1..] + [b];
      CallsOfAppend(a[1..], b);
    }
  }

  lemma {:induction false} ResultsOfAppend(a: seq<Block>, b: Block)
    ensures ResultsOf(a + [b]) == ResultsOf(a) + ResultsOf([b])
    decreases |a|
  {
    if a == [] {
      assert a + [b] == [b];
    } else {
      assert (a + [b])[0] == a[0] && (a + [b])[1..] == a[1..] + [b];
      ResultsOfAppend(a[1..], b);
    }
  }

  /**
   * The single loop sorts every block into exactly the list its kind
   * belongs to, keeping the order of the blocks.
   */
  lemma {:induction false} CollectSortsBlocks(blocks: seq<Block>)
    ensures Collect(blocks) == Collected(PartsOf(blocks), CallsOf(blocks), ResultsOf(blocks))
    decreases |blocks|
  {
    if blocks != [] {
      var init := blocks[..|blocks| - 1];
      var last := blocks[|blocks| - 1];
      CollectSortsBlocks(init);
      assert blocks == init + [last];
      PartsOfAppend(init, last);
      CallsOfAppend(init, last);
      ResultsOfAppend(init, last);
      CollectBlockSorts(Collect(init), last);
    }
  }

  /** One iteration extends each list by what the block contributes to it. */
  lemma CollectBlockSorts(acc: Collected, b: Block)
    ensures CollectBlock(acc, b) == Collected(acc.parts + PartsOf([b]), acc.calls + CallsOf([b]), acc.results + ResultsOf([b]))
  {
    assert [b][1..] == [];
  }

  /** How `Array.prototype.join('')` renders a part: an object becomes `[object Object]`. */
  function PartString(p: Part): string
  {
    match p
    case TextPart(t) => t
    case ImagePart(_) => "[object Object]"
  }

  function JoinParts(parts: seq<Part>): string
  {
    Concat(seq(|parts|, i requires 0 <= i < |parts| => PartString(parts[i])))
  }

  /**
   * `convertMessage`: string content passes through; otherwise any tool
   * results replace the whole message; an assistant message with tool calls
   * carries them (its text joined, `null` when empty); text-only content is
   * joined into one string; anything with an image stays an array.
   */
  function ConvertMessage(m: Message): (r: Converted)
  {
    match m.content
    case StringContent(s) => Single(ChatText(m.role, s))
    case Blocks(blocks) =>
      var c := Collect(blocks);
      if |c.results| > 0 then Many(c.results)
      else if m.role == "assistant" && |c.calls| > 0 then
        var joined := JoinParts(c.parts);
        Single(ChatToolCalls(if joined == "" then None else Some(joined), c.calls))
      else if forall i :: 0 <= i < |c.parts| ==> c.parts[i].TextPart? then Single(ChatText(m.role, JoinParts(c.parts)))
      else Single(ChatParts(m.role, c.parts))
  }

  /** Whether a block list holds a tool result. */
  predicate HasToolResult(blocks: seq<Block>)
  {
    exists i :: 0 <= i < |blocks| && blocks[i].ToolResultBlock?
  }

  lemma {:induction false} ResultsOfEmpty(blocks: seq<Block>)
    ensures ResultsOf(blocks) == [] <==> !HasToolResult(blocks)
    decreases |blocks|
  {
    if blocks != [] {
      ResultsOfEmpty(blocks[1..]);
      if HasToolResult(blocks[1..]) {
        var i :| 0 <= i < |blocks[1..]| && blocks[1..][i].ToolResultBlock?;
        assert blocks[i + 1].ToolResultBlock?;
      }
      if HasToolResult(blocks) && !blocks[0].ToolResultBlock? {
        var i :| 0 <= i < |blocks| && blocks[i].ToolResultBlock?;
        assert blocks[1..][i - 1].ToolResultBlock?;
      }
    }
  }

  /**
   * A message becomes several messages exactly when it holds a tool result:
   * then it is the tool results alone, one `tool` message per result block
   * in order, and its text, images and tool calls are dropped.
   */
  lemma ToolResultsReplaceMessage(m: Message)
    requires m.content.Blocks?
    ensures ConvertMessage(m).Many? <==> HasToolResult(m.content.blocks)
    ensures ConvertMessage(m).Many? ==> ConvertMessage(m).messages == ResultsOf(m.content.blocks)
  {
    CollectSortsBlocks(m.content.blocks);
    ResultsOfEmpty(m.content.blocks);
  }

  /**
   * An assistant message with tool uses and no tool results keeps every
   * tool use, in order, and its text is the joined parts or `null`.
   */
  lemma AssistantToolCalls(m: Message)
    requires m.role == "assistant" && m.content.Blocks?
    requires !HasToolResult(m.content.blocks) && CallsOf(m.content.blocks) != []
    ensures var joined := JoinParts(PartsOf(m.content.blocks));
      ConvertMessage(m) == Single(ChatToolCalls(if joined == "" then None else Some(joined), CallsOf(m.content.blocks)))
  {
    CollectSortsBlocks(m.content.blocks);
    ResultsOfEmpty(m.content.blocks);
  }

  /** The text blocks' texts, in order. */
  function TextsOf(blocks: seq<Block>): seq<string>
    decreases |blocks|
  {
    if blocks == [] then []
    else (if blocks[0].TextBlock? then [blocks[0].text] else []) + TextsOf(blocks[1..])
  }

  /** Whether a block list holds an image. */
  predicate HasImage(blocks: seq<Block>)
  {
    exists i :: 0 <= i < |blocks| && blocks[i].ImageBlock?
  }

  lemma {:induction false} TextPartsJoin(blocks: seq<Block>)
    requires !HasImage(blocks)
    ensures forall i :: 0 <= i < |PartsOf(blocks)| ==> PartsOf(blocks)[i].TextPart?
    ensures JoinParts(PartsOf(blocks)) == Concat(TextsOf(blocks))
    decreases |blocks|
  {
    if blocks != [] {
      forall i | 0 <= i < |blocks[1..]| ensures !blocks[1..][i].ImageBlock? {
        assert blocks[1..][i] == blocks[i + 1];
      }
      TextPartsJoin(blocks[1..]);
      assert !blocks[0].ImageBlock? by {
        if blocks[0].ImageBlock? {
          assert HasImage(blocks);
        }
      }
      var head := if blocks[0].TextBlock? then [TextPart(blocks[0].text)] else [];
      var tail := PartsOf(blocks[1..]);
      assert PartsOf(blocks) == head + tail;
      JoinPartsAppend(head, tail);
      var headText := if blocks[0].TextBlock? then [blocks[0].text] else [];
      ConcatAppend(headText, TextsOf(blocks[1..]));
      if blocks[0].TextBlock? {
        assert JoinParts(head) == blocks[0].text by {
          assert seq(1, i requires 0 <= i < 1 => PartString(head[i])) == [blocks[0].text];
        }
        assert Concat(headText) == blocks[0].text;
      } else {
        assert JoinParts(head) == "";
      }
    }
  }

  lemma JoinPartsAppend(a: seq<Part>, b: seq<Part>)
    ensures JoinParts(a + b) == JoinParts(a) + JoinParts(b)
  {
    var sa := seq(|a|, i requires 0 <= i < |a| => PartString(a[i]));
    var sb := seq(|b|, i requires 0 <= i < |b| => PartString(b[i]));
    assert seq(|a + b|, i requires 0 <= i < |a + b| => PartString((a + b)[i])) == sa + sb;
    ConcatAppend(sa, sb);
  }

  /**
   * A message of text blocks (no image, no tool result, and for the
   * assistant no tool use) becomes one message whose content is its texts
   * concatenated.
   */
  lemma TextMessageJoins(m: Message)
    requires m.content.Blocks? && !HasToolResult(m.content.blocks) && !HasImage(m.content.blocks)
    requires m.role == "assistant" ==> CallsOf(m.content.blocks) == []
    ensures ConvertMessage(m) == Single(ChatText(m.role, Concat(TextsOf(m.content.blocks))))
  {
    CollectSortsBlocks(m.content.blocks);
    ResultsOfEmpty(m.content.blocks);
    TextPartsJoin(m.content.blocks);
  }

  lemma {:induction false} ImageInParts(blocks: seq<Block>)
    requires HasImage(blocks)
    ensures exists i :: 0 <= i < |PartsOf(blocks)| && PartsOf(blocks)[i].ImagePart?
    decreases |blocks|
  {
    if blocks[0].ImageBlock? {
      assert PartsOf(blocks)[0].ImagePart?;
    } else {
      var j :| 0 <= j < |blocks| && blocks[j].ImageBlock?;
      assert blocks[1..][j - 1].ImageBlock?;
      ImageInParts(blocks[1..]);
      var k :| 0 <= k < |PartsOf(blocks[1..])| && PartsOf(blocks[1..])[k].ImagePart?;
      var head: seq<Part> := if blocks[0].TextBlock? then [TextPart(blocks[0].text)] else [];
      assert PartsOf(blocks) == head + PartsOf(blocks[1..]);
      assert PartsOf(blocks)[|head| + k].ImagePart?;
    }
  }

  /**
   * A message with an image (no tool result, and for the assistant no tool
   * use) keeps its text and image parts as an array, in order.
   */
  lemma ImageMessageKeepsParts(m: Message)
    requires m.content.Blocks? && !HasToolResult(m.content.blocks) && HasImage(m.content.blocks)
    requires m.role == "assistant" ==> CallsOf(m.content.blocks) == []
    ensures ConvertMessage(m) == Single(ChatParts(m.role, PartsOf(m.content.blocks)))
  {
    CollectSortsBlocks(m.content.blocks);
    ResultsOfEmpty(m.content.blocks);
    ImageInParts(m.content.blocks);
  }

  // ----- handleMessages -----

  /** The system message, if `system` is truthy: a string as is, blocks' texts joined with newlines. */
  function SystemMessages(s: System): (r: seq<ChatMessage>)
    ensures |r| <= 1
    ensures r == [] <==> s.NoSystem? || s == SystemText("")
    ensures r != [] ==> r[0].ChatText? && r[0].role == "system"
  {
    match s
    case NoSystem => []
    case SystemText(t) => if t == "" then [] else [ChatText("system", t)]
    case SystemBlocks(texts) => [ChatText("system", Join(texts, "\n"))]
  }

  /** What one converted message pushes: an array is spread, a single message pushed as is. */
  function Pushed(c: Converted): seq<ChatMessage>
  {
    match c
    case Single(m) => [m]
    case Many(ms) => ms
  }

  /** Each converted message, spread when it is an array. */
  function Flatten(cs: seq<Converted>): seq<ChatMessage>
    decreases |cs|
  {
    if cs == [] then [] else Pushed(cs[0]) + Flatten(cs[1..])
  }

  /** `convertMessage` of each request message, in order. */
  function Conversions(ms: seq<Message>): (r: seq<Converted>)
    ensures |r| == |ms| && forall i :: 0 <= i < |ms| ==> r[i] == ConvertMessage(ms[i])
  {
    seq(|ms|, i requires 0 <= i < |ms| => ConvertMessage(ms[i]))
  }

  /** The `messages` array of the payload. */
  function ChatMessages(req: Request): (r: seq<ChatMessage>)
    ensures |SystemMessages(req.system)| <= |r| && r[..|SystemMessages(req.system)|] == SystemMessages(req.system)
  {
    SystemMessages(req.system) + Flatten(Conversions(req.messages))
  }

  lemma {:induction false} FlattenAppend(a: seq<Converted>, b: seq<Converted>)
    ensures Flatten(a + b) == Flatten(a) + Flatten(b)
    decreases |a|
  {
    if a == [] {
      assert a + b == b;
    } else {
      assert (a + b)[1..] == a[1..] + b;
      FlattenAppend(a[1..], b);
    }
  }

  /**
   * The payload's messages are built in request order: with no request
   * messages only the system message is there, and each further request
   * message appends exactly what its conversion pushes.
   */
  lemma ChatMessagesInOrder(req: Request, m: Message)
    ensures ChatMessages(req.(messages := [])) == SystemMessages(req.system)
    ensures ChatMessages(req.(messages := req.messages + [m])) == ChatMessages(req) + Pushed(ConvertMessage(m))
  {
    var c := ConvertMessage(m);
    ConversionsAppend(req.messages, m);
    FlattenAppend(Conversions(req.messages), [c]);
    FlattenOne(c);
  }

  lemma ConversionsAppend(ms: seq<Message>, m: Message)
    ensures Conversions(ms + [m]) == Conversions(ms) + [ConvertMessage(m)]
  {
  }

  lemma FlattenOne(c: Converted)
    ensures Flatten([c]) == Pushed(c)
  {
    assert [c][1..] == [];
  }

  lemma ConvertNeverEmpty(m: Message)
    ensures ConvertMessage(m).Many? ==> |ConvertMessage(m).messages| >= 1
  {
  }

  lemma {:induction false} FlattenKeepsEach(cs: seq<Converted>)
    requires forall i :: 0 <= i < |cs| ==> (cs[i].Many? ==> |cs[i].messages| >= 1)
    ensures |Flatten(cs)| >= |cs|
    decreases |cs|
  {
    if cs != [] {
      FlattenKeepsEach(cs[1..]);
    }
  }

  /**
   * No request message is lost: the payload has at least one message per
   * request message, after the system message when there is one.
   */
  lemma NoMessageDropped(req: Request)
    ensures |ChatMessages(req)| >= |req.messages| + |SystemMessages(req.system)|
  {
    var cs := Conversions(req.messages);
    forall i | 0 <= i < |cs| ensures cs[i].Many? ==> |cs[i].messages| >= 1 {
      ConvertNeverEmpty(req.messages[i]);
    }
    FlattenKeepsEach(cs);
  }

  /** `tools`, each as a `function` tool with the input schema as parameters. */
  function MapTools(tools: seq<Tool>): (r: seq<FunctionTool>)
    ensures |r| == |tools|
    ensures forall i :: 0 <= i < |r| ==>
      r[i].name == tools[i].name && r[i].description == tools[i].description && r[i].parameters == tools[i].inputSchema
  {
    seq(|tools|, i requires 0 <= i < |tools| => FunctionTool(tools[i].name, tools[i].description, tools[i].inputSchema))
  }

  /**
   * `tool_choice`, only when there are tools: `auto` stays `'auto'`, `any`
   * becomes `'required'`, `tool` a named function; any other type is dropped.
   */
  function MapToolChoice(tools: seq<Tool>, choice: Option<ToolChoice>): (r: Option<UpstreamChoice>)
    ensures r.Some? <==> |tools| > 0 && choice.Some? && choice.value.kind in {"auto", "any", "tool"}
    ensures r == Some(ChoiceAuto) <==> |tools| > 0 && choice.Some? && choice.value.kind == "auto"
    ensures r == Some(ChoiceRequired) <==> |tools| > 0 && choice.Some? && choice.value.kind == "any"
    ensures r.Some? && r.value.ChoiceFunction? <==> |tools| > 0 && choice.Some? && choice.value.kind == "tool"
    ensures r.Some? && r.value.ChoiceFunction? ==> r.value.name == choice.value.name
  {
    if |tools| == 0 || choice.None? then None
    else if choice.value.kind == "auto" then Some(ChoiceAuto)
    else if choice.value.kind == "any" then Some(ChoiceRequired)
    else if choice.value.kind == "tool" then Some(ChoiceFunction(choice.value.name))
    else None
  }

  /** The upstream payload for a request. */
  function BuildPayload(req: Request): (r: Payload)
    ensures r.model == req.model && r.maxTokens == req.maxTokens && r.stream == req.stream
    ensures r.temperature == req.temperature && r.topP == req.topP && r.stop == req.stopSequences
    ensures r.tools.Some? <==> |req.tools| > 0
    ensures r.tools.Some? ==> |r.tools.value| == |req.tools|
    ensures r.tools == (if |req.tools| > 0 then Some(MapTools(req.tools)) else None)
    ensures r.toolChoice == MapToolChoice(req.tools, req.toolChoice)
    ensures r.messages == ChatMessages(req)
    ensures r.toolChoice.Some? ==> r.tools.Some? && req.toolChoice.Some?
    ensures |r.messages| >= |req.messages|
    ensures req.system.SystemText? && req.system.text != "" ==>
      |r.messages| >= 1 && r.messages[0] == ChatText("system", req.system.text)
    ensures req.system.SystemBlocks? ==>
      |r.messages| >= 1 && r.messages[0] == ChatText("system", Join(req.system.texts, "\n"))
  {
    NoMessageDropped(req);
    Payload(req.model, ChatMessages(req), req.maxTokens, req.stream, req.temperature, req.topP, req.stopSequences,
            if |req.tools| > 0 then Some(MapTools(req.tools)) else None,
            MapToolChoice(req.tools, req.toolChoice))
  }
}
