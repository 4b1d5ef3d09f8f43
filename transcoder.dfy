/**
 * `handleStream` of index.js as the object it is: the closure variables
 * become the fields of a `StreamTranscoder`, each inner function and loop a
 * method that updates them step by step, and `send` appends to `events`.
 * Every method is proved to do what its pure counterpart in StreamSpec says,
 * so the properties proved there (stream_properties.dfy) hold of this code.
 */
module Transcoder {
  import opened Wrappers
  import opened Text
  import opened Events
  import opened Splitter
  import opened Frames
  import opened ObjectKeys
  import StreamSpec

  class StreamTranscoder {
    var tokens: nat
    var contentIndex: nat
    var hasThinkingBlock: bool
    var hasTextBlock: bool
    var inThinkTag: bool
    var contentBuffer: string
    var toolCalls: map<nat, StreamSpec.ToolCall>
    var events: seq<Event>

    /** The block bookkeeping and the sent events, as a value. */
    function Out(): StreamSpec.Out
      reads this
    {
      StreamSpec.Out(contentIndex, hasThinkingBlock, hasTextBlock, events)
    }

    /** All fields, as the state the pure specification works on. */
    function Model(): StreamSpec.State
      reads this
    {
      StreamSpec.State(Out(), SplitState(contentBuffer, inThinkTag), toolCalls, tokens)
    }

    /** The variables of a fresh `handleStream` call, after `message_start` has been sent. */
    constructor(model: string)
      ensures Model() == StreamSpec.Start(model)
    {
      tokens := 0;
      contentIndex := 0;
      hasThinkingBlock := false;
      hasTextBlock := false;
      inThinkTag := false;
      contentBuffer := "";
      toolCalls := map[];
      events := [MessageStart(model)];
    }

    /** `send`: one more event downstream. */
    method Send(e: Event)
      modifies this
      ensures Model() == old(Model()).(out := old(Out()).(events := old(events) + [e]))
    {
      events := events + [e];
    }

    method SendThinking(text: string)
      modifies this
      ensures Model() == old(Model()).(out := StreamSpec.SendThinking(old(Out()), text))
    {
      if text == "" {
        return;
      }
      if !hasThinkingBlock {
        Send(BlockStart(contentIndex, ThinkingStart));
        hasThinkingBlock := true;
      }
      Send(BlockDelta(contentIndex, ThinkingDelta(text)));
    }

    method SendText(text: string)
      modifies this
      ensures Model() == old(Model()).(out := StreamSpec.SendText(old(Out()), text))
    {
      if text == "" {
        return;
      }
      if hasThinkingBlock && !hasTextBlock {
        Send(BlockStop(contentIndex));
        contentIndex := contentIndex + 1;
        hasThinkingBlock := false;
      }
      if !hasTextBlock {
        Send(BlockStart(contentIndex, TextStart));
        hasTextBlock := true;
      }
      Send(BlockDelta(contentIndex, TextDelta(text)));
    }

    /** `processContent`: append to the buffer and release what the splitter loop can. */
    method ProcessContent(text: string)
      modifies this
      ensures Model() == StreamSpec.ProcessContent(old(Model()), text)
    {
      contentBuffer := contentBuffer + text;
      while true
        invariant ScanOnward(Model()) == StreamSpec.ProcessContent(old(Model()), text)
        decreases |contentBuffer|
      {
        ghost var before := Model();
        var buf := contentBuffer;
        if inThinkTag {
          var endIdx := IndexOf(buf, CLOSE_TAG);
          if endIdx != -1 {
            SendThinking(buf[..endIdx]);
            contentBuffer := buf[endIdx + 8..];
            inThinkTag := false;
            EmitCons(before.out, Piece(Thinking, buf[..endIdx]), Scan(buf[endIdx + 8..], false).pieces);
          } else if |buf| > 8 {
            SendThinking(buf[..|buf| - 8]);
            contentBuffer := buf[|buf| - 8..];
            EmitOne(before.out, Piece(Thinking, buf[..|buf| - 8]));
            break;
          } else {
            assert StreamSpec.Emit(before.out, []) == before.out;
            break;
          }
        } else {
          var startIdx := IndexOf(buf, OPEN_TAG);
          if startIdx != -1 {
            var preceding := buf[..startIdx];
            if preceding != "" {
              SendText(preceding);
              EmitCons(before.out, Piece(Visible, preceding), Scan(buf[startIdx + 7..], true).pieces);
            } else {
              assert [] + Scan(buf[startIdx + 7..], true).pieces == Scan(buf[startIdx + 7..], true).pieces;
            }
            contentBuffer := buf[startIdx + 7..];
            inThinkTag := true;
          } else if |buf| > 7 {
            SendText(buf[..|buf| - 7]);
            contentBuffer := buf[|buf| - 7..];
            EmitOne(before.out, Piece(Visible, buf[..|buf| - 7]));
            break;
          } else {
            assert StreamSpec.Emit(before.out, []) == before.out;
            break;
          }
        }
      }
    }

    /** `flushBuffer`: send the whole buffer to the active channel and empty it. */
    method FlushBuffer()
      modifies this
      ensures Model() == StreamSpec.FlushBuffer(old(Model()))
    {
      if contentBuffer != "" {
        if inThinkTag {
          SendThinking(contentBuffer);
        } else {
          SendText(contentBuffer);
        }
        contentBuffer := "";
      }
    }

    /** Registers a call for a new upstream index and starts its block, closing an open text block first. */
    method OpenToolCall(d: ToolDelta)
      modifies this
      ensures Model() == StreamSpec.OpenToolCall(old(Model()), d)
    {
      if hasTextBlock {
        Send(BlockStop(contentIndex));
        contentIndex := contentIndex + 1;
        hasTextBlock := false;
      }
      toolCalls := toolCalls[d.index := StreamSpec.ToolCall(d.id, d.name, "")];
      Send(BlockStart(contentIndex + d.index, ToolUseStart(d.id, d.name)));
    }

    /** One entry of `delta.tool_calls`. */
    method ApplyToolDelta(d: ToolDelta)
      modifies this
      ensures Model() == StreamSpec.ToolDeltaStep(old(Model()), d)
    {
      var idx := d.index;
      if idx !in toolCalls {
        OpenToolCall(d);
      }
      if Truthy(d.name) {
        toolCalls := toolCalls[idx := toolCalls[idx].(name := d.name)];
      }
      if d.arguments != "" {
        toolCalls := toolCalls[idx := toolCalls[idx].(arguments := toolCalls[idx].arguments + d.arguments)];
        Send(BlockDelta(contentIndex + idx, InputJsonDelta(d.arguments)));
      }
    }

    /** A frame's `tool_calls`: flush the splitter buffer, then each entry in order. */
    method HandleToolCalls(calls: seq<ToolDelta>)
      modifies this
      ensures Model() == StreamSpec.HandleToolCalls(old(Model()), calls)
    {
      FlushBuffer();
      for i := 0 to |calls|
        invariant StreamSpec.ToolDeltas(Model(), calls[i..]) == StreamSpec.HandleToolCalls(old(Model()), calls)
      {
        assert calls[i..][0] == calls[i] && calls[i..][1..] == calls[i + 1..];
        ApplyToolDelta(calls[i]);
      }
      assert calls[|calls|..] == [];
    }

    /** The first stops of `closeStream`: an open thinking block, then an open text block. */
    method StopOpenBlocks()
      modifies this
      ensures Model() == old(Model()).(out := StreamSpec.StopOpenBlocks(old(Out())))
    {
      if hasThinkingBlock {
        Send(BlockStop(contentIndex));
        contentIndex := contentIndex + 1;
      }
      if hasTextBlock {
        Send(BlockStop(contentIndex));
        contentIndex := contentIndex + 1;
      }
    }

    /** One stop per key of `keys`, in that order, at `contentIndex + key`. */
    method StopToolBlocks(keys: seq<nat>)
      modifies this
      ensures Model() == old(Model()).(out := old(Out()).(events := old(events) + StreamSpec.ToolStops(keys, contentIndex)))
    {
      for i := 0 to |keys|
        invariant Model() == old(Model()).(out := old(Out()).(events := old(events) + StreamSpec.ToolStops(keys[..i], contentIndex)))
      {
        ToolStopsExtend(keys, i, contentIndex);
        Send(BlockStop(contentIndex + keys[i]));
      }
      assert keys[..|keys|] == keys;
    }

    /**
     * `closeStream`: flush, stop the open thinking and text blocks, stop each
     * tool block, then `message_delta` and `message_stop`.
     */
    method CloseStream(reason: StopReason)
      modifies this
      ensures Model() == StreamSpec.CloseStream(old(Model()), reason)
    {
      FlushBuffer();
      StopOpenBlocks();
      StopToolBlocks(Ascending(toolCalls.Keys));  // `Object.keys(toolCalls)`
      Send(MessageDelta(reason, tokens));
      Send(MessageStop);
    }

    /** The content part of one `choices[0].delta`: reasoning, then content, then tool calls. */
    method HandleDelta(delta: Delta)
      modifies this
      ensures Model() == StreamSpec.HandleDelta(old(Model()), delta)
    {
      if delta.reasoning != "" {
        SendThinking(delta.reasoning);
      }
      if delta.content != "" {
        ProcessContent(delta.content);
      }
      if delta.toolCalls.Some? {
        HandleToolCalls(delta.toolCalls.value);
      }
    }

    /** One parsed chunk with a `choices[0]`; answers whether the stream was closed. */
    method HandleChoice(c: Choice, usage: Option<nat>) returns (closed: bool)
      modifies this
      ensures Model() == StreamSpec.HandleChoice(old(Model()), c, usage).state
      ensures closed == StreamSpec.HandleChoice(old(Model()), c, usage).closed
    {
      HandleDelta(c.delta);
      if c.finish != "" {
        var reason := EndTurn;
        if c.finish == "length" {
          reason := MaxTokens;
        }
        if c.finish == "tool_calls" || |toolCalls| > 0 {
          reason := ToolUse;
        }
        CloseStream(reason);
        return true;
      }
      if usage.Some? {
        tokens := usage.value;
      }
      return false;
    }

    /** One complete line of the upstream body; answers whether the stream was closed. */
    method HandleLine(line: string, parse: string -> Option<Frame>) returns (closed: bool)
      modifies this
      ensures Model() == StreamSpec.HandleLine(old(Model()), line, parse).state
      ensures closed == StreamSpec.HandleLine(old(Model()), line, parse).closed
    {
      if !StartsWith(line, StreamSpec.DATA_PREFIX) {
        return false;
      }
      var data := Trim(line[6..]);
      if data == "" {
        return false;
      }
      if data == StreamSpec.DONE {
        CloseStream(if |toolCalls| > 0 then ToolUse else EndTurn);
        return true;
      }
      var parsed := parse(data);
      if parsed.None? || parsed.value.choice.None? {
        return false;
      }
      closed := HandleChoice(parsed.value.choice.value, parsed.value.usage);
    }

    /** The complete lines of one read, in order, until one closes the stream. */
    method HandleLines(lines: seq<string>, parse: string -> Option<Frame>) returns (closed: bool)
      modifies this
      ensures Model() == StreamSpec.HandleLines(old(Model()), lines, parse).state
      ensures closed == StreamSpec.HandleLines(old(Model()), lines, parse).closed
    {
      for i := 0 to |lines|
        invariant StreamSpec.HandleLines(Model(), lines[i..], parse) == StreamSpec.HandleLines(old(Model()), lines, parse)
      {
        assert lines[i..][0] == lines[i] && lines[i..][1..] == lines[i + 1..];
        closed := HandleLine(lines[i], parse);
        if closed {
          return;
        }
      }
      assert lines[|lines|..] == [];
      return false;
    }

    /**
     * The reader loop: each chunk is appended to the line buffer, split on
     * newlines, and every complete line handled until one closes the stream;
     * the body running out closes it with `end_turn`.
     */
    method Run(chunks: seq<string>, parse: string -> Option<Frame>)
      modifies this
      ensures Model() == StreamSpec.Pump(old(Model()), "", chunks, parse)
    {
      var buffer := "";
      var n := 0;
      while n < |chunks|
        invariant 0 <= n <= |chunks|
        invariant StreamSpec.Pump(Model(), buffer, chunks[n..], parse) == StreamSpec.Pump(old(Model()), "", chunks, parse)
      {
        var parts := Split(buffer + chunks[n], '\n');
        assert chunks[n..][0] == chunks[n] && chunks[n..][1..] == chunks[n + 1..];
        buffer := parts[|parts| - 1];
        var closed := HandleLines(parts[..|parts| - 1], parse);
        if closed {
          return;
        }
        n := n + 1;
      }
      assert chunks[n..] == [];
      CloseStream(EndTurn);
    }
  }

  /**
   * `handleStream` from `message_start` to the end of the upstream body: the
   * events sent are exactly the transcoding the pure specification defines.
   */
  method HandleStream(model: string, chunks: seq<string>, parse: string -> Option<Frame>) returns (events: seq<Event>)
    ensures events == StreamSpec.Transcode(model, chunks, parse)
  {
    var t := new StreamTranscoder(model);
    t.Run(chunks, parse);
    events := t.events;
  }

  lemma ToolStopsExtend(keys: seq<nat>, i: nat, base: nat)
    requires i < |keys|
    ensures StreamSpec.ToolStops(keys[..i + 1], base) == StreamSpec.ToolStops(keys[..i], base) + [BlockStop(base + keys[i])]
  {
    var a := StreamSpec.ToolStops(keys[..i + 1], base);
    var b := StreamSpec.ToolStops(keys[..i], base) + [BlockStop(base + keys[i])];
    assert |a| == |b|;
    forall j | 0 <= j < |a| ensures a[j] == b[j] {
      assert keys[..i + 1][j] == keys[j];
    }
  }

  lemma EmitCons(o: StreamSpec.Out, p: Piece, ps: seq<Piece>)
    ensures StreamSpec.Emit(o, [p] + ps) == StreamSpec.Emit(StreamSpec.SendPiece(o, p), ps)
  {
    assert ([p] + ps)[1..] == ps;
  }

  lemma EmitOne(o: StreamSpec.Out, p: Piece)
    ensures StreamSpec.Emit(o, [p]) == StreamSpec.SendPiece(o, p)
  {
    EmitCons(o, p, []);
    assert [p] + [] == [p];
    assert StreamSpec.Emit(StreamSpec.SendPiece(o, p), []) == StreamSpec.SendPiece(o, p);
  }

  /** A state with its buffer run through the splitter loop and the pieces sent. */
  ghost function ScanOnward(s: StreamSpec.State): StreamSpec.State
  {
    var sc := Scan(s.split.buffer, s.split.inThink);
    s.(out := StreamSpec.Emit(s.out, sc.pieces), split := sc.state)
  }
}
