/**
 * The streaming transcoder of index.js (`handleStream`) as a pure state
 * machine: the closure state of one request, and one function per closure or
 * loop that says how it changes that state and what it sends. `send` appends
 * to the event log `out.events`. The class in transcoder.dfy implements each of
 * these step by step and is proved against them.
 */
module StreamSpec {
  import opened Wrappers
  import opened Text
  import opened Events
  import opened Splitter
  import opened Frames
  import opened ObjectKeys

  /** An entry of the `toolCalls` object: `{ id, name, arguments }`. */
  datatype ToolCall = ToolCall(id: Option<string>, name: Option<string>, arguments: string)

  /** The block bookkeeping (`contentIndex`, `hasThinkingBlock`, `hasTextBlock`) and the sent events. */
  datatype Out = Out(contentIndex: nat, hasThinking: bool, hasText: bool, events: seq<Event>)

  /** All closure state of one `handleStream` call. */
  datatype State = State(out: Out, split: SplitState, toolCalls: map<nat, ToolCall>, tokens: nat)

  /** A state after handling some input, and whether the stream has been closed. */
  datatype Step = Step(state: State, closed: bool)

  const DATA_PREFIX: string := "data: "
  const DONE: string := "[DONE]"

  /** The state right after `message_start` has been sent. */
  function Start(model: string): (s: State)
    ensures s.out.events == [MessageStart(model)]
    ensures s.split == INITIAL && s.toolCalls == map[] && s.tokens == 0
    ensures s.out.contentIndex == 0 && !s.out.hasThinking && !s.out.hasText
  {
    State(Out(0, false, false, [MessageStart(model)]), INITIAL, map[], 0)
  }

  // ----- Block lifecycle: sendThinking / sendText -----

  /** What `sendThinking` sends before its delta: a thinking start unless a thinking block is open. */
  function ThinkingOpening(o: Out): seq<Event>
  {
    if o.hasThinking then [] else [BlockStart(o.contentIndex, ThinkingStart)]
  }

  /**
   * What `sendText` sends before its delta: when no text block is open, a
   * stop for an open thinking block (the index then moves on) and a text start.
   */
  function TextOpening(o: Out): seq<Event>
  {
    if o.hasText then []
    else if o.hasThinking then [BlockStop(o.contentIndex), BlockStart(o.contentIndex + 1, TextStart)]
    else [BlockStart(o.contentIndex, TextStart)]
  }

  /**
   * `sendThinking`: nothing for empty text; otherwise a thinking
   * `content_block_start` if no thinking block is open, then the delta, both
   * at the current index.
   */
  function SendThinking(o: Out, text: string): (r: Out)
    ensures text == "" ==> r == o
    ensures text != "" ==> r.hasThinking && r.hasText == o.hasText && r.contentIndex == o.contentIndex
    ensures text != "" ==> r.events == o.events + ThinkingOpening(o) + [BlockDelta(o.contentIndex, ThinkingDelta(text))]
    ensures AppendsBlockEvents(o.events, r.events)
  {
    if text == "" then o
    else o.(events := o.events + ThinkingOpening(o) + [BlockDelta(o.contentIndex, ThinkingDelta(text))], hasThinking := true)
  }

  /** Closes the block at the current index and moves the index on. */
  function StopCurrent(o: Out): (r: Out)
    ensures r.contentIndex == o.contentIndex + 1 && r.events == o.events + [BlockStop(o.contentIndex)]
    ensures r.hasThinking == o.hasThinking && r.hasText == o.hasText
  {
    o.(events := o.events + [BlockStop(o.contentIndex)], contentIndex := o.contentIndex + 1)
  }

  /**
   * `sendText`: nothing for empty text; otherwise an open thinking block is
   * closed first (when no text block is open) and the index moves on, a text
   * block is started if none is open, and the delta follows.
   */
  function SendText(o: Out, text: string): (r: Out)
    ensures text == "" ==> r == o
    ensures text != "" ==> r.hasText && r.hasThinking == (o.hasThinking && o.hasText)
    ensures text != "" ==> r.contentIndex == o.contentIndex + (if o.hasThinking && !o.hasText then 1 else 0)
    ensures text != "" ==> r.events == o.events + TextOpening(o) + [BlockDelta(r.contentIndex, TextDelta(text))]
    ensures AppendsBlockEvents(o.events, r.events)
  {
    if text == "" then o
    else
      var index := if o.hasThinking && !o.hasText then o.contentIndex + 1 else o.contentIndex;
      Out(index, o.hasThinking && o.hasText, true, o.events + TextOpening(o) + [BlockDelta(index, TextDelta(text))])
  }

  function SendPiece(o: Out, p: Piece): Out
  {
    match p.channel
    case Thinking => SendThinking(o, p.text)
    case Visible => SendText(o, p.text)
  }

  /** The pieces handed, in order, to `sendThinking`/`sendText`. */
  function Emit(o: Out, ps: seq<Piece>): (r: Out)
    decreases |ps|
    ensures AppendsBlockEvents(o.events, r.events)
  {
    if ps == [] then o
    else
      var o1 := SendPiece(o, ps[0]);
      var r := Emit(o1, ps[1..]);
      AppendsBlockEventsTransitive(o.events, o1.events, r.events);
      r
  }

  lemma {:induction false} NoDeltaText(es: seq<Event>, ch: Channel)
    requires forall i :: 0 <= i < |es| ==> !es[i].BlockDelta?
    ensures DeltaText(es, ch) == ""
  {
    if es != [] {
      NoDeltaText(es[1..], ch);
    }
  }

  /** A delta after some non-delta events adds only its own text. */
  lemma OpenedDeltaText(events: seq<Event>, opening: seq<Event>, delta: Event, ch: Channel)
    requires forall i :: 0 <= i < |opening| ==> !opening[i].BlockDelta?
    ensures DeltaText(events + opening + [delta], ch) == DeltaText(events, ch) + DeltaTextOf(delta, ch)
  {
    OpeningDeltaText(opening, delta, ch);
    Associate(events, opening, [delta]);
    DeltaTextAppend(events, opening + [delta], ch);
  }

  lemma OpeningDeltaText(opening: seq<Event>, delta: Event, ch: Channel)
    requires forall i :: 0 <= i < |opening| ==> !opening[i].BlockDelta?
    ensures DeltaText(opening + [delta], ch) == DeltaTextOf(delta, ch)
  {
    NoDeltaText(opening, ch);
    assert DeltaText([delta], ch) == DeltaTextOf(delta, ch) + DeltaText([], ch) by {
      assert [delta][1..] == [];
    }
    DeltaTextAppend(opening, [delta], ch);
  }

  /** Each piece adds its text to the deltas of its own channel and nothing to the other. */
  lemma SendPieceDeltaText(o: Out, p: Piece, ch: Channel)
    ensures DeltaText(SendPiece(o, p).events, ch) == DeltaText(o.events, ch) + (if p.channel == ch then p.text else "")
  {
    if p.text != "" {
      match p.channel
      case Thinking =>
        OpenedDeltaText(o.events, ThinkingOpening(o), BlockDelta(o.contentIndex, ThinkingDelta(p.text)), ch);
      case Visible =>
        var r := SendText(o, p.text);
        OpenedDeltaText(o.events, TextOpening(o), BlockDelta(r.contentIndex, TextDelta(p.text)), ch);
    }
  }

  /** The delta payloads of each channel grow by exactly that channel's pieces, in order. */
  lemma {:induction false} EmitDeltaText(o: Out, ps: seq<Piece>, ch: Channel)
    ensures DeltaText(Emit(o, ps).events, ch) == DeltaText(o.events, ch) + ChannelText(ps, ch)
    decreases |ps|
  {
    if ps != [] {
      SendPieceDeltaText(o, ps[0], ch);
      EmitDeltaText(SendPiece(o, ps[0]), ps[1..], ch);
    }
  }

  lemma {:induction false} EmitAppend(o: Out, a: seq<Piece>, b: seq<Piece>)
    ensures Emit(o, a + b) == Emit(Emit(o, a), b)
    decreases |a|
  {
    if a == [] {
      assert a + b == b;
    } else {
      assert (a + b)[0] == a[0] && (a + b)[1..] == a[1..] + b;
      EmitAppend(SendPiece(o, a[0]), a[1..], b);
    }
  }

  // ----- Tag splitter: processContent / flushBuffer -----

  /**
   * `processContent`: append the text to the buffer and run the splitter loop,
   * sending what it releases.
   */
  function ProcessContent(s: State, text: string): (r: State)
    ensures Bounded(r.split)
    ensures r.toolCalls == s.toolCalls && r.tokens == s.tokens
    ensures AppendsBlockEvents(s.out.events, r.out.events)
  {
    var scanned := Scan(s.split.buffer + text, s.split.inThink);
    s.(out := Emit(s.out, scanned.pieces), split := scanned.state)
  }

  /** `flushBuffer`: send the whole buffer to the active channel and empty it. */
  function FlushBuffer(s: State): (r: State)
    ensures r.split == s.split.(buffer := "")
    ensures r.out == Emit(s.out, FlushPieces(s.split))
    ensures r.toolCalls == s.toolCalls && r.tokens == s.tokens
    ensures AppendsBlockEvents(s.out.events, r.out.events)
  {
    if s.split.buffer == "" then s
    else
      var o := if s.split.inThink then SendThinking(s.out, s.split.buffer) else SendText(s.out, s.split.buffer);
      assert Emit(o, []) == o;
      s.(out := o, split := s.split.(buffer := ""))
  }

  // ----- Tool-call aggregator -----

  /**
   * What the first delta for an upstream index sends: a stop for an open text
   * block (the index then moves on), then the `tool_use` start at
   * `contentIndex + index`.
   */
  function ToolOpening(o: Out, d: ToolDelta): seq<Event>
  {
    if o.hasText then [BlockStop(o.contentIndex), BlockStart(o.contentIndex + 1 + d.index, ToolUseStart(d.id, d.name))]
    else [BlockStart(o.contentIndex + d.index, ToolUseStart(d.id, d.name))]
  }

  lemma ToolOpeningCounts(o: Out, d: ToolDelta)
    ensures JsonFragments(ToolOpening(o, d)) == [] && ToolStartCount(ToolOpening(o, d)) == 1
    ensures forall i :: 0 <= i < |ToolOpening(o, d)| ==> ToolOpening(o, d)[i].IsBlockEvent()
  {
    var opening := ToolOpening(o, d);
    var start := opening[|opening| - 1];
    assert opening == opening[..|opening| - 1] + [start];
    assert JsonFragments([start]) == [] && ToolStartCount([start]) == 1 by {
      assert [start][1..] == [];
    }
    if o.hasText {
      assert JsonFragments([opening[0]]) == [] && ToolStartCount([opening[0]]) == 0 by {
        assert [opening[0]][1..] == [];
      }
      assert opening[..1] == [opening[0]];
    }
    JsonFragmentsAppend(opening[..|opening| - 1], [start]);
    ToolStartCountAppend(opening[..|opening| - 1], [start]);
  }

  /** Registers the call for a new upstream index and opens its block. */
  function OpenToolCall(s: State, d: ToolDelta): (r: State)
    ensures r.out.events == s.out.events + ToolOpening(s.out, d)
    ensures r.out.contentIndex == s.out.contentIndex + (if s.out.hasText then 1 else 0)
    ensures !r.out.hasText && r.out.hasThinking == s.out.hasThinking
    ensures r.toolCalls == s.toolCalls[d.index := ToolCall(d.id, d.name, "")]
    ensures r.split == s.split && r.tokens == s.tokens
  {
    var o := if s.out.hasText then StopCurrent(s.out).(hasText := false) else s.out;
    s.(out := o.(events := s.out.events + ToolOpening(s.out, d)),
       toolCalls := s.toolCalls[d.index := ToolCall(d.id, d.name, "")])
  }

  /** One entry of `delta.tool_calls`. */
  function ToolDeltaStep(s: State, d: ToolDelta): (r: State)
    ensures r.toolCalls.Keys == s.toolCalls.Keys + {d.index}
    ensures forall k :: k in s.toolCalls && k != d.index ==> r.toolCalls[k] == s.toolCalls[k]
    ensures r.toolCalls[d.index].arguments
      == (if d.index in s.toolCalls then s.toolCalls[d.index].arguments else "") + d.arguments
    ensures r.toolCalls[d.index].name
      == (if Truthy(d.name) || d.index !in s.toolCalls then d.name else s.toolCalls[d.index].name)
    ensures r.toolCalls[d.index].id == (if d.index in s.toolCalls then s.toolCalls[d.index].id else d.id)
    ensures r.split == s.split && r.tokens == s.tokens
  {
    var s1 := if d.index in s.toolCalls then s else OpenToolCall(s, d);
    var s2 := if Truthy(d.name) then s1.(toolCalls := s1.toolCalls[d.index := s1.toolCalls[d.index].(name := d.name)]) else s1;
    if d.arguments != "" then
      var call := s2.toolCalls[d.index];
      s2.(toolCalls := s2.toolCalls[d.index := call.(arguments := call.arguments + d.arguments)],
          out := s2.out.(events := s2.out.events + [BlockDelta(s2.out.contentIndex + d.index, InputJsonDelta(d.arguments))]))
    else s2
  }

  /**
   * What one tool-call entry sends: block events only, one `input_json_delta`
   * exactly when it carries arguments, and one `tool_use` start exactly when
   * its index is new.
   */
  lemma ToolDeltaStepEvents(s: State, d: ToolDelta)
    ensures var r := ToolDeltaStep(s, d);
      AppendsBlockEvents(s.out.events, r.out.events)
      && JsonFragments(r.out.events) == JsonFragments(s.out.events) + (if d.arguments != "" then [d.arguments] else [])
      && ToolStartCount(r.out.events) == ToolStartCount(s.out.events) + (if d.index in s.toolCalls then 0 else 1)
  {
    var opening, at := ToolDeltaStepSends(s, d);
    ToolOpeningCounts(s.out, d);
    ArgumentsDeltaCounts(at, d.arguments);
    AddedBlockEvents(s.out.events, opening, ArgumentsDelta(at, d.arguments));
  }

  /**
   * The block bookkeeping of one entry. A new index stops an open text block
   * (the index moves on) and leaves any thinking block open. The arguments
   * delta goes to `contentIndex + index` as it stands after the opening, so an
   * entry for a known index lands one place further on once a later new index
   * has stopped a text block.
   */
  lemma ToolDeltaStepBlocks(s: State, d: ToolDelta)
    ensures var r := ToolDeltaStep(s, d);
      r.out.contentIndex == s.out.contentIndex + (if d.index !in s.toolCalls && s.out.hasText then 1 else 0)
      && r.out.hasText == (s.out.hasText && d.index in s.toolCalls)
      && r.out.hasThinking == s.out.hasThinking
      && r.out.events == (if d.index in s.toolCalls then s.out.events else s.out.events + ToolOpening(s.out, d))
                         + ArgumentsDelta(r.out.contentIndex + d.index, d.arguments)
  {
    var opening, at := ToolDeltaStepSends(s, d);
    if d.index in s.toolCalls {
      assert s.out.events + opening == s.out.events;
    }
  }

  /** The `input_json_delta` an entry sends at `index` when it carries arguments. */
  function ArgumentsDelta(index: nat, arguments: string): seq<Event>
  {
    if arguments != "" then [BlockDelta(index, InputJsonDelta(arguments))] else []
  }

  lemma ArgumentsDeltaCounts(index: nat, arguments: string)
    ensures JsonFragments(ArgumentsDelta(index, arguments)) == (if arguments != "" then [arguments] else [])
    ensures ToolStartCount(ArgumentsDelta(index, arguments)) == 0
    ensures forall i :: 0 <= i < |ArgumentsDelta(index, arguments)| ==> ArgumentsDelta(index, arguments)[i].IsBlockEvent()
  {
    if arguments != "" {
      assert ArgumentsDelta(index, arguments)[1..] == [];
    }
  }

  /** The events of one entry: the opening for a new index, then the arguments delta. */
  lemma ToolDeltaStepSends(s: State, d: ToolDelta) returns (opening: seq<Event>, at: nat)
    ensures opening == (if d.index in s.toolCalls then [] else ToolOpening(s.out, d))
    ensures at == s.out.contentIndex + (if d.index !in s.toolCalls && s.out.hasText then 1 else 0) + d.index
    ensures var r := ToolDeltaStep(s, d);
      r.out.events == s.out.events + opening + ArgumentsDelta(at, d.arguments)
      && r.out.contentIndex + d.index == at
      && r.out.hasText == (s.out.hasText && d.index in s.toolCalls)
      && r.out.hasThinking == s.out.hasThinking
  {
    var s1 := if d.index in s.toolCalls then s else OpenToolCall(s, d);
    var s2 := if Truthy(d.name) then s1.(toolCalls := s1.toolCalls[d.index := s1.toolCalls[d.index].(name := d.name)]) else s1;
    opening := if d.index in s.toolCalls then [] else ToolOpening(s.out, d);
    at := s1.out.contentIndex + d.index;
    assert s1.out.events == s.out.events + opening;
    assert s2.out == s1.out;
  }

  /** Counting over a log extended by two runs of block events. */
  lemma AddedBlockEvents(base: seq<Event>, a: seq<Event>, b: seq<Event>)
    requires forall i :: 0 <= i < |a| ==> a[i].IsBlockEvent()
    requires forall i :: 0 <= i < |b| ==> b[i].IsBlockEvent()
    ensures AppendsBlockEvents(base, base + a + b)
    ensures JsonFragments(base + a + b) == JsonFragments(base) + JsonFragments(a) + JsonFragments(b)
    ensures ToolStartCount(base + a + b) == ToolStartCount(base) + ToolStartCount(a) + ToolStartCount(b)
  {
    assert (base + a + b)[..|base|] == base;
    JsonFragmentsAppend(base, a);
    JsonFragmentsAppend(base + a, b);
    ToolStartCountAppend(base, a);
    ToolStartCountAppend(base + a, b);
  }

  /** The upstream indices that tool-call entries name. */
  function Indices(ds: seq<ToolDelta>): set<nat>
    decreases |ds|
  {
    if ds == [] then {} else {ds[0].index} + Indices(ds[1..])
  }

  /** All entries of one `delta.tool_calls`, in order. */
  function ToolDeltas(s: State, ds: seq<ToolDelta>): (r: State)
    decreases |ds|
    ensures r.toolCalls.Keys == s.toolCalls.Keys + Indices(ds)
    ensures r.split == s.split && r.tokens == s.tokens
    ensures AppendsBlockEvents(s.out.events, r.out.events)
  {
    if ds == [] then s
    else
      var s1 := ToolDeltaStep(s, ds[0]);
      var r := ToolDeltas(s1, ds[1..]);
      ToolDeltaStepEvents(s, ds[0]);
      AppendsBlockEventsTransitive(s.out.events, s1.out.events, r.out.events);
      r
  }

  /** A frame's `tool_calls`: flush the splitter buffer, then each entry. */
  function HandleToolCalls(s: State, ds: seq<ToolDelta>): (r: State)
    ensures r.split == s.split.(buffer := "") && r.tokens == s.tokens
    ensures AppendsBlockEvents(s.out.events, r.out.events)
  {
    var f := FlushBuffer(s);
    var r := ToolDeltas(f, ds);
    AppendsBlockEventsTransitive(s.out.events, f.out.events, r.out.events);
    r
  }

  // ----- Terminal close sequence -----

  /** One `content_block_stop` per registered tool, in the order of `keys`, at `base + key`. */
  function ToolStops(keys: seq<nat>, base: nat): (r: seq<Event>)
    ensures |r| == |keys|
    ensures forall i :: 0 <= i < |r| ==> r[i] == BlockStop(base + keys[i])
  {
    seq(|keys|, i requires 0 <= i < |keys| => BlockStop(base + keys[i]))
  }

  /**
   * The first block stops of `closeStream`: an open thinking block, then an
   * open text block, each at the current index, which moves on after each.
   */
  function StopOpenBlocks(o: Out): (r: Out)
    ensures r.hasThinking == o.hasThinking && r.hasText == o.hasText
    ensures r.contentIndex == o.contentIndex + (if o.hasThinking then 1 else 0) + (if o.hasText then 1 else 0)
    ensures r.events == o.events + (if o.hasThinking then [BlockStop(o.contentIndex)] else [])
                      + (if o.hasText then [BlockStop(o.contentIndex + (if o.hasThinking then 1 else 0))] else [])
    ensures AppendsBlockEvents(o.events, r.events)
  {
    var o1 := if o.hasThinking then StopCurrent(o) else o;
    if o1.hasText then StopCurrent(o1) else o1
  }

  /**
   * `closeStream`: flush, stop the open blocks, stop every tool block at
   * `contentIndex + key` in ascending key order, then `message_delta` with the
   * reason and the last token count, and `message_stop`.
   */
  function CloseStream(s: State, reason: StopReason): (r: State)
    ensures var e := r.out.events;
      |e| >= 2 && e[|e| - 2] == MessageDelta(reason, s.tokens) && e[|e| - 1] == MessageStop
      && AppendsBlockEvents(s.out.events, e[..|e| - 2])
    ensures r.split.buffer == "" && r.toolCalls == s.toolCalls && r.tokens == s.tokens
  {
    var f := FlushBuffer(s);
    var o := StopOpenBlocks(f.out);
    var body := o.events + ToolStops(Ascending(f.toolCalls.Keys), o.contentIndex);
    AppendsBlockEventsTransitive(s.out.events, f.out.events, o.events);
    AppendsBlockEventsTransitive(s.out.events, o.events, body);
    var e := body + [MessageDelta(reason, f.tokens), MessageStop];
    assert e[..|e| - 2] == body;
    f.(out := o.(events := e))
  }

  /** The reason sent for `[DONE]`: `tool_use` exactly when a tool call was registered. */
  function DoneStopReason(s: State): (r: StopReason)
    ensures r == ToolUse <==> |s.toolCalls| > 0
    ensures r != MaxTokens
  {
    if |s.toolCalls| > 0 then ToolUse else EndTurn
  }

  // ----- Frame handling -----

  /** The content part of one `choices[0].delta`: reasoning, then content, then tool calls. */
  function HandleDelta(s: State, d: Delta): (r: State)
    ensures r.tokens == s.tokens
    ensures AppendsBlockEvents(s.out.events, r.out.events)
  {
    var s1 := if d.reasoning != "" then s.(out := SendThinking(s.out, d.reasoning)) else s;
    var s2 := if d.content != "" then ProcessContent(s1, d.content) else s1;
    var s3 := if d.toolCalls.Some? then HandleToolCalls(s2, d.toolCalls.value) else s2;
    AppendsBlockEventsTransitive(s.out.events, s1.out.events, s2.out.events);
    AppendsBlockEventsTransitive(s.out.events, s2.out.events, s3.out.events);
    s3
  }

  /**
   * One parsed chunk with a `choices[0]`: its delta, then a truthy
   * `finish_reason` closes the stream (and the frame's usage is not
   * recorded), otherwise a present usage overwrites the token count.
   */
  function HandleChoice(s: State, c: Choice, usage: Option<nat>): (r: Step)
    ensures r.closed <==> c.finish != ""
    ensures !r.closed ==> r.state.tokens == (if usage.Some? then usage.value else s.tokens)
    ensures !r.closed ==> AppendsBlockEvents(s.out.events, r.state.out.events)
    ensures r.closed ==> ClosesAfter(s.out.events, r.state.out.events)
    ensures r.closed ==> var e := r.state.out.events;
      e[|e| - 2] == MessageDelta(FinishStopReason(c.finish, |r.state.toolCalls| > 0), s.tokens)
  {
    var s3 := HandleDelta(s, c.delta);
    if c.finish != "" then
      var r := CloseStream(s3, FinishStopReason(c.finish, |s3.toolCalls| > 0));
      var e := r.out.events;
      AppendsBlockEventsTransitive(s.out.events, s3.out.events, e[..|e| - 2]);
      Step(r, true)
    else
      Step(if usage.Some? then s3.(tokens := usage.value) else s3, false)
  }

  /**
   * One complete line of the upstream body. Lines without the `data: `
   * prefix, empty payloads, payloads the parser rejects and chunks without
   * `choices[0]` change nothing; `[DONE]` closes the stream.
   */
  function HandleLine(s: State, line: string, parse: string -> Option<Frame>): (r: Step)
    ensures !StartsWith(line, DATA_PREFIX) ==> r == Step(s, false)
    ensures StartsWith(line, DATA_PREFIX) && Trim(line[6..]) == "" ==> r == Step(s, false)
    ensures StartsWith(line, DATA_PREFIX) && Trim(line[6..]) == DONE ==>
      r == Step(CloseStream(s, DoneStopReason(s)), true)
    ensures StartsWith(line, DATA_PREFIX) && Trim(line[6..]) !in {"", DONE} ==>
      match parse(Trim(line[6..]))
      case None => r == Step(s, false)
      case Some(f) => r == (if f.choice.None? then Step(s, false) else HandleChoice(s, f.choice.value, f.usage))
  {
    if !StartsWith(line, DATA_PREFIX) then Step(s, false)
    else
      var data := Trim(line[6..]);
      if data == "" then Step(s, false)
      else if data == DONE then Step(CloseStream(s, DoneStopReason(s)), true)
      else
        match parse(data)
        case None => Step(s, false)
        case Some(f) =>
          match f.choice
          case None => Step(s, false)
          case Some(c) => HandleChoice(s, c, f.usage)
  }

  /** One line either appends block events only, or closes the stream after them. */
  lemma HandleLineSteps(s: State, line: string, parse: string -> Option<Frame>)
    ensures var r := HandleLine(s, line, parse);
      if r.closed then ClosesAfter(s.out.events, r.state.out.events)
      else AppendsBlockEvents(s.out.events, r.state.out.events)
  {
    assert s.out.events[..|s.out.events|] == s.out.events;
  }

  /**
   * The complete lines of one read, in order, stopping at the line that
   * closes the stream: block events only, or block events and the close.
   */
  function HandleLines(s: State, lines: seq<string>, parse: string -> Option<Frame>): (r: Step)
    decreases |lines|
    ensures !r.closed ==> AppendsBlockEvents(s.out.events, r.state.out.events)
    ensures r.closed ==> ClosesAfter(s.out.events, r.state.out.events)
  {
    if lines == [] then
      assert s.out.events[..|s.out.events|] == s.out.events;
      Step(s, false)
    else
      var st := HandleLine(s, lines[0], parse);
      HandleLineSteps(s, lines[0], parse);
      if st.closed then st
      else
        var r := HandleLines(st.state, lines[1..], parse);
        if r.closed then
          AppendsThenCloses(s.out.events, st.state.out.events, r.state.out.events);
          r
        else
          AppendsBlockEventsTransitive(s.out.events, st.state.out.events, r.state.out.events);
          r
  }

  /**
   * The reader loop: `lineBuffer` is the carried-over partial line. Each chunk
   * is appended, split on newlines, and every complete line handled; the body
   * running out closes the stream with `end_turn` (the partial line is dropped).
   */
  function Pump(s: State, lineBuffer: string, chunks: seq<string>, parse: string -> Option<Frame>): (r: State)
    decreases |chunks|
    ensures ClosesAfter(s.out.events, r.out.events)
  {
    if chunks == [] then CloseStream(s, EndTurn)
    else
      var parts := Split(lineBuffer + chunks[0], '\n');
      var st := HandleLines(s, parts[..|parts| - 1], parse);
      if st.closed then st.state
      else
        var r := Pump(st.state, parts[|parts| - 1], chunks[1..], parse);
        AppendsThenCloses(s.out.events, st.state.out.events, r.out.events);
        r
  }

  /**
   * The whole downstream event stream for an upstream body delivered as
   * `chunks`: `message_start`, block events, `message_delta`, `message_stop`.
   */
  function Transcode(model: string, chunks: seq<string>, parse: string -> Option<Frame>): (r: seq<Event>)
    ensures ClosesAfter([MessageStart(model)], r)
  {
    Pump(Start(model), "", chunks, parse).out.events
  }
}
