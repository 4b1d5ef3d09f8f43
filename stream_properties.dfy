/**
 * What the streaming transcoder guarantees over whole runs: the text deltas
 * follow the character-level tag reference for every chunking, the block
 * lifecycle, the tool-call aggregation, the event framing, the stop reasons,
 * and the independence of the line reader from how the body is chunked.
 */
module StreamProperties {
  import opened Wrappers
  import opened Text
  import opened Events
  import opened Splitter
  import opened Frames
  import opened StreamSpec
  import opened ObjectKeys

  // ----- Content deltas -----

  /** `processContent` called once per content fragment. */
  function FeedContent(s: State, chunks: seq<string>): State
    decreases |chunks|
  {
    if chunks == [] then s else FeedContent(ProcessContent(s, chunks[0]), chunks[1..])
  }

  /** Feeding fragments one by one sends exactly the splitter's pieces for them. */
  lemma {:induction false} FeedContentIsFeed(s: State, chunks: seq<string>)
    ensures FeedContent(s, chunks).out == Emit(s.out, Feed(s.split, chunks).pieces)
    ensures FeedContent(s, chunks).split == Feed(s.split, chunks).state
    ensures FeedContent(s, chunks).toolCalls == s.toolCalls && FeedContent(s, chunks).tokens == s.tokens
    decreases |chunks|
  {
    if chunks != [] {
      var first := Scan(s.split.buffer + chunks[0], s.split.inThink);
      var s1 := ProcessContent(s, chunks[0]);
      FeedContentIsFeed(s1, chunks[1..]);
      EmitAppend(s.out, first.pieces, Feed(s1.split, chunks[1..]).pieces);
    }
  }

  /**
   * For content fragments fed from the initial splitter state and then
   * flushed, the concatenated `thinking_delta` payloads and the concatenated
   * `text_delta` payloads are the two channels of the character-level
   * reference applied to the whole content.
   */
  lemma ContentDeltasFollowReference(s: State, chunks: seq<string>, ch: Channel)
    requires s.split == INITIAL
    ensures DeltaText(FlushBuffer(FeedContent(s, chunks)).out.events, ch)
      == DeltaText(s.out.events, ch) + Project(Demux(false, Concat(chunks)), ch)
  {
    FeedContentIsFeed(s, chunks);
    var f := Feed(INITIAL, chunks);
    EmitAppend(s.out, f.pieces, FlushPieces(f.state));
    EmitDeltaText(s.out, FeedAndFlush(chunks), ch);
    FeedThenFlushIsDemux(chunks);
    ChannelTextIsProjection(FeedAndFlush(chunks), ch);
  }

  /** Fragmentation independence at the event level. */
  lemma ContentDeltasIndependent(s: State, a: seq<string>, b: seq<string>, ch: Channel)
    requires s.split == INITIAL
    requires Concat(a) == Concat(b)
    ensures DeltaText(FlushBuffer(FeedContent(s, a)).out.events, ch)
      == DeltaText(FlushBuffer(FeedContent(s, b)).out.events, ch)
  {
    ContentDeltasFollowReference(s, a, ch);
    ContentDeltasFollowReference(s, b, ch);
  }

  /** Content without any `<` reaches the client verbatim as text deltas, and no thinking. */
  lemma PlainContentIsText(s: State, chunks: seq<string>)
    requires s.split == INITIAL
    requires '<' !in Concat(chunks)
    ensures DeltaText(FlushBuffer(FeedContent(s, chunks)).out.events, Visible) == DeltaText(s.out.events, Visible) + Concat(chunks)
    ensures DeltaText(FlushBuffer(FeedContent(s, chunks)).out.events, Thinking) == DeltaText(s.out.events, Thinking)
  {
    var f := FlushBuffer(FeedContent(s, chunks)).out;
    FeedContentIsFeed(s, chunks);
    EmitAppend(s.out, Feed(INITIAL, chunks).pieces, FlushPieces(Feed(INITIAL, chunks).state));
    EmitDeltaText(s.out, FeedAndFlush(chunks), Visible);
    EmitDeltaText(s.out, FeedAndFlush(chunks), Thinking);
    PlainTextIsVisible(chunks);
  }

  // ----- Block lifecycle -----

  function Pieces(ch: Channel, texts: seq<string>): (r: seq<Piece>)
    ensures |r| == |texts| && forall i :: 0 <= i < |r| ==> r[i] == Piece(ch, texts[i])
  {
    seq(|texts|, i requires 0 <= i < |texts| => Piece(ch, texts[i]))
  }

  function DeltaBodyOf(ch: Channel, text: string): DeltaBody
  {
    if ch == Thinking then ThinkingDelta(text) else TextDelta(text)
  }

  /** One delta at `index` per non-empty text, in order. */
  function Deltas(index: nat, ch: Channel, texts: seq<string>): seq<Event>
    decreases |texts|
  {
    if texts == [] then []
    else (if texts[0] == "" then [] else [BlockDelta(index, DeltaBodyOf(ch, texts[0]))]) + Deltas(index, ch, texts[1..])
  }

  /**
   * A run of thinking fragments opens one thinking block at the current
   * index, if any fragment is non-empty and none is open, and sends one delta
   * per non-empty fragment into it. An open text block is left open and the
   * index does not move.
   */
  lemma {:induction false} EmitThinkingRun(o: Out, texts: seq<string>)
    ensures var r := Emit(o, Pieces(Thinking, texts));
      r.contentIndex == o.contentIndex && r.hasText == o.hasText && r.hasThinking == (o.hasThinking || Concat(texts) != "")
      && r.events == o.events + (if Concat(texts) != "" then ThinkingOpening(o) else []) + Deltas(o.contentIndex, Thinking, texts)
    decreases |texts|
  {
    if texts != [] {
      var rest := texts[1..];
      var o1 := SendThinking(o, texts[0]);
      assert Emit(o, Pieces(Thinking, texts)) == Emit(o1, Pieces(Thinking, rest)) by {
        assert Pieces(Thinking, texts)[1..] == Pieces(Thinking, rest);
      }
      EmitThinkingRun(o1, rest);
      assert Concat(texts) == texts[0] + Concat(rest);
      if texts[0] != "" {
        var delta := BlockDelta(o.contentIndex, ThinkingDelta(texts[0]));
        assert Deltas(o.contentIndex, Thinking, texts) == [delta] + Deltas(o.contentIndex, Thinking, rest);
        Associate(o.events + ThinkingOpening(o), [delta], Deltas(o.contentIndex, Thinking, rest));
      }
    }
  }

  /**
   * `r` is what a run of text fragments leaves from `o`: one text block is
   * opened, if any fragment is non-empty, closing an open thinking block
   * first, and one delta is sent per non-empty fragment into it.
   */
  ghost predicate TextRun(o: Out, texts: seq<string>, r: Out)
  {
    var opens := Concat(texts) != "";
    r.hasText == (o.hasText || opens)
    && r.hasThinking == (o.hasThinking && (o.hasText || !opens))
    && r.contentIndex == o.contentIndex + (if opens && o.hasThinking && !o.hasText then 1 else 0)
    && r.events == o.events + (if opens then TextOpening(o) else []) + Deltas(r.contentIndex, Visible, texts)
  }

  lemma {:induction false} EmitTextRun(o: Out, texts: seq<string>)
    ensures TextRun(o, texts, Emit(o, Pieces(Visible, texts)))
    decreases |texts|
  {
    if texts != [] {
      var rest := texts[1..];
      var o1 := SendText(o, texts[0]);
      assert Emit(o, Pieces(Visible, texts)) == Emit(o1, Pieces(Visible, rest)) by {
        assert Pieces(Visible, texts)[1..] == Pieces(Visible, rest);
      }
      EmitTextRun(o1, rest);
      TextRunStep(o, texts, Emit(o1, Pieces(Visible, rest)));
    }
  }

  lemma TextRunStep(o: Out, texts: seq<string>, r: Out)
    requires texts != [] && TextRun(SendText(o, texts[0]), texts[1..], r)
    ensures TextRun(o, texts, r)
  {
    var rest := texts[1..];
    var o1 := SendText(o, texts[0]);
    assert Concat(texts) == texts[0] + Concat(rest);
    if texts[0] != "" {
      var delta := BlockDelta(o1.contentIndex, TextDelta(texts[0]));
      assert o1.hasText && TextOpening(o1) == [];
      assert r.contentIndex == o1.contentIndex;
      var later := Deltas(o1.contentIndex, Visible, rest);
      assert r.events == o1.events + later by {
        assert (if Concat(rest) != "" then TextOpening(o1) else []) == [];
      }
      assert o1.events == o.events + TextOpening(o) + [delta];
      assert Deltas(o1.contentIndex, Visible, texts) == [delta] + later;
      Associate(o.events + TextOpening(o), [delta], later);
    } else {
      assert Deltas(o.contentIndex, Visible, texts) == Deltas(o.contentIndex, Visible, rest);
    }
  }

  /**
   * Thinking followed by text, on a fresh index: a thinking block at `i`,
   * its deltas, its stop, then a text block at `i + 1` and its deltas.
   */
  lemma ThinkingThenText(o: Out, thinking: seq<string>, text: seq<string>)
    requires !o.hasThinking && !o.hasText
    requires Concat(thinking) != "" && Concat(text) != ""
    ensures var i := o.contentIndex; var r := Emit(o, Pieces(Thinking, thinking) + Pieces(Visible, text));
      r.events == o.events + [BlockStart(i, ThinkingStart)] + Deltas(i, Thinking, thinking)
                  + [BlockStop(i), BlockStart(i + 1, TextStart)] + Deltas(i + 1, Visible, text)
    ensures var r := Emit(o, Pieces(Thinking, thinking) + Pieces(Visible, text));
      r.contentIndex == o.contentIndex + 1 && r.hasText && !r.hasThinking
  {
    EmitAppend(o, Pieces(Thinking, thinking), Pieces(Visible, text));
    FreshThinkingRun(o, thinking);
    TextRunAfterThinking(Emit(o, Pieces(Thinking, thinking)), text);
  }

  lemma FreshThinkingRun(o: Out, thinking: seq<string>)
    requires !o.hasThinking && !o.hasText && Concat(thinking) != ""
    ensures Emit(o, Pieces(Thinking, thinking))
      == Out(o.contentIndex, true, false, o.events + [BlockStart(o.contentIndex, ThinkingStart)] + Deltas(o.contentIndex, Thinking, thinking))
  {
    EmitThinkingRun(o, thinking);
  }

  lemma TextRunAfterThinking(o: Out, text: seq<string>)
    requires o.hasThinking && !o.hasText && Concat(text) != ""
    ensures Emit(o, Pieces(Visible, text))
      == Out(o.contentIndex + 1, false, true,
             o.events + [BlockStop(o.contentIndex), BlockStart(o.contentIndex + 1, TextStart)] + Deltas(o.contentIndex + 1, Visible, text))
  {
    EmitTextRun(o, text);
  }

  /**
   * Thinking that arrives while a text block is open starts a thinking block
   * at the text block's own index, without closing it.
   */
  lemma ThinkingAfterTextReusesIndex(o: Out, a: string, b: string)
    requires !o.hasThinking && !o.hasText && a != "" && b != ""
    ensures var i := o.contentIndex;
      SendThinking(SendText(o, a), b).events
      == o.events + [BlockStart(i, TextStart), BlockDelta(i, TextDelta(a)), BlockStart(i, ThinkingStart), BlockDelta(i, ThinkingDelta(b))]
  {
  }

  // ----- Tool-call aggregation -----

  /** The `arguments` of the entries for upstream index `k`, in order. */
  function ArgsFor(ds: seq<ToolDelta>, k: nat): seq<string>
    decreases |ds|
  {
    if ds == [] then [] else (if ds[0].index == k then [ds[0].arguments] else []) + ArgsFor(ds[1..], k)
  }

  /** The non-empty `arguments` of all entries, in order. */
  function ArgFragments(ds: seq<ToolDelta>): seq<string>
    decreases |ds|
  {
    if ds == [] then [] else (if ds[0].arguments != "" then [ds[0].arguments] else []) + ArgFragments(ds[1..])
  }

  /** A call's arguments are the concatenation of its entries' arguments, in arrival order. */
  lemma {:induction false} ToolArgumentsConcatenate(s: State, ds: seq<ToolDelta>, k: nat)
    requires k in ToolDeltas(s, ds).toolCalls
    ensures ToolDeltas(s, ds).toolCalls[k].arguments
      == (if k in s.toolCalls then s.toolCalls[k].arguments else "") + Concat(ArgsFor(ds, k))
    decreases |ds|
  {
    if ds != [] {
      var s1 := ToolDeltaStep(s, ds[0]);
      assert ToolDeltas(s, ds) == ToolDeltas(s1, ds[1..]);
      ToolArgumentsConcatenate(s1, ds[1..], k);
      var before := if k in s.toolCalls then s.toolCalls[k].arguments else "";
      if ds[0].index == k {
        assert ArgsFor(ds, k) == [ds[0].arguments] + ArgsFor(ds[1..], k);
        ConcatAppend([ds[0].arguments], ArgsFor(ds[1..], k));
        assert Concat([ds[0].arguments]) == ds[0].arguments + Concat([]);
        Associate(before, ds[0].arguments, Concat(ArgsFor(ds[1..], k)));
      } else {
        assert ArgsFor(ds, k) == ArgsFor(ds[1..], k);
      }
    } else {
      assert Concat([]) == "";
    }
  }

  /** Every non-empty `arguments` is forwarded as one `input_json_delta`, in arrival order. */
  lemma {:induction false} ToolJsonFragments(s: State, ds: seq<ToolDelta>)
    ensures JsonFragments(ToolDeltas(s, ds).out.events) == JsonFragments(s.out.events) + ArgFragments(ds)
    decreases |ds|
  {
    if ds != [] {
      var s1 := ToolDeltaStep(s, ds[0]);
      var first: seq<string> := if ds[0].arguments != "" then [ds[0].arguments] else [];
      assert ToolDeltas(s, ds) == ToolDeltas(s1, ds[1..]);
      assert ArgFragments(ds) == first + ArgFragments(ds[1..]);
      ToolDeltaStepEvents(s, ds[0]);
      ToolJsonFragments(s1, ds[1..]);
      Associate(JsonFragments(s.out.events), first, ArgFragments(ds[1..]));
    }
  }

  lemma NewKeysStep(keys: set<nat>, later: set<nat>, x: nat)
    requires keys + {x} <= later
    ensures |later - keys| == |later - (keys + {x})| + (if x in keys then 0 else 1)
  {
    if x !in keys {
      assert later - keys == (later - (keys + {x})) + {x};
    } else {
      assert keys + {x} == keys;
    }
  }

  /** One `tool_use` block start per upstream index not seen before. */
  lemma {:induction false} ToolStartsPerNewIndex(s: State, ds: seq<ToolDelta>)
    ensures var r := ToolDeltas(s, ds);
      ToolStartCount(r.out.events) == ToolStartCount(s.out.events) + |r.toolCalls.Keys - s.toolCalls.Keys|
    decreases |ds|
  {
    if ds != [] {
      var s1 := ToolDeltaStep(s, ds[0]);
      var r := ToolDeltas(s1, ds[1..]);
      assert ToolDeltas(s, ds) == r;
      ToolDeltaStepEvents(s, ds[0]);
      ToolStartsPerNewIndex(s1, ds[1..]);
      NewKeysStep(s.toolCalls.Keys, r.toolCalls.Keys, ds[0].index);
    }
  }

  /** Entries that carry no truthy name leave a registered name alone. */
  lemma {:induction false} ToolNameKept(s: State, ds: seq<ToolDelta>, k: nat)
    requires k in s.toolCalls
    requires forall i :: 0 <= i < |ds| && ds[i].index == k ==> !Truthy(ds[i].name)
    ensures ToolDeltas(s, ds).toolCalls[k].name == s.toolCalls[k].name
    decreases |ds|
  {
    if ds != [] {
      ToolNameKept(ToolDeltaStep(s, ds[0]), ds[1..], k);
    }
  }

  /** Every entry's index is among the indices of the entries. */
  lemma {:induction false} IndexInIndices(ds: seq<ToolDelta>, j: nat)
    requires j < |ds|
    ensures ds[j].index in Indices(ds)
    decreases |ds|
  {
    if j > 0 {
      IndexInIndices(ds[1..], j - 1);
    }
  }

  /** The last truthy name sent for an index is the one kept. */
  lemma {:induction false} ToolNameIsLastTruthy(s: State, ds: seq<ToolDelta>, k: nat, j: nat)
    requires j < |ds| && ds[j].index == k && Truthy(ds[j].name)
    requires forall i :: j < i < |ds| && ds[i].index == k ==> !Truthy(ds[i].name)
    ensures k in ToolDeltas(s, ds).toolCalls
    ensures ToolDeltas(s, ds).toolCalls[k].name == ds[j].name
    decreases |ds|
  {
    IndexInIndices(ds, j);
    var s1 := ToolDeltaStep(s, ds[0]);
    if j == 0 {
      ToolNameKept(s1, ds[1..], k);
    } else {
      ToolNameIsLastTruthy(s1, ds[1..], k, j - 1);
    }
  }

  /** A registered call keeps its id whatever later entries carry. */
  lemma {:induction false} ToolIdKept(s: State, ds: seq<ToolDelta>, k: nat)
    requires k in s.toolCalls
    ensures ToolDeltas(s, ds).toolCalls[k].id == s.toolCalls[k].id
    decreases |ds|
  {
    if ds != [] {
      ToolIdKept(ToolDeltaStep(s, ds[0]), ds[1..], k);
    }
  }

  /** A new call takes the id of the first entry for its index. */
  lemma {:induction false} ToolIdIsFirst(s: State, ds: seq<ToolDelta>, k: nat, j: nat)
    requires k !in s.toolCalls
    requires j < |ds| && ds[j].index == k
    requires forall i :: 0 <= i < j ==> ds[i].index != k
    ensures k in ToolDeltas(s, ds).toolCalls
    ensures ToolDeltas(s, ds).toolCalls[k].id == ds[j].id
    decreases |ds|
  {
    IndexInIndices(ds, j);
    var s1 := ToolDeltaStep(s, ds[0]);
    if j == 0 {
      ToolIdKept(s1, ds[1..], k);
    } else {
      ToolIdIsFirst(s1, ds[1..], k, j - 1);
    }
  }

  /**
   * The stops for the keys of `keys`: as many as there are keys, each at
   * `base + key` for some key, with strictly increasing indices (so each key
   * is stopped exactly once, in ascending order).
   */
  predicate StopsEachKeyOnce(stops: seq<Event>, keys: set<nat>, base: nat)
  {
    |stops| == |keys|
    && (forall i :: 0 <= i < |stops| ==> stops[i].BlockStop? && base <= stops[i].index && stops[i].index - base in keys)
    && (forall i, j :: 0 <= i < j < |stops| ==> stops[i].index < stops[j].index)
  }

  lemma SortedStops(order: seq<nat>, keys: set<nat>, base: nat)
    requires |order| == |keys| && forall i :: 0 <= i < |order| ==> order[i] in keys
    requires forall i, j :: 0 <= i < j < |order| ==> order[i] < order[j]
    ensures StopsEachKeyOnce(ToolStops(order, base), keys, base)
  {
    var stops := ToolStops(order, base);
    forall i | 0 <= i < |stops| ensures stops[i].BlockStop? && base <= stops[i].index && stops[i].index - base in keys {
      assert stops[i] == BlockStop(base + order[i]);
    }
  }

  /**
   * After the open-block stops, `closeStream` sends exactly one stop per
   * registered tool call, at `contentIndex + key`, in ascending key order.
   */
  lemma CloseStopsEachToolOnce(s: State, reason: StopReason)
    ensures var o := StopOpenBlocks(FlushBuffer(s).out); var e := CloseStream(s, reason).out.events;
      |o.events| <= |e| - 2 && e[..|o.events|] == o.events
      && StopsEachKeyOnce(e[|o.events|..|e| - 2], s.toolCalls.Keys, o.contentIndex)
  {
    var f := FlushBuffer(s);
    var o := StopOpenBlocks(f.out);
    var order := Ascending(f.toolCalls.Keys);
    var stops := ToolStops(order, o.contentIndex);
    var tail := [MessageDelta(reason, f.tokens), MessageStop];
    assert CloseStream(s, reason).out.events == o.events + stops + tail;
    SliceMiddle(o.events, stops, tail);
    SortedStops(order, s.toolCalls.Keys, o.contentIndex);
  }

  /** Cutting `a + b + c` (with two-element `c`) back into its parts. */
  lemma SliceMiddle<T>(a: seq<T>, b: seq<T>, c: seq<T>)
    requires |c| == 2
    ensures var e := a + b + c; e[..|a|] == a && e[|a|..|e| - 2] == b
  {
  }

  // ----- Framing -----

  /** A log after `message_start` and before closing: block events only. */
  predicate Streaming(events: seq<Event>)
  {
    |events| >= 1 && events[0].MessageStart?
    && forall i :: 1 <= i < |events| ==> events[i].IsBlockEvent()
  }

  /** A closed log: `message_start`, block events, `message_delta`, `message_stop`. */
  predicate Finished(events: seq<Event>)
  {
    |events| >= 3 && events[0].MessageStart?
    && (forall i :: 1 <= i < |events| - 2 ==> events[i].IsBlockEvent())
    && events[|events| - 2].MessageDelta? && events[|events| - 1] == MessageStop
  }

  lemma StreamingThenBlocks(a: seq<Event>, b: seq<Event>)
    requires Streaming(a) && AppendsBlockEvents(a, b)
    ensures Streaming(b)
  {
    assert b[0] == b[..|a|][0];
  }

  lemma StreamingThenClose(a: seq<Event>, b: seq<Event>)
    requires Streaming(a) && ClosesAfter(a, b)
    ensures Finished(b)
  {
    var body := b[..|b| - 2];
    StreamingThenBlocks(a, body);
    assert forall i :: 1 <= i < |b| - 2 ==> b[i] == body[i];
  }

  lemma HandleLineFraming(s: State, line: string, parse: string -> Option<Frame>)
    requires Streaming(s.out.events)
    ensures var r := HandleLine(s, line, parse);
      if r.closed then Finished(r.state.out.events) else Streaming(r.state.out.events)
  {
    var r := HandleLine(s, line, parse);
    if StartsWith(line, DATA_PREFIX) {
      var data := Trim(line[6..]);
      if data == DONE {
        StreamingThenClose(s.out.events, r.state.out.events);
      } else if data != "" && parse(data).Some? && parse(data).value.choice.Some? {
        if r.closed {
          StreamingThenClose(s.out.events, r.state.out.events);
        } else {
          StreamingThenBlocks(s.out.events, r.state.out.events);
        }
      }
    }
  }

  lemma {:induction false} HandleLinesFraming(s: State, lines: seq<string>, parse: string -> Option<Frame>)
    requires Streaming(s.out.events)
    ensures var r := HandleLines(s, lines, parse);
      if r.closed then Finished(r.state.out.events) else Streaming(r.state.out.events)
    decreases |lines|
  {
    if lines != [] {
      HandleLineFraming(s, lines[0], parse);
      var st := HandleLine(s, lines[0], parse);
      if !st.closed {
        HandleLinesFraming(st.state, lines[1..], parse);
      }
    }
  }

  lemma {:induction false} PumpFraming(s: State, buf: string, chunks: seq<string>, parse: string -> Option<Frame>)
    requires Streaming(s.out.events)
    ensures Finished(Pump(s, buf, chunks, parse).out.events)
    decreases |chunks|
  {
    if chunks == [] {
      StreamingThenClose(s.out.events, CloseStream(s, EndTurn).out.events);
    } else {
      var parts := Split(buf + chunks[0], '\n');
      var st := HandleLines(s, parts[..|parts| - 1], parse);
      HandleLinesFraming(s, parts[..|parts| - 1], parse);
      if !st.closed {
        PumpFraming(st.state, parts[|parts| - 1], chunks[1..], parse);
      }
    }
  }

  /**
   * Every run sends `message_start` for the model first, then only block
   * events, and ends with exactly one `message_delta` and `message_stop`.
   */
  lemma TranscodeFraming(model: string, chunks: seq<string>, parse: string -> Option<Frame>)
    ensures var e := Transcode(model, chunks, parse);
      Finished(e) && e[0] == MessageStart(model)
  {
    var s := Start(model);
    PumpFraming(s, "", chunks, parse);
    var e := Pump(s, "", chunks, parse).out.events;
    assert e[0] == MessageStart(model) by {
      PumpKeepsPrefix(s, "", chunks, parse);
    }
  }

  lemma {:induction false} PumpKeepsPrefix(s: State, buf: string, chunks: seq<string>, parse: string -> Option<Frame>)
    requires |s.out.events| >= 1
    ensures var e := Pump(s, buf, chunks, parse).out.events; |e| >= 1 && e[0] == s.out.events[0]
    decreases |chunks|
  {
    if chunks == [] {
      var e := CloseStream(s, EndTurn).out.events;
      assert e[..|e| - 2][0] == e[0];
    } else {
      var parts := Split(buf + chunks[0], '\n');
      var st := HandleLines(s, parts[..|parts| - 1], parse);
      HandleLinesKeepPrefix(s, parts[..|parts| - 1], parse);
      if !st.closed {
        PumpKeepsPrefix(st.state, parts[|parts| - 1], chunks[1..], parse);
      }
    }
  }

  lemma {:induction false} HandleLinesKeepPrefix(s: State, lines: seq<string>, parse: string -> Option<Frame>)
    requires |s.out.events| >= 1
    ensures var e := HandleLines(s, lines, parse).state.out.events; |e| >= 1 && e[0] == s.out.events[0]
    decreases |lines|
  {
    if lines != [] {
      var st := HandleLine(s, lines[0], parse);
      HandleLineKeepsFirst(s, lines[0], parse);
      if !st.closed {
        HandleLinesKeepPrefix(st.state, lines[1..], parse);
      }
    }
  }

  lemma HandleLineKeepsFirst(s: State, line: string, parse: string -> Option<Frame>)
    requires |s.out.events| >= 1
    ensures var e := HandleLine(s, line, parse).state.out.events; |e| >= 1 && e[0] == s.out.events[0]
  {
    var r := HandleLine(s, line, parse);
    if StartsWith(line, DATA_PREFIX) {
      var data := Trim(line[6..]);
      if data == DONE || (data != "" && parse(data).Some? && parse(data).value.choice.Some? && r.closed) {
        ClosedKeepsFirst(s.out.events, r.state.out.events);
      } else if data != "" && parse(data).Some? && parse(data).value.choice.Some? {
        AppendedKeepsFirst(s.out.events, r.state.out.events);
      }
    }
  }

  lemma AppendedKeepsFirst(a: seq<Event>, b: seq<Event>)
    requires |a| >= 1 && AppendsBlockEvents(a, b)
    ensures |b| >= 1 && b[0] == a[0]
  {
    assert b[0] == b[..|a|][0];
  }

  lemma ClosedKeepsFirst(a: seq<Event>, b: seq<Event>)
    requires |a| >= 1 && |b| >= 2 && AppendsBlockEvents(a, b[..|b| - 2])
    ensures b[0] == a[0]
  {
    AppendedKeepsFirst(a, b[..|b| - 2]);
  }

  // ----- The line reader -----

  /** The newline-terminated lines of a body; text after the last newline is not a line. */
  function CompleteLines(body: string): seq<string>
  {
    var parts := Split(body, '\n');
    parts[..|parts| - 1]
  }

  /** No complete line holds a newline. */
  lemma CompleteLinesFree(body: string)
    ensures forall i :: 0 <= i < |CompleteLines(body)| ==> '\n' !in CompleteLines(body)[i]
  {
    SplitPiecesFree(body, '\n');
  }

  /** The lines handled in order, and the end of the body closing with `end_turn` if nothing closed before. */
  function Drive(s: State, lines: seq<string>, parse: string -> Option<Frame>): State
  {
    var st := HandleLines(s, lines, parse);
    if st.closed then st.state else CloseStream(st.state, EndTurn)
  }

  lemma {:induction false} HandleLinesAppend(s: State, a: seq<string>, b: seq<string>, parse: string -> Option<Frame>)
    ensures HandleLines(s, a + b, parse)
      == (var st := HandleLines(s, a, parse); if st.closed then st else HandleLines(st.state, b, parse))
    decreases |a|
  {
    if a == [] {
      assert a + b == b;
    } else {
      assert (a + b)[0] == a[0] && (a + b)[1..] == a[1..] + b;
      var st := HandleLine(s, a[0], parse);
      if !st.closed {
        HandleLinesAppend(st.state, a[1..], b, parse);
      }
    }
  }

  /** Driving `a + b` is handling `a`, then, unless that closed the stream, driving `b`. */
  lemma DriveAppend(s: State, a: seq<string>, b: seq<string>, parse: string -> Option<Frame>)
    ensures Drive(s, a + b, parse)
      == (var st := HandleLines(s, a, parse); if st.closed then st.state else Drive(st.state, b, parse))
  {
    HandleLinesAppend(s, a, b, parse);
  }

  /** The complete lines of `t + rest`: those of `t`, then those of its unterminated tail continued by `rest`. */
  lemma CompleteLinesAppend(t: string, rest: string)
    ensures var parts := Split(t, '\n');
      CompleteLines(t + rest) == parts[..|parts| - 1] + CompleteLines(parts[|parts| - 1] + rest)
  {
    var parts := Split(t, '\n');
    var tail := Split(parts[|parts| - 1] + rest, '\n');
    var whole := Split(t + rest, '\n');
    assert whole[..|whole| - 1] == parts[..|parts| - 1] + tail[..|tail| - 1] by {
      SplitAppend(t, rest, '\n');
      DropLastAppend(parts[..|parts| - 1], tail);
    }
    assert CompleteLines(t + rest) == whole[..|whole| - 1];
    assert CompleteLines(parts[|parts| - 1] + rest) == tail[..|tail| - 1];
  }

  lemma DropLastAppend<T>(a: seq<T>, b: seq<T>)
    requires |b| >= 1
    ensures (a + b)[..|a + b| - 1] == a + b[..|b| - 1]
  {
  }

  /** The chunked reader handles exactly the complete lines of the whole body, in order. */
  lemma {:induction false} PumpIsDrive(s: State, buf: string, chunks: seq<string>, parse: string -> Option<Frame>)
    requires '\n' !in buf
    ensures Pump(s, buf, chunks, parse) == Drive(s, CompleteLines(buf + Concat(chunks)), parse)
    decreases |chunks|
  {
    if chunks == [] {
      assert buf + Concat(chunks) == buf;
      SplitFree(buf, '\n');
    } else {
      var t := buf + chunks[0];
      var rest := Concat(chunks[1..]);
      var parts := Split(t, '\n');
      var lines := parts[..|parts| - 1];
      var last := parts[|parts| - 1];
      assert buf + Concat(chunks) == t + rest;
      SplitPiecesFree(t, '\n');
      CompleteLinesAppend(t, rest);
      var later := CompleteLines(last + rest);
      DriveAppend(s, lines, later, parse);
      var st := HandleLines(s, lines, parse);
      if !st.closed {
        PumpIsDrive(st.state, last, chunks[1..], parse);
      }
    }
  }

  /** The downstream events depend on the upstream body only, not on how it was chunked. */
  lemma ReaderChunkingIndependent(model: string, a: seq<string>, b: seq<string>, parse: string -> Option<Frame>)
    requires Concat(a) == Concat(b)
    ensures Transcode(model, a, parse) == Transcode(model, b, parse)
  {
    PumpIsDrive(Start(model), "", a, parse);
    PumpIsDrive(Start(model), "", b, parse);
    assert "" + Concat(a) == "" + Concat(b);
  }

  /** Text after the last newline of the body is never handled. */
  lemma UnterminatedLineIgnored(model: string, chunks: seq<string>, tail: string, parse: string -> Option<Frame>)
    requires '\n' !in tail
    ensures Transcode(model, chunks + [tail], parse) == Transcode(model, chunks, parse)
  {
    var body := Concat(chunks);
    PumpIsDrive(Start(model), "", chunks + [tail], parse);
    PumpIsDrive(Start(model), "", chunks, parse);
    ConcatSnoc(chunks, tail);
    assert "" + body == body;
    CompleteLinesTail(body, tail);
  }

  lemma ConcatSnoc(chunks: seq<string>, tail: string)
    ensures "" + Concat(chunks + [tail]) == Concat(chunks) + tail
  {
    ConcatAppend(chunks, [tail]);
    assert Concat([tail]) == tail + Concat([]);
  }

  lemma CompleteLinesTail(body: string, tail: string)
    requires '\n' !in tail
    ensures CompleteLines(body + tail) == CompleteLines(body)
  {
    var parts := Split(body, '\n');
    SplitPiecesFree(body, '\n');
    SplitAppend(body, tail, '\n');
    SplitFree(parts[|parts| - 1] + tail, '\n');
  }

  /** A body that ends without a closing line closes with `end_turn` and the last token count. */
  lemma EndOfBodyStopsWithEndTurn(s: State, lines: seq<string>, parse: string -> Option<Frame>)
    requires !HandleLines(s, lines, parse).closed
    ensures var st := HandleLines(s, lines, parse).state; var e := Drive(s, lines, parse).out.events;
      e[|e| - 2] == MessageDelta(EndTurn, st.tokens)
  {
  }

  // ----- A tag split across fragments -----

  lemma ScanOpenThenHold()
    ensures Scan("<think>ab", false) == ScanResult([], SplitState("ab", true))
  {
    var buf := "<think>ab";
    assert OccursAt(buf, 0, OPEN_TAG);
    assert IndexOf(buf, OPEN_TAG) == 0;
    assert buf[7..] == "ab" && buf[..0] == "";
    assert IndexOf("ab", CLOSE_TAG) == -1;
  }

  lemma ScanCloseThenHold()
    ensures Scan("abc</think>hi", true) == ScanResult([Piece(Thinking, "abc")], SplitState("hi", false))
  {
    var buf := "abc</think>hi";
    assert OccursAt(buf, 3, CLOSE_TAG);
    forall j | 0 <= j < 3 ensures !OccursAt(buf, j, CLOSE_TAG) {
      assert buf[j..j + 8][0] == buf[j] != '<' == CLOSE_TAG[0];
    }
    assert IndexOf(buf, CLOSE_TAG) == 3;
    assert buf[..3] == "abc" && buf[11..] == "hi";
    assert IndexOf("hi", OPEN_TAG) == -1;
  }

  /**
   * `<think>ab` then `c</think>hi`: the opening tag is consumed and `ab` is
   * held back (it could begin a closing tag); the second fragment releases a
   * single thinking delta `abc`, and `hi` is held back as possible text.
   */
  lemma TagAcrossFragments(model: string)
    ensures var s1 := ProcessContent(Start(model), "<think>ab");
      s1.out.events == [MessageStart(model)] && s1.split == SplitState("ab", true)
    ensures var s2 := ProcessContent(ProcessContent(Start(model), "<think>ab"), "c</think>hi");
      s2.out.events == [MessageStart(model), BlockStart(0, ThinkingStart), BlockDelta(0, ThinkingDelta("abc"))]
      && s2.split == SplitState("hi", false)
  {
    var s1 := OpenTagHeld(model);
    ScanCloseThenHold();
    FragmentsJoin();
    var o := SendThinking(s1.out, "abc");
    assert o.events == [MessageStart(model), BlockStart(0, ThinkingStart), BlockDelta(0, ThinkingDelta("abc"))];
    assert Emit(s1.out, [Piece(Thinking, "abc")]) == Emit(o, []);
  }

  lemma FragmentsJoin()
    ensures "ab" + "c</think>hi" == "abc</think>hi"
  {
    var t := "ab" + "c</think>hi";
    assert t[..2] == "ab" && t[2..] == "c</think>hi";
  }

  /** The first fragment of `TagAcrossFragments`: nothing is sent. */
  lemma OpenTagHeld(model: string) returns (s1: State)
    ensures s1 == ProcessContent(Start(model), "<think>ab")
    ensures s1.out == Start(model).out && s1.split == SplitState("ab", true)
  {
    s1 := ProcessContent(Start(model), "<think>ab");
    ScanOpenThenHold();
    assert "" + "<think>ab" == "<think>ab";
    assert Emit(Start(model).out, []) == Start(model).out;
  }

  // ----- A tool call while a thinking block is open -----

  /**
   * Reasoning, then a tool call at upstream index 0 with a `tool_calls`
   * finish: the tool block starts at index 0, the index the still-open
   * thinking block has; on close the thinking block is stopped at 0 and the
   * tool block at 1, and the reason is `tool_use`.
   */
  lemma ToolDuringThinkingSharesIndex(model: string, reasoning: string, id: Option<string>, name: Option<string>)
    requires reasoning != ""
    ensures var s1 := HandleChoice(Start(model), Choice(Delta("", reasoning, None), ""), None);
      var s2 := HandleChoice(s1.state, Choice(Delta("", "", Some([ToolDelta(0, id, name, "")])), "tool_calls"), None);
      !s1.closed && s2.closed
      && s2.state.out.events == [MessageStart(model), BlockStart(0, ThinkingStart), BlockDelta(0, ThinkingDelta(reasoning)),
                                 BlockStart(0, ToolUseStart(id, name)), BlockStop(0), BlockStop(1),
                                 MessageDelta(ToolUse, 0), MessageStop]
  {
    var s0 := Start(model);
    var c1 := Choice(Delta("", reasoning, None), "");
    var c2 := Choice(Delta("", "", Some([ToolDelta(0, id, name, "")])), "tool_calls");
    ChoiceWithoutFinish(s0, c1);
    var afterTool := ThinkingThenToolCall(model, reasoning, id, name);
    ChoiceWithFinish(HandleDelta(s0, c1.delta), c2);
    assert |afterTool.toolCalls| == 1;
    CloseAfterToolCall(afterTool, model, reasoning, id, name);
  }

  /**
   * The arguments of a known tool call are sent at `contentIndex + index` as
   * it stands when they arrive. With a text block open, a fragment for a known
   * call goes to the current index plus its upstream index
   * (`KnownToolArguments`); once a new call has stopped that text block, the
   * next fragment for the known call goes one index further on, whatever
   * index its own block was started at.
   */
  lemma KnownToolMovesAfterTextStop(s: State, opening: ToolDelta, later: ToolDelta)
    requires s.out.hasText && opening.index !in s.toolCalls && later.index in s.toolCalls
    requires opening.arguments == "" && later.arguments != ""
    ensures ToolDeltas(s, [opening, later]).out.events
      == s.out.events + [BlockStop(s.out.contentIndex),
                         BlockStart(s.out.contentIndex + 1 + opening.index, ToolUseStart(opening.id, opening.name)),
                         BlockDelta(s.out.contentIndex + 1 + later.index, InputJsonDelta(later.arguments))]
  {
    NewThenKnownTool(s, opening, later);
    TwoToolDeltas(s, opening, later);
  }

  lemma NewThenKnownTool(s: State, opening: ToolDelta, later: ToolDelta)
    requires s.out.hasText && opening.index !in s.toolCalls && later.index in s.toolCalls
    requires opening.arguments == "" && later.arguments != ""
    ensures ToolDeltaStep(ToolDeltaStep(s, opening), later).out.events
      == s.out.events + [BlockStop(s.out.contentIndex),
                         BlockStart(s.out.contentIndex + 1 + opening.index, ToolUseStart(opening.id, opening.name)),
                         BlockDelta(s.out.contentIndex + 1 + later.index, InputJsonDelta(later.arguments))]
  {
    var c := s.out.contentIndex;
    var stop, start := BlockStop(c), BlockStart(c + 1 + opening.index, ToolUseStart(opening.id, opening.name));
    var delta := BlockDelta(c + 1 + later.index, InputJsonDelta(later.arguments));
    var s1 := ToolDeltaStep(s, opening);
    NewToolStopsText(s, opening);
    KnownToolArguments(s1, later);
    AppendThird(s.out.events, s1.out.events, ToolDeltaStep(s1, later).out.events, stop, start, delta);
  }

  /** An entry with arguments for a known index sends only its delta, at `contentIndex + index`. */
  lemma KnownToolArguments(s: State, d: ToolDelta)
    requires d.index in s.toolCalls && d.arguments != ""
    ensures ToolDeltaStep(s, d).out
      == s.out.(events := s.out.events + [BlockDelta(s.out.contentIndex + d.index, InputJsonDelta(d.arguments))])
  {
    ToolDeltaStepBlocks(s, d);
  }

  /** A new index without arguments stops the open text block and starts its `tool_use` block. */
  lemma NewToolStopsText(s: State, d: ToolDelta)
    requires s.out.hasText && d.index !in s.toolCalls && d.arguments == ""
    ensures var r := ToolDeltaStep(s, d);
      r.out == Out(s.out.contentIndex + 1, s.out.hasThinking, false,
                   s.out.events + [BlockStop(s.out.contentIndex), BlockStart(s.out.contentIndex + 1 + d.index, ToolUseStart(d.id, d.name))])
      && d.index in r.toolCalls
  {
    ToolDeltaStepBlocks(s, d);
    var e := s.out.events + ToolOpening(s.out, d);
    assert e + [] == e;
  }

  lemma AppendThird(e: seq<Event>, e1: seq<Event>, e2: seq<Event>, x: Event, y: Event, z: Event)
    requires e1 == e + [x, y] && e2 == e1 + [z]
    ensures e2 == e + [x, y, z]
  {
    assert [x, y] + [z] == [x, y, z];
  }

  lemma TwoToolDeltas(s: State, a: ToolDelta, b: ToolDelta)
    ensures ToolDeltas(s, [a, b]).out == ToolDeltaStep(ToolDeltaStep(s, a), b).out
  {
    var s1 := ToolDeltaStep(s, a);
    calc {
      ToolDeltas(s, [a, b]);
      { assert [a, b][1..] == [b]; }
      ToolDeltas(s1, [b]);
      { assert [b][1..] == []; }
      ToolDeltas(ToolDeltaStep(s1, b), []);
    }
  }

  lemma ChoiceWithoutFinish(s: State, c: Choice)
    requires c.finish == ""
    ensures HandleChoice(s, c, None) == Step(HandleDelta(s, c.delta), false)
  {
  }

  lemma ChoiceWithFinish(s: State, c: Choice)
    requires c.finish != ""
    ensures var d := HandleDelta(s, c.delta);
      HandleChoice(s, c, None) == Step(CloseStream(d, FinishStopReason(c.finish, |d.toolCalls| > 0)), true)
  {
  }

  lemma CloseAfterToolCall(s: State, model: string, reasoning: string, id: Option<string>, name: Option<string>)
    requires s.out == Out(0, true, false, [MessageStart(model), BlockStart(0, ThinkingStart),
                                           BlockDelta(0, ThinkingDelta(reasoning)), BlockStart(0, ToolUseStart(id, name))])
    requires s.toolCalls == map[0 := ToolCall(id, name, "")] && s.split == INITIAL && s.tokens == 0
    ensures CloseStream(s, ToolUse).out.events
      == [MessageStart(model), BlockStart(0, ThinkingStart), BlockDelta(0, ThinkingDelta(reasoning)),
          BlockStart(0, ToolUseStart(id, name)), BlockStop(0), BlockStop(1), MessageDelta(ToolUse, 0), MessageStop]
  {
    assert FlushBuffer(s) == s;
    assert s.toolCalls.Keys == {0};
    assert Ascending({0}) == [0] by {
      assert 0 in Ascending({0});
    }
    assert StopOpenBlocks(s.out).events == s.out.events + [BlockStop(0)];
    assert ToolStops([0], 1) == [BlockStop(1)];
    assert CloseStream(s, ToolUse).out.events == s.out.events + [BlockStop(0)] + [BlockStop(1)] + [MessageDelta(ToolUse, 0), MessageStop];
  }

  /** The state after the reasoning frame and the tool-call delta of the scenario above. */
  lemma ThinkingThenToolCall(model: string, reasoning: string, id: Option<string>, name: Option<string>) returns (s2: State)
    requires reasoning != ""
    ensures s2 == HandleDelta(HandleDelta(Start(model), Delta("", reasoning, None)), Delta("", "", Some([ToolDelta(0, id, name, "")])))
    ensures s2.out == Out(0, true, false, [MessageStart(model), BlockStart(0, ThinkingStart),
                                           BlockDelta(0, ThinkingDelta(reasoning)), BlockStart(0, ToolUseStart(id, name))])
    ensures s2.toolCalls == map[0 := ToolCall(id, name, "")] && s2.split == INITIAL && s2.tokens == 0
  {
    var s0 := Start(model);
    var s1 := s0.(out := SendThinking(s0.out, reasoning));
    assert HandleDelta(s0, Delta("", reasoning, None)) == s1;
    var d := ToolDelta(0, id, name, "");
    assert FlushBuffer(s1) == s1;
    s2 := ToolDeltaStep(s1, d);
    assert ToolDeltas(s1, [d]) == ToolDeltas(s2, []);
    assert s2.toolCalls == map[0 := ToolCall(id, name, "")];
  }
}
