/**
 * The tag splitter of the stream transcoder (`processContent` and
 * `flushBuffer` in index.js): it separates `<think>...</think>` spans out of
 * streamed text, holding back a short tail of the buffer because a tag may be
 * split across chunks.
 *
 * `Scan` is the pure specification of one `processContent` loop: the pieces it
 * hands to `sendThinking`/`sendText`, in order, and the retained state. `Demux`
 * is an independent character-by-character reference; the main theorem,
 * `FeedThenFlushIsDemux`, shows that any chunking of the input followed by the
 * final flush yields exactly the reference output.
 */
module Splitter {
  import opened Text
  import opened Events

  const OPEN_TAG: string := "<think>"
  const CLOSE_TAG: string := "</think>"

  /** One argument handed to `sendThinking` (channel Thinking) or `sendText` (Visible). */
  datatype Piece = Piece(channel: Channel, text: string)

  /** `contentBuffer` and `inThinkTag`. */
  datatype SplitState = SplitState(buffer: string, inThink: bool)

  datatype ScanResult = ScanResult(pieces: seq<Piece>, state: SplitState)

  function ChannelOf(inThink: bool): Channel
  {
    if inThink then Thinking else Visible
  }

  /** The tag the splitter is looking for in a state. */
  function Tag(inThink: bool): string
  {
    if inThink then CLOSE_TAG else OPEN_TAG
  }

  /** The retained buffer holds no complete tag of its state. */
  ghost predicate Settled(st: SplitState)
  {
    forall j :: !OccursAt(st.buffer, j, Tag(st.inThink))
  }

  /** The retained buffer is at most 7 characters outside a span and 8 inside one. */
  predicate Bounded(st: SplitState)
  {
    |st.buffer| <= if st.inThink then 8 else 7
  }

  lemma OccursInSuffix(s: string, k: nat, j: nat, pat: string)
    requires k <= |s|
    ensures OccursAt(s[k..], j, pat) <==> OccursAt(s, k + j, pat)
  {
    if 0 <= j && j + |pat| <= |s| - k {
      assert s[k..][j..j + |pat|] == s[k + j..k + j + |pat|];
    }
  }

  lemma OccursInPrefix(s: string, x: string, j: int, pat: string)
    requires j + |pat| <= |s|
    ensures OccursAt(s + x, j, pat) <==> OccursAt(s, j, pat)
  {
    if 0 <= j {
      assert (s + x)[j..j + |pat|] == s[j..j + |pat|];
    }
  }

  /**
   * One `processContent` loop over the buffer `buf` (which already has the new
   * text appended): the pieces sent, in order, and what is retained.
   */
  function Scan(buf: string, inThink: bool): (r: ScanResult)
    decreases |buf|
    ensures Bounded(r.state) && Settled(r.state)
  {
    if inThink then
      var endIdx := IndexOf(buf, CLOSE_TAG);
      if endIdx != -1 then
        var rest := Scan(buf[endIdx + 8..], false);
        ScanResult([Piece(Thinking, buf[..endIdx])] + rest.pieces, rest.state)
      else if |buf| > 8 then
        var kept := buf[|buf| - 8..];
        assert forall j :: !OccursAt(kept, j, CLOSE_TAG) by {
          forall j | 0 <= j ensures !OccursAt(kept, j, CLOSE_TAG) {
            OccursInSuffix(buf, |buf| - 8, j, CLOSE_TAG);
          }
        }
        ScanResult([Piece(Thinking, buf[..|buf| - 8])], SplitState(kept, true))
      else
        ScanResult([], SplitState(buf, true))
    else
      var startIdx := IndexOf(buf, OPEN_TAG);
      if startIdx != -1 then
        var before := buf[..startIdx];
        var rest := Scan(buf[startIdx + 7..], true);
        ScanResult((if before != "" then [Piece(Visible, before)] else []) + rest.pieces, rest.state)
      else if |buf| > 7 then
        var kept := buf[|buf| - 7..];
        assert forall j :: !OccursAt(kept, j, OPEN_TAG) by {
          forall j | 0 <= j ensures !OccursAt(kept, j, OPEN_TAG) {
            OccursInSuffix(buf, |buf| - 7, j, OPEN_TAG);
          }
        }
        ScanResult([Piece(Visible, buf[..|buf| - 7])], SplitState(kept, false))
      else
        ScanResult([], SplitState(buf, false))
  }

  /** What `flushBuffer` sends: the whole buffer, to the channel of the current state. */
  function FlushPieces(st: SplitState): (r: seq<Piece>)
    ensures |r| <= 1
    ensures Flat(r) == Spread(Piece(ChannelOf(st.inThink), st.buffer))
  {
    if st.buffer == "" then [] else [Piece(ChannelOf(st.inThink), st.buffer)]
  }

  /** `processContent` called once per chunk, from state `st`. */
  function Feed(st: SplitState, chunks: seq<string>): (r: ScanResult)
    decreases |chunks|
    ensures chunks != [] ==> Bounded(r.state)
    ensures Settled(st) ==> Settled(r.state)
  {
    if chunks == [] then ScanResult([], st)
    else
      var first := Scan(st.buffer + chunks[0], st.inThink);
      var rest := Feed(first.state, chunks[1..]);
      ScanResult(first.pieces + rest.pieces, rest.state)
  }

  /** The splitter's state before any text. */
  const INITIAL: SplitState := SplitState("", false)

  /** All pieces sent for `chunks` fed one by one and then flushed. */
  function FeedAndFlush(chunks: seq<string>): seq<Piece>
  {
    var r := Feed(INITIAL, chunks);
    r.pieces + FlushPieces(r.state)
  }

  // ----- The character-level reference -----

  /** One character of output, with the channel it was sent on. */
  datatype TaggedChar = TaggedChar(channel: Channel, c: char)

  function Spread(p: Piece): seq<TaggedChar>
  {
    seq(|p.text|, i requires 0 <= i < |p.text| => TaggedChar(p.channel, p.text[i]))
  }

  /** The characters a sequence of pieces sends, in order, each with its channel. */
  function Flat(ps: seq<Piece>): seq<TaggedChar>
  {
    if ps == [] then [] else Spread(ps[0]) + Flat(ps[1..])
  }

  lemma {:induction false} FlatAppend(a: seq<Piece>, b: seq<Piece>)
    ensures Flat(a + b) == Flat(a) + Flat(b)
  {
    if a == [] {
      assert a + b == b;
    } else {
      assert (a + b)[0] == a[0] && (a + b)[1..] == a[1..] + b;
      FlatAppend(a[1..], b);
    }
  }

  /**
   * The reference splitter: reads `s` one character at a time; the tag of the
   * current state switches state and is dropped, every other character goes
   * to the current channel.
   */
  function Demux(inThink: bool, s: string): seq<TaggedChar>
    decreases |s|
  {
    if s == [] then []
    else if OccursAt(s, 0, Tag(inThink)) then Demux(!inThink, s[|Tag(inThink)|..])
    else [TaggedChar(ChannelOf(inThink), s[0])] + Demux(inThink, s[1..])
  }

  /** Before the first tag, `Demux` sends every character to the current channel. */
  lemma {:induction false} DemuxSkip(inThink: bool, s: string, i: nat)
    requires i <= |s|
    requires forall j :: 0 <= j < i ==> !OccursAt(s, j, Tag(inThink))
    ensures Demux(inThink, s) == Spread(Piece(ChannelOf(inThink), s[..i])) + Demux(inThink, s[i..])
    decreases i
  {
    var ch := ChannelOf(inThink);
    if i == 0 {
      assert Spread(Piece(ch, s[..0])) == [];
      assert s[0..] == s;
    } else {
      assert !OccursAt(s, 0, Tag(inThink));
      forall j | 0 <= j < i - 1 ensures !OccursAt(s[1..], j, Tag(inThink)) {
        OccursInSuffix(s, 1, j, Tag(inThink));
      }
      DemuxSkip(inThink, s[1..], i - 1);
      var head := [TaggedChar(ch, s[0])];
      assert Demux(inThink, s) == head + Demux(inThink, s[1..]);
      assert s[1..][i - 1..] == s[i..];
      assert s[..i][1..] == s[1..][..i - 1];
      SpreadCons(ch, s[..i]);
      Associate(head, Spread(Piece(ch, s[1..][..i - 1])), Demux(inThink, s[i..]));
    }
  }

  lemma SpreadCons(ch: Channel, t: string)
    requires t != []
    ensures Spread(Piece(ch, t)) == [TaggedChar(ch, t[0])] + Spread(Piece(ch, t[1..]))
  {
  }

  /** With the first tag of `buf` at `idx`, the reference sends what precedes it and switches state. */
  lemma DemuxAtTag(inThink: bool, buf: string, x: string)
    requires IndexOf(buf, Tag(inThink)) != -1
    ensures var idx := IndexOf(buf, Tag(inThink));
      Demux(inThink, buf + x)
        == Spread(Piece(ChannelOf(inThink), buf[..idx])) + Demux(!inThink, buf[idx + |Tag(inThink)|..] + x)
  {
    var idx := IndexOf(buf, Tag(inThink));
    var s := buf + x;
    var tag := Tag(inThink);
    forall j | 0 <= j < idx ensures !OccursAt(s, j, tag) {
      OccursInPrefix(buf, x, j, tag);
    }
    DemuxSkip(inThink, s, idx);
    assert s[..idx] == buf[..idx];
    OccursInPrefix(buf, x, idx, tag);
    OccursInSuffix(s, idx, 0, tag);
    assert s[idx..][|tag|..] == buf[idx + |tag|..] + x;
  }

  /** With no tag anywhere in `buf`, the reference sends its first `k` characters unchanged. */
  lemma DemuxNoTag(inThink: bool, buf: string, x: string, k: nat)
    requires k + |Tag(inThink)| <= |buf|
    requires forall j :: 0 <= j ==> !OccursAt(buf, j, Tag(inThink))
    ensures Demux(inThink, buf + x)
      == Spread(Piece(ChannelOf(inThink), buf[..k])) + Demux(inThink, buf[k..] + x)
  {
    var s := buf + x;
    var tag := Tag(inThink);
    forall j | 0 <= j < k ensures !OccursAt(s, j, tag) {
      OccursInPrefix(buf, x, j, tag);
    }
    DemuxSkip(inThink, s, k);
    assert s[..k] == buf[..k];
    assert s[k..] == buf[k..] + x;
  }

  /**
   * One `processContent` loop loses nothing: what it sends, followed by the
   * reference applied to the retained state and whatever text comes next, is
   * the reference applied to the whole buffer and that text.
   */
  lemma {:induction false} ScanDemux(buf: string, inThink: bool, x: string)
    ensures var r := Scan(buf, inThink);
      Flat(r.pieces) + Demux(r.state.inThink, r.state.buffer + x) == Demux(inThink, buf + x)
    decreases |buf|
  {
    var tag := Tag(inThink);
    var idx := IndexOf(buf, tag);
    if idx != -1 {
      var after := buf[idx + |tag|..];
      ScanDemux(after, !inThink, x);
      var head := ScanAtTag(buf, inThink);
      DemuxAtTag(inThink, buf, x);
      TagStep(Scan(buf, inThink), head, Scan(after, !inThink), Demux(inThink, buf + x), Demux(!inThink, after + x), x);
    } else {
      ScanDemuxHold(buf, inThink, x);
    }
  }

  /** The tag case of `ScanDemux`: the pieces before the tag, then the claim for the rest after it. */
  lemma TagStep(r: ScanResult, head: seq<Piece>, rest: ScanResult, all: seq<TaggedChar>, after: seq<TaggedChar>, x: string)
    requires r == ScanResult(head + rest.pieces, rest.state)
    requires all == Flat(head) + after
    requires Flat(rest.pieces) + Demux(rest.state.inThink, rest.state.buffer + x) == after
    ensures Flat(r.pieces) + Demux(r.state.inThink, r.state.buffer + x) == all
  {
    FlatAppend(head, rest.pieces);
    Associate(Flat(head), Flat(rest.pieces), Demux(rest.state.inThink, rest.state.buffer + x));
  }

  /** `Scan` at a tag: the piece before it (dropped when empty outside a span), then the scan after it. */
  lemma ScanAtTag(buf: string, inThink: bool) returns (head: seq<Piece>)
    requires IndexOf(buf, Tag(inThink)) != -1
    ensures var idx := IndexOf(buf, Tag(inThink)); var rest := Scan(buf[idx + |Tag(inThink)|..], !inThink);
      Scan(buf, inThink) == ScanResult(head + rest.pieces, rest.state)
      && Flat(head) == Spread(Piece(ChannelOf(inThink), buf[..idx]))
  {
    var idx := IndexOf(buf, Tag(inThink));
    var ch := ChannelOf(inThink);
    head := if inThink || buf[..idx] != "" then [Piece(ch, buf[..idx])] else [];
    if head != [] {
      assert Flat(head) == Spread(head[0]) + Flat([]);
    }
  }

  /** The cases of `ScanDemux` without a tag in the buffer. */
  lemma ScanDemuxHold(buf: string, inThink: bool, x: string)
    requires IndexOf(buf, Tag(inThink)) == -1
    ensures var r := Scan(buf, inThink);
      Flat(r.pieces) + Demux(r.state.inThink, r.state.buffer + x) == Demux(inThink, buf + x)
  {
    var tag := Tag(inThink);
    var ch := ChannelOf(inThink);
    var r := Scan(buf, inThink);
    if |buf| > |tag| {
      var k := |buf| - |tag|;
      DemuxNoTag(inThink, buf, x, k);
      assert r == ScanResult([Piece(ch, buf[..k])], SplitState(buf[k..], inThink));
      assert Flat(r.pieces) == Spread(Piece(ch, buf[..k]));
    } else {
      assert r == ScanResult([], SplitState(buf, inThink));
    }
  }

  /** Feeding chunks one at a time is the reference on their concatenation. */
  lemma {:induction false} FeedDemux(st: SplitState, chunks: seq<string>, x: string)
    ensures var r := Feed(st, chunks);
      Flat(r.pieces) + Demux(r.state.inThink, r.state.buffer + x)
        == Demux(st.inThink, st.buffer + Concat(chunks) + x)
    decreases |chunks|
  {
    if chunks == [] {
      assert st.buffer + Concat(chunks) + x == st.buffer + x;
    } else {
      var first := Scan(st.buffer + chunks[0], st.inThink);
      var rest := Feed(first.state, chunks[1..]);
      var tail := Concat(chunks[1..]);
      var done := Flat(first.pieces);
      var later := Flat(rest.pieces);
      var final := Demux(rest.state.inThink, rest.state.buffer + x);
      ScanDemux(st.buffer + chunks[0], st.inThink, tail + x);
      FeedDemux(first.state, chunks[1..], x);
      FlatAppend(first.pieces, rest.pieces);
      Associate(first.state.buffer, tail, x);
      Associate(st.buffer + chunks[0], tail, x);
      Associate(st.buffer, chunks[0], tail);
      assert later + final == Demux(first.state.inThink, first.state.buffer + (tail + x));
      assert done + (later + final) == Demux(st.inThink, st.buffer + Concat(chunks) + x);
      Associate(done, later, final);
    }
  }

  lemma Associate<T>(a: seq<T>, b: seq<T>, c: seq<T>)
    ensures a + b + c == a + (b + c)
  {
  }

  /** Flushing a settled buffer sends exactly what the reference would. */
  lemma FlushDemux(st: SplitState)
    requires Settled(st)
    ensures Flat(FlushPieces(st)) == Demux(st.inThink, st.buffer)
  {
    DemuxSkip(st.inThink, st.buffer, |st.buffer|);
    assert st.buffer[|st.buffer|..] == [];
    assert st.buffer[..|st.buffer|] == st.buffer;
    if st.buffer != "" {
      assert Flat(FlushPieces(st)) == Spread(FlushPieces(st)[0]) + Flat([]);
    }
  }

  /**
   * The splitter's output for any chunking, after the final flush, is the
   * reference applied to the concatenated input: nothing is lost, reordered
   * or moved to the other channel except the tag literals themselves.
   */
  lemma FeedThenFlushIsDemux(chunks: seq<string>)
    ensures Flat(FeedAndFlush(chunks)) == Demux(false, Concat(chunks))
  {
    var r := Feed(INITIAL, chunks);
    assert Settled(INITIAL);
    FeedDemux(INITIAL, chunks, "");
    assert r.state.buffer + "" == r.state.buffer;
    assert INITIAL.buffer + Concat(chunks) + "" == Concat(chunks);
    FlushDemux(r.state);
    FlatAppend(r.pieces, FlushPieces(r.state));
  }

  /** Fragmentation independence: two chunkings of the same text send the same characters. */
  lemma FragmentationIndependent(a: seq<string>, b: seq<string>)
    requires Concat(a) == Concat(b)
    ensures Flat(FeedAndFlush(a)) == Flat(FeedAndFlush(b))
  {
    FeedThenFlushIsDemux(a);
    FeedThenFlushIsDemux(b);
  }

  // ----- Per-channel text -----

  /** The concatenation of the texts sent on one channel. */
  function ChannelText(ps: seq<Piece>, ch: Channel): string
  {
    if ps == [] then ""
    else (if ps[0].channel == ch then ps[0].text else "") + ChannelText(ps[1..], ch)
  }

  /** The characters of one channel, in order. */
  function Project(cs: seq<TaggedChar>, ch: Channel): string
  {
    if cs == [] then ""
    else (if cs[0].channel == ch then [cs[0].c] else "") + Project(cs[1..], ch)
  }

  lemma {:induction false} ProjectAppend(a: seq<TaggedChar>, b: seq<TaggedChar>, ch: Channel)
    ensures Project(a + b, ch) == Project(a, ch) + Project(b, ch)
  {
    if a == [] {
      assert a + b == b;
    } else {
      var h: string := if a[0].channel == ch then [a[0].c] else "";
      assert (a + b)[0] == a[0] && (a + b)[1..] == a[1..] + b;
      assert Project(a + b, ch) == h + Project(a[1..] + b, ch);
      ProjectAppend(a[1..], b, ch);
      Associate(h, Project(a[1..], ch), Project(b, ch));
    }
  }

  lemma {:induction false} ProjectSpread(p: Piece, ch: Channel)
    ensures Project(Spread(p), ch) == if p.channel == ch then p.text else ""
    decreases |p.text|
  {
    if p.text != "" {
      var tail := Piece(p.channel, p.text[1..]);
      assert Spread(p) == [TaggedChar(p.channel, p.text[0])] + Spread(tail);
      ProjectAppend([TaggedChar(p.channel, p.text[0])], Spread(tail), ch);
      ProjectSpread(tail, ch);
      assert p.text == [p.text[0]] + p.text[1..];
    }
  }

  /** The text sent on a channel is the projection of the tagged characters on it. */
  lemma {:induction false} ChannelTextIsProjection(ps: seq<Piece>, ch: Channel)
    ensures ChannelText(ps, ch) == Project(Flat(ps), ch)
  {
    if ps != [] {
      ChannelTextIsProjection(ps[1..], ch);
      ProjectAppend(Spread(ps[0]), Flat(ps[1..]), ch);
      ProjectSpread(ps[0], ch);
    }
  }

  /**
   * The concatenated thinking output, and the concatenated text output, are
   * the same for every chunking of the same input.
   */
  lemma ChannelTextIndependent(a: seq<string>, b: seq<string>, ch: Channel)
    requires Concat(a) == Concat(b)
    ensures ChannelText(FeedAndFlush(a), ch) == ChannelText(FeedAndFlush(b), ch)
  {
    FragmentationIndependent(a, b);
    ChannelTextIsProjection(FeedAndFlush(a), ch);
    ChannelTextIsProjection(FeedAndFlush(b), ch);
  }

  /** A string with no `<` holds no tag, so the reference sends all of it as visible text. */
  lemma DemuxPlain(s: string)
    requires '<' !in s
    ensures Demux(false, s) == Spread(Piece(Visible, s))
  {
    forall j | 0 <= j < |s| ensures !OccursAt(s, j, OPEN_TAG) {
      assert s[j] in s;
    }
    DemuxSkip(false, s, |s|);
    assert s[..|s|] == s && s[|s|..] == [];
  }

  /** Text with no `<` at all passes through verbatim as visible text. */
  lemma PlainTextIsVisible(chunks: seq<string>)
    requires '<' !in Concat(chunks)
    ensures ChannelText(FeedAndFlush(chunks), Visible) == Concat(chunks)
    ensures ChannelText(FeedAndFlush(chunks), Thinking) == ""
  {
    var s := Concat(chunks);
    DemuxPlain(s);
    FeedThenFlushIsDemux(chunks);
    ChannelTextIsProjection(FeedAndFlush(chunks), Visible);
    ChannelTextIsProjection(FeedAndFlush(chunks), Thinking);
    ProjectSpread(Piece(Visible, s), Visible);
    ProjectSpread(Piece(Visible, s), Thinking);
  }
}
