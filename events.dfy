/**
 * The downstream (Anthropic Messages) server-sent events that the stream
 * transcoder writes, and the stop reasons both response paths report.
 */
module Events {
  import Wrappers

  datatype StopReason = EndTurn | MaxTokens | ToolUse

  /** The `content_block` payload of a `content_block_start` event. */
  datatype StartBlock =
    | ThinkingStart
    | TextStart
    | ToolUseStart(id: Wrappers.Option<string>, name: Wrappers.Option<string>)

  /** The `delta` payload of a `content_block_delta` event. */
  datatype DeltaBody =
    | ThinkingDelta(thinking: string)
    | TextDelta(text: string)
    | InputJsonDelta(partialJson: string)

  /**
   * One `send(event, data)` call. The message id of `message_start` (taken from
   * the clock) is not part of the model.
   */
  datatype Event =
    | MessageStart(model: string)
    | BlockStart(index: nat, block: StartBlock)
    | BlockDelta(index: nat, delta: DeltaBody)
    | BlockStop(index: nat)
    | MessageDelta(stopReason: StopReason, outputTokens: nat)
    | MessageStop
  {
    /** The events that open, fill and close content blocks. */
    predicate IsBlockEvent()
    {
      BlockStart? || BlockDelta? || BlockStop?
    }
  }

  /**
   * The stop reason for an upstream `finish_reason`: a tool-call finish or any
   * registered tool call gives `tool_use`, else a length finish gives
   * `max_tokens`, else `end_turn`.
   */
  function FinishStopReason(finish: string, anyTool: bool): (r: StopReason)
    ensures r == ToolUse <==> (finish == "tool_calls" || anyTool)
    ensures r == MaxTokens <==> (finish == "length" && !anyTool)
    ensures r == EndTurn <==> (finish != "length" && finish != "tool_calls" && !anyTool)
  {
    var reason := if finish == "length" then MaxTokens else EndTurn;
    if finish == "tool_calls" || anyTool then ToolUse else reason
  }

  /** `after` is `before` followed by block events only. */
  predicate AppendsBlockEvents(before: seq<Event>, after: seq<Event>)
  {
    |before| <= |after| && after[..|before|] == before
    && forall i :: |before| <= i < |after| ==> after[i].IsBlockEvent()
  }

  /** `after` is `before`, some block events, then `message_delta` and `message_stop`. */
  predicate ClosesAfter(before: seq<Event>, after: seq<Event>)
  {
    |after| >= 2 && AppendsBlockEvents(before, after[..|after| - 2])
    && after[|after| - 2].MessageDelta? && after[|after| - 1] == MessageStop
  }

  lemma AppendsBlockEventsTransitive(a: seq<Event>, b: seq<Event>, c: seq<Event>)
    requires AppendsBlockEvents(a, b) && AppendsBlockEvents(b, c)
    ensures AppendsBlockEvents(a, c)
  {
    assert c[..|a|] == c[..|b|][..|a|];
  }

  /** Block events followed by a close are a close. */
  lemma AppendsThenCloses(a: seq<Event>, b: seq<Event>, c: seq<Event>)
    requires AppendsBlockEvents(a, b) && ClosesAfter(b, c)
    ensures ClosesAfter(a, c)
  {
    AppendsBlockEventsTransitive(a, b, c[..|c| - 2]);
  }

  /** Which text channel a delta belongs to. */
  datatype Channel = Thinking | Visible

  /** The text a delta event carries on `ch`, or nothing. */
  function DeltaTextOf(e: Event, ch: Channel): string
  {
    match e
    case BlockDelta(_, ThinkingDelta(t)) => if ch == Thinking then t else ""
    case BlockDelta(_, TextDelta(t)) => if ch == Visible then t else ""
    case _ => ""
  }

  /** The concatenation of all `thinking_delta` (or all `text_delta`) payloads of a log. */
  function DeltaText(events: seq<Event>, ch: Channel): string
  {
    if events == [] then "" else DeltaTextOf(events[0], ch) + DeltaText(events[1..], ch)
  }

  lemma {:induction false} DeltaTextAppend(a: seq<Event>, b: seq<Event>, ch: Channel)
    ensures DeltaText(a + b, ch) == DeltaText(a, ch) + DeltaText(b, ch)
  {
    if a == [] {
      assert a + b == b;
    } else {
      assert (a + b)[0] == a[0] && (a + b)[1..] == a[1..] + b;
      DeltaTextAppend(a[1..], b, ch);
    }
  }

  /** The `partial_json` payloads of all `input_json_delta` events, in order. */
  function JsonFragments(events: seq<Event>): seq<string>
  {
    if events == [] then []
    else (match events[0]
          case BlockDelta(_, InputJsonDelta(j)) => [j]
          case _ => [])
         + JsonFragments(events[1..])
  }

  lemma {:induction false} JsonFragmentsAppend(a: seq<Event>, b: seq<Event>)
    ensures JsonFragments(a + b) == JsonFragments(a) + JsonFragments(b)
  {
    if a == [] {
      assert a + b == b;
    } else {
      assert (a + b)[0] == a[0] && (a + b)[1..] == a[1..] + b;
      JsonFragmentsAppend(a[1..], b);
    }
  }

  /** The number of `tool_use` block starts in a log. */
  function ToolStartCount(events: seq<Event>): nat
  {
    if events == [] then 0
    else (if events[0].BlockStart? && events[0].block.ToolUseStart? then 1 else 0)
         + ToolStartCount(events[1..])
  }

  lemma {:induction false} ToolStartCountAppend(a: seq<Event>, b: seq<Event>)
    ensures ToolStartCount(a + b) == ToolStartCount(a) + ToolStartCount(b)
  {
    if a == [] {
      assert a + b == b;
    } else {
      assert (a + b)[0] == a[0] && (a + b)[1..] == a[1..] + b;
      ToolStartCountAppend(a[1..], b);
    }
  }
}
