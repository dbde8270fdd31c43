/** Timeline items as the room view sees them: a closed tagged union of events
    and virtual markers, the text line each one renders as in the
    timeline-items details mode, and the lookup of the latest message that the
    reaction key reacts to. */
module TimelineItems {
  import opened Basics

  /** `TimelineEventItemId`: an event id, or a transaction id for a local echo. */
  type EventItemId = string

  /** The message type of a room message; only plain text is rendered. */
  datatype MessageType = Text(body: string) | OtherMessageType

  /** What an event item holds. `Other` stands for every content kind the room
      view skips: stickers, polls, membership and profile changes, other state,
      contents that failed to parse, call invites and call notifications. */
  datatype Content =
    | Message(msgtype: MessageType)
    | Redacted
    | UnableToDecrypt
    | Other

  /** `VirtualTimelineItem`. A date divider carries its timestamp as the text
      its `Debug` formatting produces. */
  datatype VirtualItem = DateDivider(timestamp: string) | ReadMarker | TimelineStart

  datatype TimelineItem =
    | Event(sender: string, identifier: EventItemId, content: Content)
    | Virtual(marker: VirtualItem)

  const TimelineStartLine: string := "\U{1F973} Timeline start! \U{1F973}"

  /** The line one item contributes to the timeline view, if any. */
  function LineOf(item: TimelineItem): (line: Option<string>)
    ensures item.Virtual? ==> line.Some?
    ensures item.Event? ==>
              (line.Some? <==> item.content.Redacted? || item.content.UnableToDecrypt?
                               || (item.content.Message? && item.content.msgtype.Text?))
    ensures item.Event? && line.Some? ==> item.sender + ": " <= line.value
    ensures item.Event? && item.content.Message? && item.content.msgtype.Text? ==>
              line == Some(item.sender + ": " + item.content.msgtype.body)
    ensures item.Event? && item.content.Redacted? ==> line == Some(item.sender + ": -- redacted --")
    ensures item.Event? && item.content.UnableToDecrypt? ==> line == Some(item.sender + ": (UTD)")
    ensures item.Virtual? && item.marker.DateDivider? ==> line == Some("Date: " + item.marker.timestamp)
    ensures item == Virtual(ReadMarker) ==> line == Some("Read marker")
    ensures item == Virtual(TimelineStart) ==> line == Some(TimelineStartLine)
  {
    match item
    case Event(sender, _, content) =>
      (match content
       case Message(Text(body)) => Some(sender + ": " + body)
       case Message(OtherMessageType) => None
       case Redacted => Some(sender + ": -- redacted --")
       case UnableToDecrypt => Some(sender + ": (UTD)")
       case Other => None)
    case Virtual(DateDivider(ts)) => Some("Date: " + ts)
    case Virtual(ReadMarker) => Some("Read marker")
    case Virtual(TimelineStart) => Some(TimelineStartLine)
  }

  /** The timeline view's lines: one per rendered item, in item order. */
  function TimelineLines(items: seq<TimelineItem>): (lines: seq<string>)
    ensures |lines| <= |items|
    decreases |items|
  {
    if items == [] then []
    else
      var rest := TimelineLines(items[1..]);
      match LineOf(items[0])
      case Some(line) => [line] + rest
      case None => rest
  }

  /** The lines of two stretches of items are the lines of each, in order. */
  lemma {:induction false} TimelineLinesConcat(a: seq<TimelineItem>, b: seq<TimelineItem>)
    ensures TimelineLines(a + b) == TimelineLines(a) + TimelineLines(b)
    decreases |a|
  {
    if a == [] {
      assert a + b == b;
    } else {
      assert (a + b)[0] == a[0];
      assert (a + b)[1..] == a[1..] + b;
      TimelineLinesConcat(a[1..], b);
    }
  }

  /** Only virtual markers present: every item yields exactly one line. */
  lemma {:induction false} MarkersAllRender(items: seq<TimelineItem>)
    requires forall k :: 0 <= k < |items| ==> items[k].Virtual?
    ensures |TimelineLines(items)| == |items|
    decreases |items|
  {
    if items != [] {
      MarkersAllRender(items[1..]);
    }
  }

  /** The `for` loop of `render_timeline` that pushes one line per rendered
      item into `content`. */
  method RenderLines(items: seq<TimelineItem>) returns (content: seq<string>)
    ensures content == TimelineLines(items)
  {
    content := [];
    for k := 0 to |items|
      invariant content == TimelineLines(items[..k])
    {
      TimelineLinesConcat(items[..k], [items[k]]);
      assert items[..k + 1] == items[..k] + [items[k]];
      var line := LineOf(items[k]);
      if line.Some? {
        content := content + [line.value];
      }
    }
    assert items[..|items|] == items;
  }

  /** `as_message().is_some()`: an event whose content is a room message of
      any message type. */
  predicate IsMessageEvent(item: TimelineItem)
    ensures IsMessageEvent(item) ==> item.Event?
    ensures item.Event? && item.content.Message? ==> IsMessageEvent(item)
    ensures item.Event? && (item.content.Redacted? || item.content.UnableToDecrypt? || item.content.Other?) ==>
              !IsMessageEvent(item)
  {
    item.Event? && item.content.Message?
  }

  /** `items.iter().rev().find_map(..)`: the identifier of the last item, in
      list order, that is a message event. */
  function LatestMessageId(items: seq<TimelineItem>): (r: Option<EventItemId>)
    ensures r.None? <==> forall k :: 0 <= k < |items| ==> !IsMessageEvent(items[k])
    ensures r.Some? ==>
              exists k :: 0 <= k < |items| && IsMessageEvent(items[k]) && items[k].identifier == r.value
                          && forall j :: k < j < |items| ==> !IsMessageEvent(items[j])
    decreases |items|
  {
    if items == [] then None
    else
      var last := items[|items| - 1];
      if IsMessageEvent(last) then Some(last.identifier)
      else
        var r := LatestMessageId(items[..|items| - 1]);
        assert forall k :: 0 <= k < |items| - 1 ==> items[..|items| - 1][k] == items[k];
        r
  }

  /** New items that hold no message leave the reaction target where it was;
      a new message becomes the target. */
  lemma LatestMessageAfterAppend(items: seq<TimelineItem>, more: seq<TimelineItem>)
    ensures (forall k :: 0 <= k < |more| ==> !IsMessageEvent(more[k])) ==>
              LatestMessageId(items + more) == LatestMessageId(items)
    ensures more != [] && IsMessageEvent(more[|more| - 1]) ==>
              LatestMessageId(items + more) == Some(more[|more| - 1].identifier)
  {
    if forall k :: 0 <= k < |more| ==> !IsMessageEvent(more[k]) {
      NoMessageSuffix(items, more);
    }
  }

  lemma {:induction false} NoMessageSuffix(items: seq<TimelineItem>, more: seq<TimelineItem>)
    requires forall k :: 0 <= k < |more| ==> !IsMessageEvent(more[k])
    ensures LatestMessageId(items + more) == LatestMessageId(items)
    decreases |more|
  {
    if more != [] {
      var shorter := more[..|more| - 1];
      assert (items + more)[..|items + more| - 1] == items + shorter;
      NoMessageSuffix(items, shorter);
    } else {
      assert items + more == items;
    }
  }
}
