/** The session controller (`App`): the shared projections the room-list
    listener keeps up to date, the selection, the current room subscription,
    the status line with its expiry task, the single back-pagination slot, and
    the operations the key handler triggers.

    Tasks are abstract: a task is a number handed out when it is spawned; the
    ghost map `tasks` remembers what every spawned task does and the ghost set
    `running` holds those neither aborted nor finished. Each mutex-guarded
    region is one atomic step, a method that keeps `Valid()`, so any other
    operation may run between two of them. Calls into the SDK are not modelled; their
    outcomes are parameters, and the commands sent are appended to the ghost
    log `commands`. */
module Multiverse {
  import opened Basics
  import opened VectorDiff
  import opened SelectableList
  import opened TimelineItems
  import opened RoomInfo
  import opened Details
  import opened UiRooms

  type TaskId = nat

  /** What a spawned task does. */
  datatype TaskKind =
    | RoomListListener
    | TimelineFeeder(room: RoomId)
    | StatusExpiry
    | BackPagination(room: RoomId, events: nat)

  /** A room's timeline entry: the items its feeder keeps up to date, and the
      feeder task. */
  datatype Timeline = Timeline(items: seq<TimelineItem>, task: TaskId)

  /** An SDK call's outcome: a value, or the error's message. */
  datatype SdkResult<T> = Ok(value: T) | Err(error: string)

  /** Commands sent to the SDK. */
  datatype Command =
    | SubscribeToRooms(rooms: seq<RoomId>)
    | SendReadReceipt(room: RoomId)
    | ToggleReaction(room: RoomId, item: EventItemId, key: string)
    | SendText(room: RoomId)
    | StartSyncService
    | StopSyncService
    | SetSendQueueEnabled(enabled: bool)

  /** The outcomes of the SDK calls one key press may trigger, and whether the
      client's send queue is currently enabled. */
  datatype SdkOutcomes = SdkOutcomes(readReceipt: SdkResult<bool>, reaction: SdkResult<()>, send: SdkResult<()>,
                                     sendQueueEnabled: bool)

  /** Events requested by one back-pagination. */
  const PaginationBatch: nat := 20

  /** The reaction sent to the latest message. */
  const ReactionKey: string := "\U{1F970}"

  const MissingTimeline: string := "missing timeline for room"
  const NoItemToReactTo: string := "no item to react to"
  const MessageSent: string := "message sent!"
  const SendFailed: string := "error when sending event: "
  const ReactionSent: string := "reaction sent!"
  const ReactionFailed: string := "error when reacting: "
  const MissingRoom: string := "missing room or nothing to show"

  const NothingToSee: string := "Nothing to see here..."
  const RoomDisappeared: string := "(room disappeared in the room list service)"
  const TimelineDisappeared: string := "(room's timeline disappeared)"

  /** What the right-hand panel shows: a fixed paragraph, the timeline lines,
      or one of the SDK-backed views (read receipts, raw events, event-cache
      chunks) of a registered room. */
  datatype RoomView =
    | Paragraph(text: string)
    | Lines(lines: seq<string>)
    | ReceiptsOf(room: RoomId)
    | EventsOf(room: RoomId)
    | ChunksOf(room: RoomId)

  /** The part of the session a key press can change, as one value: the
      details mode, the cursor, the subscription, the status line and its
      slot, the back-pagination slot, the task handles and the command log.
      A key's effect is stated against this value taken before the key. */
  datatype SessionState = SessionState(mode: DetailsMode, selected: Option<nat>, subscription: Option<Room>,
                                       status: Option<string>, clearSlot: Option<TaskId>,
                                       pagination: Option<TaskId>, nextTask: TaskId,
                                       tasks: map<TaskId, TaskKind>, running: set<TaskId>,
                                       commands: seq<Command>)

  /** What `toggle_reaction_to_latest_msg` decides before calling the SDK. */
  datatype ReactionPlan = NoTimeline | NothingToReactTo | ReactTo(room: RoomId, item: EventItemId)

  /** The timeline of the selected room, scanned from the end for the most
      recent message. A missing timeline and a timeline without a message are
      told apart. */
  function PlanReaction(selected: Option<RoomId>, timelines: map<RoomId, Timeline>): (p: ReactionPlan)
    ensures p.NoTimeline? <==> selected.None? || selected.value !in timelines
    ensures p.NothingToReactTo? <==>
              selected.Some? && selected.value in timelines
              && forall k :: 0 <= k < |timelines[selected.value].items| ==> !IsMessageEvent(timelines[selected.value].items[k])
    ensures p.ReactTo? ==>
              && selected == Some(p.room) && p.room in timelines
              && exists k :: 0 <= k < |timelines[p.room].items|
                             && IsMessageEvent(timelines[p.room].items[k])
                             && timelines[p.room].items[k].identifier == p.item
    ensures p.ReactTo? ==> LatestMessageId(timelines[p.room].items) == Some(p.item)
  {
    if selected.None? || selected.value !in timelines then NoTimeline
    else
      match LatestMessageId(timelines[selected.value].items)
      case None => NothingToReactTo
      case Some(id) => ReactTo(selected.value, id)
  }

  /** The request `M`, `L` or `m` makes of the SDK for the selected room: a
      message, a reaction to the latest message, a read receipt. None is made
      when the room, its timeline or a message is missing, nor by any other
      key. */
  function RoomRequests(action: Action, selected: Option<RoomId>, registered: set<RoomId>,
                        timelines: map<RoomId, Timeline>): (rs: seq<Command>)
    ensures |rs| <= 1
    ensures rs != [] ==> selected.Some? && (action.SendMessage? || action.ReactToLatest? || action.MarkAsRead?)
  {
    match action
    case SendMessage => if selected.Some? && selected.value in timelines then [SendText(selected.value)] else []
    case ReactToLatest =>
      (match PlanReaction(selected, timelines)
       case ReactTo(room, item) => [ToggleReaction(room, item, ReactionKey)]
       case _ => [])
    case MarkAsRead => if selected.Some? && selected.value in registered then [SendReadReceipt(selected.value)] else []
    case _ => []
  }

  /** The status text of a read-receipt outcome. */
  function ReadReceiptStatus(outcome: SdkResult<bool>): (status: string)
    ensures outcome == Ok(true) ==> status == "did send a read receipt!"
    ensures outcome == Ok(false) ==> status == "did not send a read receipt!"
    ensures outcome.Err? ==> status == "error when marking a room as read: " + outcome.error
  {
    match outcome
    case Ok(did) => if did then "did send a read receipt!" else "did not send a read receipt!"
    case Err(e) => "error when marking a room as read: " + e
  }

  /** The status text of an SDK call's outcome: the success text, or the
      error after its prefix. */
  function Reported(outcome: SdkResult<()>, success: string, errorPrefix: string): (status: string)
    ensures outcome.Ok? ==> status == success
    ensures outcome.Err? ==> status == errorPrefix + outcome.error
  {
    match outcome
    case Ok(_) => success
    case Err(e) => errorPrefix + e
  }

  /** The request the `s`, `S` and `Q` keys make of the sync service; `Q`
      flips the send queue from its current state. */
  function SyncCommand(a: Action, sendQueueEnabled: bool): (c: Command)
    requires a.StartSync? || a.StopSync? || a.ToggleSendQueue?
    ensures a.StartSync? <==> c.StartSyncService?
    ensures a.StopSync? <==> c.StopSyncService?
    ensures a.ToggleSendQueue? <==> c == SetSendQueueEnabled(!sendQueueEnabled)
  {
    match a
    case StartSync => StartSyncService
    case StopSync => StopSyncService
    case ToggleSendQueue => SetSendQueueEnabled(!sendQueueEnabled)
  }

  class App {
    /** The room list and its selection (`room_list_rooms`); the listener
        writes the items, the key handler moves the selection. */
    const roomList: StatefulList<Room>

    /** Rooms whose timeline has been set up (`ui_rooms`). */
    var uiRooms: map<RoomId, Room>

    /** Timelines of those rooms. */
    var timelines: map<RoomId, Timeline>

    /** The room projection (`room_info`). */
    var roomInfo: map<RoomId, ExtraRoomInfo>

    var lastStatusMessage: Option<string>

    /** Handle of the task that clears the status message. */
    var clearStatusMessage: Option<TaskId>

    var detailsMode: DetailsMode

    var currentRoomSubscription: Option<Room>

    /** Handle of the latest back-pagination task. */
    var currentPagination: Option<TaskId>

    const listenTask: TaskId

    /** The next handle the runtime gives out. */
    var nextTask: TaskId

    ghost var tasks: map<TaskId, TaskKind>
    ghost var running: set<TaskId>
    ghost var commands: seq<Command>

    /** Every handle was given out before, and only spawned tasks run. */
    ghost predicate TasksNumbered()
      reads this
    {
      && (forall t :: t in tasks ==> t < nextTask)
      && running <= tasks.Keys
    }

    /** At most one status expiry and at most one back-pagination are pending,
        and each is the one held in its slot. */
    ghost predicate SlotsHold()
      reads this
      requires TasksNumbered()
    {
      && (clearStatusMessage.Some? ==> clearStatusMessage.value in tasks && tasks[clearStatusMessage.value] == StatusExpiry)
      && (currentPagination.Some? ==> currentPagination.value in tasks && tasks[currentPagination.value].BackPagination?)
      && (forall t :: t in running && tasks[t] == StatusExpiry ==> clearStatusMessage == Some(t))
      && (forall t :: t in running && tasks[t].BackPagination? ==> currentPagination == Some(t))
    }

    /** Every room with a timeline is in `uiRooms` (the listener extends
        `uiRooms` first and `timelines` after, in two lock regions), and each
        timeline's task is that room's feeder. */
    ghost predicate RegistryHolds()
      reads this
      requires TasksNumbered()
    {
      && timelines.Keys <= uiRooms.Keys
      && (forall id :: id in uiRooms ==> uiRooms[id].id == id)
      && (forall id :: id in timelines ==> timelines[id].task in tasks && tasks[timelines[id].task] == TimelineFeeder(id))
      && (currentRoomSubscription.Some? ==> currentRoomSubscription.value.id in uiRooms)
    }

    ghost predicate Valid()
      reads this
    {
      && TasksNumbered()
      && listenTask in tasks && tasks[listenTask] == RoomListListener
      && SlotsHold()
      && RegistryHolds()
    }

    /** The expiry tasks that are pending. */
    ghost function PendingExpiries(): (pending: set<TaskId>)
      reads this
      requires TasksNumbered()
    {
      set t | t in running && tasks[t] == StatusExpiry
    }

    /** The back-paginations that are pending. */
    ghost function PendingPaginations(): (pending: set<TaskId>)
      reads this
      requires TasksNumbered()
    {
      set t | t in running && tasks[t].BackPagination?
    }

    /** The single-slot invariant: at most one pending expiry, at most one
        pending back-pagination. */
    lemma AtMostOnePending()
      requires Valid()
      ensures |PendingExpiries()| <= 1 && |PendingPaginations()| <= 1
    {
      AtMostOne(PendingExpiries(), clearStatusMessage);
      AtMostOne(PendingPaginations(), currentPagination);
    }

    /** `App::new`: empty projections, the room-list listener spawned, the
        default details mode, and the sync service started. */
    constructor (list: StatefulList<Room>)
      requires list.items == [] && list.selected == None
      ensures Valid() && roomList == list
      ensures uiRooms == map[] && timelines == map[] && roomInfo == map[]
      ensures lastStatusMessage == None && clearStatusMessage == None && currentPagination == None
      ensures currentRoomSubscription == None && detailsMode == DefaultDetailsMode
      ensures running == {listenTask} && commands == [StartSyncService]
    {
      roomList := list;
      uiRooms, timelines, roomInfo := map[], map[], map[];
      lastStatusMessage, clearStatusMessage := None, None;
      detailsMode := DefaultDetailsMode;
      currentRoomSubscription, currentPagination := None, None;
      listenTask := 0;
      nextTask := 1;
      tasks := map[0 := RoomListListener];
      running := {0};
      commands := [StartSyncService];
    }

    /** Hands out a new task handle. */
    method Spawn(kind: TaskKind) returns (t: TaskId)
      requires TasksNumbered()
      modifies this`nextTask, this`tasks, this`running
      ensures TasksNumbered()
      ensures t == old(nextTask) && nextTask == t + 1 && t !in old(tasks)
      ensures tasks == old(tasks)[t := kind] && running == old(running) + {t}
    {
      t := nextTask;
      nextTask := nextTask + 1;
      tasks := tasks[t := kind];
      running := running + {t};
    }

    /** `JoinHandle::abort`: harmless on a task that already ended. */
    method Abort(t: TaskId)
      modifies this`running
      ensures running == old(running) - {t}
    {
      running := running - {t};
    }

    /** `get_selected_room_id`: the room at the explicit index if one is
        given, else at the cursor; `None` when that index is out of range. */
    function SelectedRoomId(explicit: Option<nat>): (r: Option<RoomId>)
      reads roomList
      ensures explicit.Some? ==>
                (r.Some? <==> explicit.value < |roomList.items|)
                && (r.Some? ==> r.value == roomList.items[explicit.value].id)
      ensures explicit.None? ==>
                (r.Some? <==> roomList.selected.Some? && roomList.selected.value < |roomList.items|)
                && (r.Some? ==> r.value == roomList.items[roomList.selected.value].id)
    {
      var selected := if explicit.Some? then explicit else roomList.selected;
      match selected
      case None => None
      case Some(i) => if i < |roomList.items| then Some(roomList.items[i].id) else None
    }

    /** What `set_status_message` does to the tasks, relative to the slot, the
        next handle, the tasks and the running set before it: the previous
        clear task, if any, is aborted and a new one takes the slot. No other
        task is touched. */
    ghost predicate ExpiryRestarted(oldClear: Option<TaskId>, oldNext: TaskId,
                                    oldTasks: map<TaskId, TaskKind>, oldRunning: set<TaskId>)
      reads this
    {
      && clearStatusMessage == Some(oldNext)
      && tasks == oldTasks[oldNext := StatusExpiry]
      && running == (oldRunning - SlotIds(oldClear)) + {oldNext}
    }

    /** The subscription and the requests after a cursor step that reported
        `moved`: untouched without a real move; otherwise the subscription is
        switched to the newly selected room, with a subscribe request, when
        that room is registered, and dropped when it is not. */
    ghost predicate Resubscribed(moved: Option<nat>, oldSubscription: Option<Room>, oldCommands: seq<Command>)
      reads this, roomList
    {
      if moved.None? then currentRoomSubscription == oldSubscription && commands == oldCommands
      else
        var id := SelectedRoomId(moved);
        if id.Some? && id.value in uiRooms then
          currentRoomSubscription == Some(uiRooms[id.value]) && commands == oldCommands + [SubscribeToRooms([id.value])]
        else
          currentRoomSubscription == None && commands == oldCommands
    }

    /** The session as a `SessionState` value. */
    ghost function Current(): (now: SessionState)
      reads this, roomList
    {
      SessionState(detailsMode, roomList.selected, currentRoomSubscription, lastStatusMessage, clearStatusMessage,
                   currentPagination, nextTask, tasks, running, commands)
    }

    /** The effect of a key that does not work on a room, from `before`: `j`
        and `k` move the cursor and, on a real move, resubscribe; `s`, `S` and
        `Q` each send one request to the sync service; the mode keys switch
        the details mode; nothing else changes, the status line and the tasks
        least of all. */
    ghost predicate LocalDone(action: Action, sendQueueEnabled: bool, before: SessionState)
      reads this, roomList
    {
      && detailsMode == ModeAfter(before.mode, action)
      && roomList.selected ==
        (if action.SelectNext? then NextStep(|roomList.items|, before.selected).selection
        else if action.SelectPrevious? then PreviousStep(|roomList.items|, before.selected).selection
        else before.selected)
      && (action.SelectNext? || action.SelectPrevious? ==>
        Resubscribed((if action.SelectNext? then NextStep(|roomList.items|, before.selected)
                      else PreviousStep(|roomList.items|, before.selected)).moved,
                     before.subscription, before.commands))
      && (!(action.SelectNext? || action.SelectPrevious?) ==> currentRoomSubscription == before.subscription)
      && (action.StartSync? || action.StopSync? || action.ToggleSendQueue? ==>
        commands == before.commands + [SyncCommand(action, sendQueueEnabled)])
      && (action.Quit? || action.ShowDetails? || action.Ignore? ==> commands == before.commands)
      && lastStatusMessage == before.status && clearStatusMessage == before.clearSlot
      && currentPagination == before.pagination
      && nextTask == before.nextTask && tasks == before.tasks && running == before.running
    }

    /** The effect of a key that works on the selected room, from `before`:
        the request it makes (`RoomRequests`), the status it shows with a new
        clear task, or, for `b` on a room with a timeline, a new
        back-pagination in the slot and the status left alone. The cursor, the
        mode and the subscription do not change. */
    ghost predicate RoomDone(action: Action, sdk: SdkOutcomes, before: SessionState)
      reads this, roomList
    {
      var id := SelectedRoomId(None);
      && detailsMode == before.mode && roomList.selected == before.selected
      && currentRoomSubscription == before.subscription
      && commands == before.commands + RoomRequests(action, id, uiRooms.Keys, timelines)
      && (action.SendMessage? ==>
        lastStatusMessage == Some(if id.Some? && id.value in timelines then Reported(sdk.send, MessageSent, SendFailed) else MissingTimeline))
      && (action.ReactToLatest? ==>
        lastStatusMessage == Some(match PlanReaction(id, timelines)
                                  case NoTimeline => MissingTimeline
                                  case NothingToReactTo => NoItemToReactTo
                                  case ReactTo(_, _) => Reported(sdk.reaction, ReactionSent, ReactionFailed)))
      && (action.MarkAsRead? ==>
        lastStatusMessage == Some(if id.Some? && id.value in uiRooms then ReadReceiptStatus(sdk.readReceipt) else MissingRoom))
      && (action.BackPaginate? && !(id.Some? && id.value in timelines) ==> lastStatusMessage == Some(MissingTimeline))
      && if action.BackPaginate? && id.Some? && id.value in timelines then
           && lastStatusMessage == before.status && clearStatusMessage == before.clearSlot
           && currentPagination == Some(before.nextTask)
           && tasks == before.tasks[before.nextTask := BackPagination(id.value, PaginationBatch)]
           && running == (before.running - SlotIds(before.pagination)) + {before.nextTask}
         else
           && currentPagination == before.pagination
           && ExpiryRestarted(before.clearSlot, before.nextTask, before.tasks, before.running)
    }

    /** `set_status_message`: aborts the pending clear task, shows the text,
        and schedules exactly one new clear task. */
    method SetStatusMessage(status: string)
      requires Valid()
      modifies this`lastStatusMessage, this`clearStatusMessage, this`nextTask, this`tasks, this`running
      ensures Valid()
      ensures lastStatusMessage == Some(status)
      ensures ExpiryRestarted(old(clearStatusMessage), old(nextTask), old(tasks), old(running))
      ensures PendingExpiries() == {old(nextTask)}
    {
      if clearStatusMessage.Some? {
        Abort(clearStatusMessage.value);
      }
      clearStatusMessage := None;
      lastStatusMessage := Some(status);
      var t := Spawn(StatusExpiry);
      clearStatusMessage := Some(t);
      assert PendingExpiries() == {t};
    }

    /** The clear task wakes after its delay and clears the message. Only the
        task held in the slot can still be pending, so a message is cleared by
        the expiry of the latest call and by no earlier one. */
    method ExpireStatusMessage(t: TaskId)
      requires Valid()
      requires t in running && tasks[t] == StatusExpiry
      modifies this`lastStatusMessage, this`running
      ensures Valid()
      ensures clearStatusMessage == Some(t)
      ensures lastStatusMessage == None && running == old(running) - {t}
      ensures PendingExpiries() == {}
    {
      lastStatusMessage := None;
      running := running - {t};
    }

    /** `back_paginate`: without a timeline for the selected room, only the
        status changes; otherwise the previous back-pagination is aborted and
        a new one, for 20 events, takes the slot. */
    method BackPaginate()
      requires Valid()
      modifies this`lastStatusMessage, this`clearStatusMessage, this`currentPagination,
               this`nextTask, this`tasks, this`running
      ensures Valid()
      ensures var selected := SelectedRoomId(None);
              if selected.None? || selected.value !in timelines then
                && lastStatusMessage == Some(MissingTimeline)
                && currentPagination == old(currentPagination)
                && ExpiryRestarted(old(clearStatusMessage), old(nextTask), old(tasks), old(running))
              else
                && lastStatusMessage == old(lastStatusMessage)
                && clearStatusMessage == old(clearStatusMessage)
                && currentPagination == Some(old(nextTask))
                && tasks == old(tasks)[old(nextTask) := BackPagination(selected.value, PaginationBatch)]
                && running == (old(running) - SlotIds(old(currentPagination))) + {old(nextTask)}
    {
      var selected := SelectedRoomId(None);
      if selected.None? || selected.value !in timelines {
        SetStatusMessage(MissingTimeline);
        return;
      }
      RestartPagination(selected.value);
    }

    /** The second half of `back_paginate`: the previous back-pagination, if
        any, is aborted, and a new one for `room` takes the slot; it is then
        the only one pending. */
    method RestartPagination(room: RoomId)
      requires Valid()
      modifies this`currentPagination, this`nextTask, this`tasks, this`running
      ensures Valid()
      ensures currentPagination == Some(old(nextTask))
      ensures tasks == old(tasks)[old(nextTask) := BackPagination(room, PaginationBatch)]
      ensures running == (old(running) - SlotIds(old(currentPagination))) + {old(nextTask)}
      ensures PendingPaginations() == {old(nextTask)}
    {
      if currentPagination.Some? {
        Abort(currentPagination.value);
      }
      currentPagination := None;
      var t := Spawn(BackPagination(room, PaginationBatch));
      currentPagination := Some(t);
      assert PendingPaginations() == {t};
    }

    /** A back-pagination task ends. Its failure is only logged, so the
        status line is untouched; and only the latest one can still end. */
    method PaginationEnds(t: TaskId, outcome: SdkResult<()>)
      requires Valid()
      requires t in running && tasks[t].BackPagination?
      modifies this`running
      ensures Valid()
      ensures currentPagination == Some(t)
      ensures running == old(running) - {t}
    {
      running := running - {t};
    }

    /** `subscribe_to_selected_room`: the current subscription is always
        dropped; a new one is taken only when the index names a room that has
        its timeline. */
    method SubscribeToSelectedRoom(selected: nat)
      requires Valid()
      modifies this`currentRoomSubscription, this`commands
      ensures Valid()
      ensures var id := SelectedRoomId(Some(selected));
              if id.Some? && id.value in uiRooms then
                && currentRoomSubscription == Some(uiRooms[id.value])
                && commands == old(commands) + [SubscribeToRooms([id.value])]
              else
                && currentRoomSubscription == None
                && commands == old(commands)
    {
      currentRoomSubscription := None;
      var id := SelectedRoomId(Some(selected));
      if id.Some? && id.value in uiRooms {
        var room := uiRooms[id.value];
        commands := commands + [SubscribeToRooms([room.id])];
        currentRoomSubscription := Some(room);
      }
    }

    /** The `j`/`k` keys: move the cursor and, only on a real move, switch the
        room subscription to the newly selected room. */
    method Navigate(forward: bool)
      requires Valid()
      modifies roomList`selected, this`currentRoomSubscription, this`commands
      ensures Valid()
      ensures var step := if forward then NextStep(|roomList.items|, old(roomList.selected))
                          else PreviousStep(|roomList.items|, old(roomList.selected));
              && roomList.selected == step.selection
              && Resubscribed(step.moved, old(currentRoomSubscription), old(commands))
    {
      var moved;
      if forward {
        moved := roomList.Next();
      } else {
        moved := roomList.Previous();
      }
      if moved.Some? {
        SubscribeToSelectedRoom(moved.value);
      }
    }

    /** `mark_as_read`: needs the selected room to have its timeline. */
    method MarkAsRead(outcome: SdkResult<bool>)
      requires Valid()
      modifies this`lastStatusMessage, this`clearStatusMessage, this`nextTask, this`tasks, this`running, this`commands
      ensures Valid()
      ensures commands == old(commands) + RoomRequests(Action.MarkAsRead, SelectedRoomId(None), uiRooms.Keys, timelines)
      ensures ExpiryRestarted(old(clearStatusMessage), old(nextTask), old(tasks), old(running))
      ensures var id := SelectedRoomId(None);
              if id.Some? && id.value in uiRooms then
                && commands == old(commands) + [SendReadReceipt(id.value)]
                && lastStatusMessage == Some(ReadReceiptStatus(outcome))
              else
                && commands == old(commands)
                && lastStatusMessage == Some(MissingRoom)
    {
      var id := SelectedRoomId(None);
      if id.None? || id.value !in uiRooms {
        SetStatusMessage(MissingRoom);
        return;
      }
      commands := commands + [SendReadReceipt(id.value)];
      SetStatusMessage(ReadReceiptStatus(outcome));
    }

    /** `toggle_reaction_to_latest_msg`: reacts to the most recent message of
        the selected room's timeline; no SDK call is made when the timeline
        is missing or holds no message. */
    method ToggleReactionToLatestMsg(outcome: SdkResult<()>)
      requires Valid()
      modifies this`lastStatusMessage, this`clearStatusMessage, this`nextTask, this`tasks, this`running, this`commands
      ensures Valid()
      ensures commands == old(commands) + RoomRequests(Action.ReactToLatest, SelectedRoomId(None), uiRooms.Keys, timelines)
      ensures ExpiryRestarted(old(clearStatusMessage), old(nextTask), old(tasks), old(running))
      ensures match PlanReaction(SelectedRoomId(None), timelines)
              case NoTimeline => lastStatusMessage == Some(MissingTimeline) && commands == old(commands)
              case NothingToReactTo => lastStatusMessage == Some(NoItemToReactTo) && commands == old(commands)
              case ReactTo(room, item) =>
                && commands == old(commands) + [ToggleReaction(room, item, ReactionKey)]
                && lastStatusMessage == Some(Reported(outcome, ReactionSent, ReactionFailed))
    {
      var plan := PlanReaction(SelectedRoomId(None), timelines);
      assert RoomRequests(Action.ReactToLatest, SelectedRoomId(None), uiRooms.Keys, timelines) ==
             if plan.ReactTo? then [ToggleReaction(plan.room, plan.item, ReactionKey)] else [];
      match plan
      case NoTimeline =>
        SetStatusMessage(MissingTimeline);
      case NothingToReactTo =>
        SetStatusMessage(NoItemToReactTo);
      case ReactTo(room, item) =>
        commands := commands + [ToggleReaction(room, item, ReactionKey)];
        SetStatusMessage(Reported(outcome, ReactionSent, ReactionFailed));
    }

    /** The `M` key: send a text message to the selected room's timeline. */
    method SendMessage(outcome: SdkResult<()>)
      requires Valid()
      modifies this`lastStatusMessage, this`clearStatusMessage, this`nextTask, this`tasks, this`running, this`commands
      ensures Valid()
      ensures commands == old(commands) + RoomRequests(Action.SendMessage, SelectedRoomId(None), uiRooms.Keys, timelines)
      ensures ExpiryRestarted(old(clearStatusMessage), old(nextTask), old(tasks), old(running))
      ensures var id := SelectedRoomId(None);
              if id.Some? && id.value in timelines then
                && commands == old(commands) + [SendText(id.value)]
                && lastStatusMessage == Some(Reported(outcome, MessageSent, SendFailed))
              else
                && commands == old(commands)
                && lastStatusMessage == Some(MissingTimeline)
    {
      var id := SelectedRoomId(None);
      if id.None? || id.value !in timelines {
        SetStatusMessage(MissingTimeline);
        return;
      }
      commands := commands + [SendText(id.value)];
      SetStatusMessage(Reported(outcome, MessageSent, SendFailed));
    }

    /** One key event of the render loop. Returns whether the loop ends.
        Moving the cursor and asking the sync service leave the status line
        alone; quitting, switching modes and ignored keys change nothing but
        the mode. */
    method HandleKey(kind: KeyEventKind, code: KeyCode, sdk: SdkOutcomes) returns (quit: bool)
      requires Valid()
      modifies roomList`selected, this`detailsMode, this`currentRoomSubscription, this`lastStatusMessage,
               this`clearStatusMessage, this`currentPagination, this`nextTask, this`tasks, this`running, this`commands
      ensures Valid()
      ensures quit <==> Dispatch(kind, code, old(detailsMode)).Quit?
      ensures roomList.items == old(roomList.items)
      ensures uiRooms == old(uiRooms) && timelines == old(timelines) && roomInfo == old(roomInfo)
      ensures var a := Dispatch(kind, code, old(detailsMode));
              !(a.SendMessage? || a.ReactToLatest? || a.BackPaginate? || a.MarkAsRead?) ==>
                LocalDone(a, sdk.sendQueueEnabled, old(Current()))
      ensures var a := Dispatch(kind, code, old(detailsMode));
              (a.SendMessage? || a.ReactToLatest? || a.BackPaginate? || a.MarkAsRead?) ==>
                RoomDone(a, sdk, old(Current()))
    {
      var action := Dispatch(kind, code, detailsMode);
      quit := action.Quit?;
      Perform(action, sdk);
    }

    /** Carries out a dispatched action: the keys that work on the selected
        room through `RoomAction`, the others through `LocalAction`. */
    method Perform(action: Action, sdk: SdkOutcomes)
      requires Valid()
      modifies roomList`selected, this`detailsMode, this`currentRoomSubscription, this`lastStatusMessage,
               this`clearStatusMessage, this`currentPagination, this`nextTask, this`tasks, this`running, this`commands
      ensures Valid()
      ensures roomList.items == old(roomList.items)
      ensures uiRooms == old(uiRooms) && timelines == old(timelines) && roomInfo == old(roomInfo)
      ensures !(action.SendMessage? || action.ReactToLatest? || action.BackPaginate? || action.MarkAsRead?) ==>
                LocalDone(action, sdk.sendQueueEnabled, old(Current()))
      ensures (action.SendMessage? || action.ReactToLatest? || action.BackPaginate? || action.MarkAsRead?) ==>
                RoomDone(action, sdk, old(Current()))
    {
      if action.SendMessage? || action.ReactToLatest? || action.BackPaginate? || action.MarkAsRead? {
        RoomAction(action, sdk);
      } else {
        LocalAction(action, sdk.sendQueueEnabled);
      }
    }

    /** The keys that do not touch the status line: moving the cursor, asking
        the sync service, switching modes, quitting and ignored keys. */
    method LocalAction(action: Action, sendQueueEnabled: bool)
      requires Valid()
      requires !(action.SendMessage? || action.ReactToLatest? || action.BackPaginate? || action.MarkAsRead?)
      modifies roomList`selected, this`detailsMode, this`currentRoomSubscription, this`commands
      ensures Valid()
      ensures LocalDone(action, sendQueueEnabled, old(Current()))
    {
      if action.SelectNext? || action.SelectPrevious? {
        Navigate(action.SelectNext?);
      } else if action.StartSync? || action.StopSync? || action.ToggleSendQueue? {
        AskSyncService(SyncCommand(action, sendQueueEnabled));
      } else if action.ShowDetails? {
        SwitchMode(action.mode);
      }
    }

    /** A request to the sync service (`start`, `stop`, the send queue). */
    method AskSyncService(c: Command)
      requires Valid()
      modifies this`commands
      ensures Valid()
      ensures commands == old(commands) + [c]
    {
      commands := commands + [c];
    }

    /** The `r`, `t`, `e` and `l` keys. */
    method SwitchMode(mode: DetailsMode)
      requires Valid()
      modifies this`detailsMode
      ensures Valid()
      ensures detailsMode == mode
    {
      detailsMode := mode;
    }

    /** The keys that act on the selected room and report on the status line:
        `M`, `L`, `b` and `m`. */
    method RoomAction(action: Action, sdk: SdkOutcomes)
      requires Valid()
      requires action.SendMessage? || action.ReactToLatest? || action.BackPaginate? || action.MarkAsRead?
      modifies this`lastStatusMessage, this`clearStatusMessage, this`currentPagination,
               this`nextTask, this`tasks, this`running, this`commands
      ensures Valid()
      ensures RoomDone(action, sdk, old(Current()))
    {
      match action
      case SendMessage => SendMessage(sdk.send);
      case ReactToLatest => ToggleReactionToLatestMsg(sdk.reaction);
      case BackPaginate => BackPaginate();
      case MarkAsRead => MarkAsRead(sdk.readReceipt);
    }

    /** `render_right`: the panel for the selected room in the current details
        mode. */
    function View(): (v: RoomView)
      reads this, roomList
      ensures SelectedRoomId(None).None? ==> v == Paragraph(NothingToSee)
      ensures v.Lines? <==> detailsMode == TimelineItems && SelectedRoomId(None).Some? && SelectedRoomId(None).value in timelines
      ensures v.Lines? ==> v.lines == TimelineLines(timelines[SelectedRoomId(None).value].items)
      ensures v.ReceiptsOf? ==> detailsMode == ReadReceipts && SelectedRoomId(None) == Some(v.room) && v.room in uiRooms
      ensures v.EventsOf? ==> detailsMode == Events && SelectedRoomId(None) == Some(v.room) && v.room in uiRooms
      ensures v.ChunksOf? ==> detailsMode == LinkedChunk && SelectedRoomId(None) == Some(v.room) && v.room in uiRooms
      ensures v.Paragraph? && SelectedRoomId(None).Some? ==>
                v.text == (if detailsMode == TimelineItems then TimelineDisappeared else RoomDisappeared)
    {
      match SelectedRoomId(None)
      case None => Paragraph(NothingToSee)
      case Some(id) =>
        match detailsMode
        case TimelineItems =>
          if id in timelines then Lines(TimelineLines(timelines[id].items)) else Paragraph(TimelineDisappeared)
        case ReadReceipts => if id in uiRooms then ReceiptsOf(id) else Paragraph(RoomDisappeared)
        case Events => if id in uiRooms then EventsOf(id) else Paragraph(RoomDisappeared)
        case LinkedChunk => if id in uiRooms then ChunksOf(id) else Paragraph(RoomDisappeared)
    }

    /** When the panel falls back to a "disappeared" paragraph: in the
        timeline mode exactly when the selected room has no timeline, in the
        other modes exactly when it is not registered. A room with a timeline
        is shown in every mode; a room registered but whose timeline is not
        yet merged (between the listener's two extends) is shown in every mode
        but the timeline mode. */
    lemma WhenRoomDisappears()
      requires Valid() && SelectedRoomId(None).Some?
      ensures detailsMode == TimelineItems ==> (View().Paragraph? <==> SelectedRoomId(None).value !in timelines)
      ensures detailsMode != TimelineItems ==> (View().Paragraph? <==> SelectedRoomId(None).value !in uiRooms)
      ensures SelectedRoomId(None).value in timelines ==> !View().Paragraph?
    {
    }

    /** `render_timeline`: the lines of a room's timeline, or `None` when the
        room has no timeline (the caller then shows that it disappeared). */
    method RenderTimeline(room: RoomId) returns (content: Option<seq<string>>)
      ensures content.None? <==> room !in timelines
      ensures content.Some? ==> content.value == TimelineLines(timelines[room].items)
    {
      if room !in timelines {
        return None;
      }
      var lines := RenderLines(timelines[room].items);
      content := Some(lines);
    }

    /** One batch of the room-list listener: the diffs are applied to the
        room list, every room of the resulting snapshot gets its projection
        entry overwritten with what its handle answers now (`live`), and
        every room not yet registered whose timeline can be set up gets its
        timeline and a feeder task. The status line, the
        selection, the subscription and the two slots are left alone. */
    method Reconcile(diffs: seq<Diff<Room>>, live: RoomId -> RoomState,
                     init: RoomId -> Option<seq<TimelineItem>>)
      requires Valid()
      requires ApplyBatch(roomList.items, diffs).Some?
      modifies roomList`items, this`roomInfo, this`uiRooms, this`timelines,
               this`nextTask, this`tasks, this`running
      ensures Valid()
      ensures roomList.items == ApplyBatch(old(roomList.items), diffs).value
      ensures roomList.selected == old(roomList.selected)
      ensures roomInfo == RecordInfos(old(roomInfo), roomList.items, live)
      ensures uiRooms == old(uiRooms) + NewRooms(old(uiRooms), roomList.items, init)
      ensures forall id :: id in old(timelines) ==> id in timelines && timelines[id] == old(timelines)[id]
      ensures forall id :: id in timelines && id !in old(timelines) ==>
                init(id).Some? && timelines[id].items == init(id).value && timelines[id].task in running
      ensures forall t :: t in tasks && t !in old(tasks) ==> tasks[t].TimelineFeeder?
      ensures old(running) <= running
      ensures roomInfo.Keys == old(roomInfo).Keys + Ids(roomList.items)
      ensures forall k :: 0 <= k < |roomList.items| && init(roomList.items[k].id).Some? ==> roomList.items[k].id in uiRooms
      ensures old(timelines).Keys == old(uiRooms).Keys ==> timelines.Keys == uiRooms.Keys
    {
      ApplyRoomDiffs(diffs);
      RecordRoomInfos(roomList.items, live);
      RecordInfosKeys(old(roomInfo), roomList.items, live);
      RegisterBatch(roomList.items, init);
    }

    /** The listener's second half: timelines set up for the snapshot's new
        rooms, then `ui_rooms` extended, then `timelines` extended. */
    method RegisterBatch(rooms: seq<Room>, init: RoomId -> Option<seq<TimelineItem>>)
      requires Valid()
      modifies this`uiRooms, this`timelines, this`nextTask, this`tasks, this`running
      ensures Valid()
      ensures uiRooms == old(uiRooms) + NewRooms(old(uiRooms), rooms, init)
      ensures forall id :: id in old(timelines) ==> id in timelines && timelines[id] == old(timelines)[id]
      ensures forall id :: id in timelines && id !in old(timelines) ==>
                init(id).Some? && timelines[id].items == init(id).value && timelines[id].task in running
      ensures forall t :: t in tasks && t !in old(tasks) ==> tasks[t].TimelineFeeder?
      ensures old(running) <= running
      ensures forall k :: 0 <= k < |rooms| && init(rooms[k].id).Some? ==> rooms[k].id in uiRooms
      ensures old(timelines).Keys == old(uiRooms).Keys ==> timelines.Keys == uiRooms.Keys
    {
      var newUiRooms, newTimelines := SetUpTimelines(rooms, init);
      RegisterRooms(newUiRooms);
      RegisterTimelines(newTimelines);
      EveryInitialisableRoomRegistered(old(uiRooms), rooms, init);
    }

    /** The listener's first lock region: the batch applied to the room list.
        The cursor is not touched, so it may now point past the end. */
    method ApplyRoomDiffs(diffs: seq<Diff<Room>>)
      requires Valid()
      requires ApplyBatch(roomList.items, diffs).Some?
      modifies roomList`items
      ensures Valid()
      ensures roomList.items == ApplyBatch(old(roomList.items), diffs).value
    {
      var rooms := ApplyAll(roomList.items, diffs);
      roomList.items := rooms;
    }

    /** One lock region of the listener's first loop: a room's projection
        entry, all three fields at once. */
    method RecordRoomInfo(room: Room, state: RoomState)
      requires Valid()
      modifies this`roomInfo
      ensures Valid()
      ensures roomInfo == old(roomInfo)[room.id := InfoOf(state)]
    {
      roomInfo := roomInfo[room.id := InfoOf(state)];
    }

    /** The listener's first loop over the snapshot: one projection entry
        written per room, in order. */
    method RecordRoomInfos(rooms: seq<Room>, live: RoomId -> RoomState)
      requires Valid()
      modifies this`roomInfo
      ensures Valid()
      ensures roomInfo == RecordInfos(old(roomInfo), rooms, live)
    {
      for k := 0 to |rooms|
        invariant Valid()
        invariant roomInfo == RecordInfos(old(roomInfo), rooms[..k], live)
      {
        RecordInfosSnoc(old(roomInfo), rooms[..k], rooms[k], live);
        assert rooms[..k + 1] == rooms[..k] + [rooms[k]];
        RecordRoomInfo(rooms[k], live(rooms[k].id));
      }
      assert rooms[..|rooms|] == rooms;
    }

    /** The listener's `ui_rooms` extend: the batch's registrations. */
    method RegisterRooms(newUiRooms: map<RoomId, Room>)
      requires Valid()
      requires forall id :: id in newUiRooms ==> newUiRooms[id].id == id
      modifies this`uiRooms
      ensures Valid()
      ensures uiRooms == old(uiRooms) + newUiRooms
    {
      uiRooms := uiRooms + newUiRooms;
    }

    /** The listener's `timelines` extend, a lock region of its own after the
        `ui_rooms` one: the batch's timelines, each of a registered room. */
    method RegisterTimelines(newTimelines: map<RoomId, Timeline>)
      requires Valid()
      requires newTimelines.Keys <= uiRooms.Keys
      requires forall id :: id in newTimelines ==>
                 newTimelines[id].task in tasks && tasks[newTimelines[id].task] == TimelineFeeder(id)
      modifies this`timelines
      ensures Valid()
      ensures timelines == old(timelines) + newTimelines
    {
      timelines := timelines + newTimelines;
    }

    /** The feeder task of a room whose timeline was just built. */
    method SpawnFeeder(room: RoomId) returns (t: TaskId)
      requires Valid()
      modifies this`nextTask, this`tasks, this`running
      ensures Valid()
      ensures t == old(nextTask) && t !in old(tasks)
      ensures tasks == old(tasks)[t := TimelineFeeder(room)] && running == old(running) + {t}
    {
      t := Spawn(TimelineFeeder(room));
    }

    /** The listener's second loop: for every room of the snapshot not yet
        registered whose timeline can be set up, a feeder task is spawned; the
        registrations and timelines are collected apart and returned. */
    method SetUpTimelines(rooms: seq<Room>, init: RoomId -> Option<seq<TimelineItem>>)
        returns (newUiRooms: map<RoomId, Room>, newTimelines: map<RoomId, Timeline>)
      requires Valid()
      modifies this`nextTask, this`tasks, this`running
      ensures Valid()
      ensures newUiRooms == NewRooms(uiRooms, rooms, init)
      ensures newTimelines.Keys == newUiRooms.Keys
      ensures forall id :: id in newTimelines ==>
                && init(id).Some? && newTimelines[id].items == init(id).value
                && newTimelines[id].task in running
                && newTimelines[id].task in tasks && tasks[newTimelines[id].task] == TimelineFeeder(id)
      ensures forall t :: t in old(tasks) ==> t in tasks && tasks[t] == old(tasks)[t]
      ensures forall t :: t in tasks && t !in old(tasks) ==> tasks[t].TimelineFeeder?
      ensures old(running) <= running
    {
      newUiRooms, newTimelines := map[], map[];
      for k := 0 to |rooms|
        invariant Valid()
        invariant newUiRooms == NewRooms(uiRooms, rooms[..k], init)
        invariant newTimelines.Keys == newUiRooms.Keys
        invariant forall id :: id in newTimelines ==>
                    && init(id).Some? && newTimelines[id].items == init(id).value
                    && newTimelines[id].task in running
                    && newTimelines[id].task in tasks && tasks[newTimelines[id].task] == TimelineFeeder(id)
        invariant forall t :: t in old(tasks) ==> t in tasks && tasks[t] == old(tasks)[t]
        invariant forall t :: t in tasks && t !in old(tasks) ==> tasks[t].TimelineFeeder?
        invariant old(running) <= running
      {
        assert rooms[..k + 1][..k] == rooms[..k];
        var room := rooms[k];
        if room.id !in uiRooms {
          var items := init(room.id);
          if items.Some? {
            var t := SpawnFeeder(room.id);
            newTimelines := newTimelines[room.id := Timeline(items.value, t)];
            newUiRooms := newUiRooms[room.id := room];
          }
        }
      }
      assert rooms[..|rooms|] == rooms;
    }

    /** A timeline feeder applies one diff batch to its room's items. */
    method FeedTimeline(room: RoomId, diffs: seq<Diff<TimelineItem>>)
      requires Valid()
      requires room in timelines && timelines[room].task in running
      requires ApplyBatch(timelines[room].items, diffs).Some?
      modifies this`timelines
      ensures Valid()
      ensures timelines == old(timelines)[room := Timeline(ApplyBatch(old(timelines)[room].items, diffs).value,
                                                           old(timelines)[room].task)]
    {
      var items := ApplyAll(timelines[room].items, diffs);
      timelines := timelines[room := Timeline(items, timelines[room].task)];
    }

    /** Shutting down: the listener and every feeder of a registered
        timeline are aborted. */
    method Shutdown()
      requires Valid()
      modifies this`running, this`commands
      ensures Valid()
      ensures commands == old(commands) + [StopSyncService]
      ensures listenTask !in running
      ensures forall id :: id in timelines ==> timelines[id].task !in running
      ensures running <= old(running)
    {
      commands := commands + [StopSyncService];
      running := running - {listenTask} - (set id | id in timelines :: timelines[id].task);
    }
  }

  /** A set of handles that all sit in one slot has at most one element. */
  lemma AtMostOne(s: set<TaskId>, slot: Option<TaskId>)
    requires forall t :: t in s ==> slot == Some(t)
    ensures |s| <= 1
  {
    if s != {} {
      var t :| t in s;
      assert s == {t};
    }
  }

  /** The handle in a slot, as a set. */
  function SlotIds(slot: Option<TaskId>): (ids: set<TaskId>) {
    if slot.Some? then {slot.value} else {}
  }
}
