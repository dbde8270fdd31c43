# multiverse: a verified model of the terminal client's UI state

`multiverse` is a terminal Matrix client built on the Matrix Rust SDK. This
project models the layer of UI-state logic inside it. Terminal drawing, login
and the SDK itself are not modelled. The model covers:

- the room list's selection cursor (`StatefulList::next` / `previous`);
- the session controller `App`, with these single-slot pieces of work:
  - the status message and its expiry task;
  - the one in-flight back-pagination;
  - the current room subscription;
- the key dispatch of the render loop, which depends on the details mode;
- the reaction-target lookup, and the `mark_as_read` and message-send flows;
- the room-list listener's reconciliation of one diff batch:
  - the room projection (`room_info`) is overwritten;
  - new rooms get their timeline and a feeder task;
  - `ui_rooms` and `timelines` are only ever extended;
- the text the panels show:
  - room labels (`#{i}{dm} {name}`);
  - one line per timeline item;
  - the right-panel fallbacks;
  - the footer help lines.

Modules, one per file:

- `Basics` (basics.dfy): `Option` and the decimal rendering of an index.
- `VectorDiff` (vector_diff.dfy): a minimal vector-diff type and its in-order application.
- `SelectableList` (stateful_list.dfy): the cursor, as step functions and as the `StatefulList` class.
- `TimelineItems` (timeline_items.dfy): the timeline item union, line rendering and the latest-message lookup.
- `RoomInfo` (room_info.dfy): `ExtraRoomInfo`, the per-batch overwrite of the projection, and labels.
- `RoomListPanel` (room_list_panel.dfy): the rows of the room list panel.
- `UiRooms` (ui_rooms.dfy): which rooms a batch registers.
- `Details` (details.dfy): the details mode, key dispatch and the footer.
- `Multiverse` (app.dfy): the `App` class.

How the model works:

- **Tasks** are abstract handles (`TaskId`).
  - A ghost map `tasks` records what each spawned task does.
  - A ghost set `running` holds the tasks neither aborted nor finished.
  - `App.Valid()` holds the slot invariants: a running status-expiry task is the one in `clearStatusMessage`, and a running back-pagination is the one in `currentPagination`.
- **Mutex-guarded regions** are atomic steps, each a method that keeps `App.Valid()`, so any other operation may run between two of them.
  - The listener's batch (`App.Reconcile`) is the sequence of its regions: the diffs applied to the room list, one projection entry per room, the feeder spawns, the `ui_rooms` extend, then the `timelines` extend.
  - Between the last two, a room is registered but has no timeline yet. The registry invariant therefore only requires every room with a timeline to be registered.
- **SDK outcomes** are method parameters, such as timeline initialisation with its initial items, and the results of read receipts, reactions and sends.
  - A room of the room list is a handle (`Room`) shared with the SDK. Its name, cached display name and DM status are read afresh from the handle on every batch; the model passes what the handles answer during one batch as the function `live` (`RoomState`), so a room's entry changes even when no diff of the batch touched it.
- **A key's effect** is stated against the session before it (`SessionState`): `App.LocalDone` for the keys that leave the status line alone, `App.RoomDone` for the keys that work on the selected room.
- **Requests sent to the SDK** are appended to a ghost `commands` log.

Two behaviours of the code that a reader might not expect:

- **The selection is not clamped by the listener.** The cursor is meant to be `None` or in bounds. Nothing in the listener or the key handler clamps it when a diff batch shrinks the room list. In the model, `App.Reconcile` leaves `roomList.selected` untouched, so the cursor can point past the end. `App.SelectedRoomId` then yields `None`, and `App.View` shows "Nothing to see here...". In the program, ratatui's `List` rendering (main.rs:655) receives the same list state before the right panel is drawn and may clamp the selection there; the model does not capture that.
- **A duplicated id can leave an orphaned feeder.** A timeline entry is meant to be created at most once per room. If a snapshot lists a not-yet-registered room id twice, the code initialises the room twice and spawns two feeders, provided both initialisations succeed. The map then keeps the later entry, so the earlier feeder keeps running without an entry. `App.SetUpTimelines` models this: one feeder is spawned per occurrence, and `UiRooms.NewRoomsTakesLast` shows the last occurrence wins. Across batches no timeline is replaced (`App.Reconcile`, `UiRooms.NoRoomSetUpTwice`). In the model the initialisation outcome is a function of the room id (`init`), so the two occurrences always succeed or fail together; that is an assumption of the model, not a property of the SDK.

## Model

| member | source | states |
|---|---|---|
| Basics.Decimal | labs/multiverse/src/main.rs:636 | the index in a label is written with at least one digit, digits only, with no leading zero, and the digits' decimal value is the index; it has one digit exactly when the index is below 10 |
| VectorDiff.Apply | labs/multiverse/src/main.rs:192-194 | a diff applies exactly when its index is in bounds (insert up to the length, set and remove below it, truncate to at most it). `Append` concatenates; `Clear` empties; `PushFront`/`PushBack` add the element at that end; `PopFront`/`PopBack` drop that end's element, and leave an empty vector empty; `Insert`, `Set` and `Remove` insert, replace or remove exactly that element and keep the others in order; `Truncate` keeps a prefix of the given length; `Reset` replaces the whole vector |
| VectorDiff.ApplyBatch | labs/multiverse/src/main.rs:192-194 | an empty batch changes nothing, and a one-diff batch is that diff's application |
| VectorDiff.BatchConcat | labs/multiverse/src/main.rs:192-194 | applying two batches one after the other is applying their concatenation, including when the first fails |
| VectorDiff.BatchSnoc | labs/multiverse/src/main.rs:192-194 | a batch with one more diff is the batch followed by that diff |
| VectorDiff.ApplyAll | labs/multiverse/src/main.rs:192-194 | the `for diff in diffs` loop yields the in-order application of the whole batch |
| SelectableList.NextIndex | labs/multiverse/src/main.rs:932 | in a non-empty list: no selection gives 0; the last item or a stale index wraps to 0; otherwise the next index; always in bounds |
| SelectableList.PreviousIndex | labs/multiverse/src/main.rs:956 | in a non-empty list: no selection gives 0 (not the last item); 0 wraps to the last item; otherwise the preceding index; in bounds whenever the previous selection was |
| SelectableList.Settle | labs/multiverse/src/main.rs:924-939 | an empty list clears the cursor and reports no move; otherwise the target is selected and reported exactly when it differs from the previous selection |
| SelectableList.NextStep | labs/multiverse/src/main.rs:921-939 | `next` leaves an in-bounds selection on a non-empty list, clears it on an empty one, and returns `Some(new)` exactly on a real move |
| SelectableList.PreviousStep | labs/multiverse/src/main.rs:945-963 | `previous` clears on an empty list, stays in bounds from an in-bounds or absent selection, and returns `Some(new)` exactly on a real move |
| SelectableList.SingleItemNeverMoves | labs/multiverse/src/main.rs:934-938 | a one-item list with its item selected stays at 0 and reports no move in both directions |
| SelectableList.NextCycles | labs/multiverse/src/main.rs:921-939 | `k` calls of `next` (at most one full round) move an in-bounds cursor `k` places on, wrapping to the first item |
| SelectableList.PreviousCycles | labs/multiverse/src/main.rs:945-963 | `k` calls of `previous` move an in-bounds cursor `k` places back, wrapping to the last item |
| SelectableList.NextTimes | labs/multiverse/src/main.rs:921-939 | zero calls of `next` keep the selection; on an empty list any call clears it; on a non-empty list one or more calls end in bounds |
| SelectableList.PreviousTimes | labs/multiverse/src/main.rs:945-963 | zero calls of `previous` keep the selection; on an empty list any call clears it; from an absent or in-bounds selection one or more calls end in bounds |
| SelectableList.FullRound | labs/multiverse/src/main.rs:921-963 | a full round of `n` calls in either direction returns to the starting item |
| SelectableList.PreviousUndoesNext | labs/multiverse/src/main.rs:921-963 | `previous` undoes `next`, and `next` undoes `previous`, on any in-bounds selection |
| SelectableList.StatefulList.constructor | labs/multiverse/src/main.rs:86-90 | the default list is empty with no selection |
| SelectableList.StatefulList.Next | labs/multiverse/src/main.rs:921-939 | the method's new selection and result are those of `NextStep` on the length and the old selection; a non-empty list ends with an in-bounds selection |
| SelectableList.StatefulList.Previous | labs/multiverse/src/main.rs:945-963 | the method's new selection and result are those of `PreviousStep` on the length and the old selection |
| TimelineItems.LineOf | labs/multiverse/src/main.rs:806-857 | a text message gives `sender: body`; a redacted event `sender: -- redacted --`; an undecryptable one `sender: (UTD)`; other events give no line. A date divider gives `Date: ` and its timestamp, the read marker `Read marker`, the timeline start its own line |
| TimelineItems.IsMessageEvent | labs/multiverse/src/main.rs:357-362 | only events qualify; a message of any message type does; a redacted event, an undecryptable event and any other event (a state event, a membership change) do not |
| TimelineItems.TimelineLines | labs/multiverse/src/main.rs:803-860 | the timeline view never has more lines than items |
| TimelineItems.TimelineLinesConcat | labs/multiverse/src/main.rs:803-860 | the lines of two stretches of items are the lines of each, in order |
| TimelineItems.MarkersAllRender | labs/multiverse/src/main.rs:846-857 | a run of virtual items yields exactly one line per item |
| TimelineItems.RenderLines | labs/multiverse/src/main.rs:800-860 | the push loop builds exactly the timeline view's lines |
| TimelineItems.LatestMessageId | labs/multiverse/src/main.rs:357-362 | the result is absent exactly when no item is a message event. Otherwise it is the identifier of a message event after which no message event follows |
| TimelineItems.LatestMessageAfterAppend | labs/multiverse/src/main.rs:357-362 | new items without a message leave the reaction target unchanged; a new last message becomes the target |
| TimelineItems.NoMessageSuffix | labs/multiverse/src/main.rs:357-362 | appending items without a message leaves the reaction target unchanged |
| RoomInfo.InfoOf | labs/multiverse/src/main.rs:210-224 | a room's entry is what its handle answers during the batch: the raw name, the cached display name, and the DM lookup's outcome, `None` on failure |
| RoomInfo.RecordInfos | labs/multiverse/src/main.rs:210-225 | recording a snapshot keeps every existing key and gives every room of the snapshot an entry |
| RoomInfo.RecordInfosConcat | labs/multiverse/src/main.rs:210-225 | recording two stretches of rooms is recording one after the other |
| RoomInfo.RecordInfosSnoc | labs/multiverse/src/main.rs:210-225 | one more room at the end overwrites that room's entry |
| RoomInfo.RecordInfosKeys | labs/multiverse/src/main.rs:210-225 | after a batch the projection holds exactly the old rooms plus the snapshot's: it is extended, never pruned |
| RoomInfo.RecordInfosOverwrites | labs/multiverse/src/main.rs:210-225 | after a batch every room of the snapshot holds exactly what its handle answered during that batch, whether or not a diff touched the room |
| RoomInfo.RecordInfosKeeps | labs/multiverse/src/main.rs:210-225 | a room outside the snapshot keeps its entry |
| RoomInfo.RoomName | labs/multiverse/src/main.rs:626-632 | the name is the display name with the id, else `m.room.name:` and the raw name with the id, else the bare id |
| RoomInfo.RoomLabel | labs/multiverse/src/main.rs:615-636 | a label starts with `#` and the index. The DM marker follows exactly when the entry says the room is a DM, and the label ends with a space and the room's name; its length is exactly these parts'. A missing entry counts as all-`None` |
| RoomInfo.LabelEndsWithId | labs/multiverse/src/main.rs:626-634 | every label ends with the room id, alone or followed by `)` |
| RoomListPanel.Entries | labs/multiverse/src/main.rs:610-617 | each row takes its room's entry out of the copy of the projection, so there is one entry per row |
| RoomListPanel.Lookup | labs/multiverse/src/main.rs:617 | `remove` finds an entry exactly when the id is in the copy, and it is that id's entry |
| RoomListPanel.Labels | labs/multiverse/src/main.rs:604-640 | the panel has one row per room of the list, and row `k` starts with `#k` |
| RoomListPanel.EntriesAbsent | labs/multiverse/src/main.rs:617-623 | a room whose id is not in the copy is labelled with no entry |
| RoomListPanel.EntriesFirst | labs/multiverse/src/main.rs:610-617 | the first occurrence of an id gets that room's entry from the projection |
| RoomListPanel.EntriesRepeat | labs/multiverse/src/main.rs:610-617 | a later occurrence of an id gets no entry, because the first occurrence removed it |
| RoomListPanel.LabelOfFirstOccurrence | labs/multiverse/src/main.rs:604-636 | row `k` of a first occurrence is its room's label with index `k` and its own entry |
| RoomListPanel.LabelOfRepeat | labs/multiverse/src/main.rs:604-636 | a room id listed again further down is labelled as if it had no entry: no name and no DM marker |
| Details.Dispatch | labs/multiverse/src/main.rs:440-520 | only presses act; `q`/Esc quit; `j`/Down select the next room and `k`/Up the previous one; `s`, `S`, `Q`, `M` and `L` start sync, stop sync, toggle the send queue, send a message and react; `r`/`t`/`e`/`l` always switch to their own mode; `b` back-paginates exactly in the timeline-items and linked-chunk modes and is ignored in the others; `m` marks as read exactly in the read-receipts mode and is ignored in the others; any other character and any other key is ignored |
| Details.ModeAfter | labs/multiverse/src/main.rs:504-507 | a mode key sets its mode, and every other action keeps the current one |
| Details.ModeKeysReachEveryMode | labs/multiverse/src/main.rs:504-507 | each mode key reaches its mode from every mode, and no other key changes the mode |
| Details.HelpIsAccurate | labs/multiverse/src/main.rs:893-914 | every key a mode's help line advertises does something in that mode |
| Details.HelpText | labs/multiverse/src/main.rs:898-911 | every mode's help line starts with the shared opening about moving and the sync service |
| Details.Footer | labs/multiverse/src/main.rs:893-914 | the footer shows the status message while one is set, else the current mode's help line |
| UiRooms.NewRooms | labs/multiverse/src/main.rs:227-271 | every registration of a batch is under its own room's id and is new relative to the previous snapshot |
| UiRooms.NewRoomsKeys | labs/multiverse/src/main.rs:227-271 | a batch registers a room exactly when it is in the snapshot, was not registered, and its timeline initialisation succeeds |
| UiRooms.NewRoomsTakesLast | labs/multiverse/src/main.rs:227-271 | the room registered under an id is its last occurrence in the snapshot |
| UiRooms.EveryInitialisableRoomRegistered | labs/multiverse/src/main.rs:227-274 | after the merge, every room of the snapshot whose timeline can be set up is registered |
| UiRooms.NoRoomSetUpTwice | labs/multiverse/src/main.rs:227-274 | once a batch is merged, the same snapshot registers nothing more |
| Multiverse.PlanReaction | labs/multiverse/src/main.rs:343-376 | "missing timeline" exactly when no room is selected or it has no timeline; "nothing to react to" exactly when its timeline holds no message. Otherwise the target is the latest message event of that timeline |
| Multiverse.RoomRequests | labs/multiverse/src/main.rs:320-376 | a key makes at most one request of the SDK, and only `M`, `L` and `m` with a selected room make one |
| Multiverse.ReadReceiptStatus | labs/multiverse/src/main.rs:330-339 | `did send a read receipt!`, `did not send a read receipt!`, or the error after `error when marking a room as read: ` |
| Multiverse.Reported | labs/multiverse/src/main.rs:364-369 | a send or a reaction reports its success text (`message sent!`, `reaction sent!`), or the error after its prefix (`error when sending event: `, `error when reacting: `; main.rs:488-496 for the send) |
| Multiverse.SyncCommand | labs/multiverse/src/main.rs:459-466 | `s` starts the sync service, `S` stops it, and `Q` sets the send queue to the opposite of its current state |
| Multiverse.AtMostOne | labs/multiverse/src/main.rs:302-317 | handles that all sit in one slot number at most one |
| Multiverse.App.AtMostOnePending | labs/multiverse/src/main.rs:302-317 | at most one status-expiry task and at most one back-pagination are pending at any time |
| Multiverse.App.constructor | labs/multiverse/src/main.rs:158-296 | a new app has empty maps, no status, no subscription, no pagination, the default details mode, only the listener task running, and the sync service started |
| Multiverse.App.Spawn | labs/multiverse/src/main.rs:252 | spawning hands out a fresh handle and marks it running |
| Multiverse.App.Abort | labs/multiverse/src/main.rs:305-306 | aborting stops only the given task and is harmless on a finished one |
| Multiverse.App.SelectedRoomId | labs/multiverse/src/main.rs:410-420 | an explicit index overrides the cursor; the result is that row's room id, or `None` when the index is absent or out of range |
| Multiverse.App.SetStatusMessage | labs/multiverse/src/main.rs:302-317 | the text is shown and the previous clear task is aborted; exactly one new clear task takes the slot and no other task is touched (`ExpiryRestarted`), and it is the only pending one |
| Multiverse.App.ExpireStatusMessage | labs/multiverse/src/main.rs:311-316 | only the clear task held in the slot can fire, and it clears the message |
| Multiverse.App.BackPaginate | labs/multiverse/src/main.rs:380-407 | without a timeline for the selected room, the status changes to "missing timeline for room" and restarts its clear task, with the pagination slot untouched. Otherwise the previous pagination is aborted and a new 20-event one takes the slot, with the status and its clear task untouched |
| Multiverse.App.RestartPagination | labs/multiverse/src/main.rs:390-406 | the old pagination is aborted and the new one is the only one pending |
| Multiverse.App.PaginationEnds | labs/multiverse/src/main.rs:397-405 | a pagination ends without touching the status line, and only the latest one can still end |
| Multiverse.App.SubscribeToSelectedRoom | labs/multiverse/src/main.rs:422-434 | the subscription is always dropped. A new one is taken, and the subscribe request sent, exactly when the index names a registered room |
| Multiverse.App.Navigate | labs/multiverse/src/main.rs:447-457 | `j`/`k` move the cursor as `next`/`previous` do. Without a real move the subscription and the requests are untouched. On a real move the subscription becomes the newly selected room with a subscribe request for it when that room is registered, and is dropped otherwise |
| Multiverse.App.MarkAsRead | labs/multiverse/src/main.rs:320-341 | with a registered selected room, a read receipt is requested and its outcome shown; otherwise "missing room or nothing to show" is shown and nothing is sent. Either way the status's clear task is restarted and no other task is touched |
| Multiverse.App.ToggleReactionToLatestMsg | labs/multiverse/src/main.rs:343-376 | reacts with 🥰 to the latest message and reports the outcome. A missing timeline or a timeline without a message gives its own status and sends nothing. Either way the status's clear task is restarted and no other task is touched |
| Multiverse.App.SendMessage | labs/multiverse/src/main.rs:468-500 | with a timeline for the selected room a message is sent and its outcome shown; otherwise "missing timeline for room" is shown and nothing is sent. Either way the status's clear task is restarted and no other task is touched |
| Multiverse.App.HandleKey | labs/multiverse/src/main.rs:436-520 | the loop ends exactly on `q`/Esc, and no key touches the room list's items, the projection or the registries. Every other key has exactly the effect its flow has: `LocalDone` for the cursor, sync and mode keys, `q` and ignored keys, `RoomDone` for `M`, `L`, `m` and `b` |
| Multiverse.App.LocalAction | labs/multiverse/src/main.rs:446-507 | `LocalDone`: `j`/`k` move the cursor as `next`/`previous` and, on a real move only, switch the subscription to the newly selected room with a subscribe request (dropped for an unregistered room); `s`/`S`/`Q` send their sync request; the mode keys switch the mode; the subscription is kept by every key but `j`/`k`; quitting and ignored keys change nothing; no key here touches the status line, either slot or the tasks |
| Multiverse.App.RoomAction | labs/multiverse/src/main.rs:468-519 | `RoomDone`: `M`, `L` and `m` send exactly their request (a message, the reaction to the latest message, a read receipt) or none when the room, its timeline or a message is missing, show the same status as their flows and restart its clear task; `b` either restarts the pagination with the status untouched or shows "missing timeline for room"; the cursor, the mode and the subscription do not change |
| Multiverse.App.Perform | labs/multiverse/src/main.rs:446-519 | a dispatched action has the effect of its flow: `RoomDone` for the room keys, `LocalDone` for the others, with the room list's items, the projection and the registries untouched |
| Multiverse.App.AskSyncService | labs/multiverse/src/main.rs:459-466 | a sync request is logged and nothing else changes |
| Multiverse.App.SwitchMode | labs/multiverse/src/main.rs:504-507 | the details mode is set |
| Multiverse.App.View | labs/multiverse/src/main.rs:660-785 | the right panel shows "Nothing to see here..." without a selected room. It shows the timeline lines exactly in timeline mode for a room with a timeline, and the SDK views only for registered rooms; otherwise it shows the matching "disappeared" paragraph |
| Multiverse.App.WhenRoomDisappears | labs/multiverse/src/main.rs:660-785 | in timeline mode the panel falls back to "disappeared" exactly when the selected room has no timeline; in the other modes exactly when it is not registered. A room with a timeline is shown in every mode |
| Multiverse.App.RenderTimeline | labs/multiverse/src/main.rs:787-860 | a room without a timeline yields nothing; otherwise the result is its timeline's lines |
| Multiverse.App.Reconcile | labs/multiverse/src/main.rs:187-275 | the batch is applied to the room list and the selection is untouched. Every snapshot room's entry is overwritten with what its handle answers during the batch, and the projection only grows. Exactly the new initialisable rooms are registered, with their initial items and a running feeder; existing timelines are kept unchanged; registries that agreed before agree after |
| Multiverse.App.ApplyRoomDiffs | labs/multiverse/src/main.rs:189-199 | the room list becomes the in-order application of the batch |
| Multiverse.App.RecordRoomInfo | labs/multiverse/src/main.rs:220-223 | one room's entry is written, all three fields at once, from what its handle answers now |
| Multiverse.App.RecordRoomInfos | labs/multiverse/src/main.rs:210-225 | the first loop writes the projection fold over the snapshot |
| Multiverse.App.SetUpTimelines | labs/multiverse/src/main.rs:227-271 | the second loop collects exactly the batch's new registrations, each with its initial items and its own running feeder task |
| Multiverse.App.SpawnFeeder | labs/multiverse/src/main.rs:252-262 | a feeder task gets a fresh handle and runs |
| Multiverse.App.RegisterBatch | labs/multiverse/src/main.rs:227-274 | exactly the new initialisable rooms are registered, each with its initial items and a running feeder; every initialisable room of the snapshot ends registered |
| Multiverse.App.RegisterRooms | labs/multiverse/src/main.rs:272 | the collected rooms extend `ui_rooms` |
| Multiverse.App.RegisterTimelines | labs/multiverse/src/main.rs:273 | the collected timelines, all of registered rooms, extend `timelines` |
| Multiverse.App.FeedTimeline | labs/multiverse/src/main.rs:252-262 | only a running feeder of a registered room applies a batch; it applies it to its own room's items and changes no other timeline |
| Multiverse.App.Shutdown | labs/multiverse/src/main.rs:528-546 | the sync service is stopped, and the listener and every registered feeder are aborted |

## Left out

- VectorDiff: `VectorDiff::apply` comes from the eyeball-im crate, which is not part of this model. The diff type and its semantics are our own minimal reading of it. An out-of-range index, where the crate's vector panics, is `None`, and `App.Reconcile` and `App.FeedTimeline` require a batch that applies.
- Room handles: what a handle answers (`live`) is fixed for the length of one batch, so a name that changes between two reads of the same handle within one batch is not captured. The DM lookup is awaited in the source; its failure is only logged and becomes `None`.
- The room list's dynamic adapters are not modelled: the 50 000-entry page size and the non-left filter belong to the SDK.
- Terminal I/O, layout, colours and the ratatui widgets are not modelled. Only the strings they show are.
  - The selection highlight is not modelled, nor any clamp ratatui may apply to the selection while rendering.
- Debug formatting is a parameter or left out:
  - A date divider's timestamp text is a parameter.
  - The read-receipt paragraph's content is not modelled.
  - The raw-event JSON of the Events mode and the event-cache chunk dump of the LinkedChunk mode become the `EventsOf` and `ChunksOf` views. The `block_on` reads behind them are not modelled.
- Message sending: the text of the sent message ("hey" and the current time) depends on the clock; the model records only that a message was sent.
- Sync and the send queue: starting and stopping sync, and the send-queue toggle, are recorded as commands. Their effect on the backend is not modelled.
- Concurrency: tokio scheduling, sleeping and locking are not modelled. Each guarded region is one atomic step (a method keeping `App.Valid()`), and each task's effect is a separate method (`App.ExpireStatusMessage`, `App.PaginationEnds`, `App.FeedTimeline`).
  - Multiverse.App.PaginationEnds: the error of a failed pagination is only logged by the source, so the outcome is unused.
  - Interleaving is not modelled as a scheduler. Each region keeps `App.Valid()`, so the invariant holds whatever operations run between regions. `App.Reconcile` runs its regions back to back.
  - The listener copies `ui_rooms` (main.rs:204) before its first loop; `App.SetUpTimelines` reads `uiRooms` when it starts. The two agree because the listener is the only writer of `ui_rooms`.
- The read receipt is sent to the room's timeline via `room.timeline().unwrap()`. Every registered room has a timeline, so that unwrap is not modelled as a failure.
- `main`, client configuration, login and session restore are not modelled; they are command-line parsing, file I/O and network.
