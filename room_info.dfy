/** The room projection: the extra information cached for every room of the
    room list (raw name, computed display name, DM flag), how one reconciliation
    batch overwrites it, and how the room list panel turns it into a label. */
module RoomInfo {
  import opened Basics

  /** A room handle of the room list. The handle is shared with the SDK, so
      what it answers is read afresh on every batch (`RoomState`). */
  datatype Room = Room(id: RoomId)

  /** What a room's handle answers while the listener handles one batch: the
      content of its `m.room.name` event, its cached display name, and the
      outcome of the asynchronous `is_direct` lookup (`None` when it failed). */
  datatype RoomState = RoomState(name: Option<string>, cachedDisplayName: Option<string>, isDirect: Option<bool>)

  /** `ExtraRoomInfo`. `isDm` is `None` when the DM lookup failed. */
  datatype ExtraRoomInfo = ExtraRoomInfo(rawName: Option<string>, displayName: Option<string>, isDm: Option<bool>)

  /** The entry the listener stores for a room whose handle answered `state`. */
  function InfoOf(state: RoomState): (info: ExtraRoomInfo)
    ensures info.rawName == state.name && info.displayName == state.cachedDisplayName
    ensures info.isDm == state.isDirect
  {
    ExtraRoomInfo(state.name, state.cachedDisplayName, state.isDirect)
  }

  /** The listener's first loop: every room of the snapshot, in order, gets
      its entry overwritten (all three fields at once). */
  function RecordInfos(infos: map<RoomId, ExtraRoomInfo>, rooms: seq<Room>,
                       live: RoomId -> RoomState): (r: map<RoomId, ExtraRoomInfo>)
    ensures infos.Keys <= r.Keys
    ensures forall k :: 0 <= k < |rooms| ==> rooms[k].id in r
    decreases |rooms|
  {
    if rooms == [] then infos
    else RecordInfos(infos[rooms[0].id := InfoOf(live(rooms[0].id))], rooms[1..], live)
  }

  function Ids(rooms: seq<Room>): (ids: set<RoomId>)
    ensures forall k :: 0 <= k < |rooms| ==> rooms[k].id in ids
    ensures forall id :: id in ids ==> exists k :: 0 <= k < |rooms| && rooms[k].id == id
  {
    set k | 0 <= k < |rooms| :: rooms[k].id
  }

  /** Recording two stretches of rooms is recording one after the other. */
  lemma {:induction false} RecordInfosConcat(infos: map<RoomId, ExtraRoomInfo>, a: seq<Room>, b: seq<Room>,
                                             live: RoomId -> RoomState)
    ensures RecordInfos(infos, a + b, live) == RecordInfos(RecordInfos(infos, a, live), b, live)
    decreases |a|
  {
    if a == [] {
      assert a + b == b;
    } else {
      assert (a + b)[0] == a[0];
      assert (a + b)[1..] == a[1..] + b;
      RecordInfosConcat(infos[a[0].id := InfoOf(live(a[0].id))], a[1..], b, live);
    }
  }

  /** One more room at the end of the snapshot overwrites that room's entry. */
  lemma RecordInfosSnoc(infos: map<RoomId, ExtraRoomInfo>, a: seq<Room>, room: Room,
                        live: RoomId -> RoomState)
    ensures RecordInfos(infos, a + [room], live) ==
              RecordInfos(infos, a, live)[room.id := InfoOf(live(room.id))]
  {
    RecordInfosConcat(infos, a, [room], live);
    var m := RecordInfos(infos, a, live);
    assert RecordInfos(m, [room], live) == RecordInfos(m[room.id := InfoOf(live(room.id))], [], live);
  }

  /** After a batch the projection holds exactly the rooms it held before
      plus every room of the snapshot: it is extended, never pruned. */
  lemma {:induction false} RecordInfosKeys(infos: map<RoomId, ExtraRoomInfo>, rooms: seq<Room>,
                                           live: RoomId -> RoomState)
    ensures RecordInfos(infos, rooms, live).Keys == infos.Keys + Ids(rooms)
    decreases |rooms|
  {
    if rooms != [] {
      var init, last := rooms[..|rooms| - 1], rooms[|rooms| - 1];
      assert rooms == init + [last];
      RecordInfosSnoc(infos, init, last, live);
      RecordInfosKeys(infos, init, live);
      IdsSnoc(init, last);
    }
  }

  lemma IdsSnoc(init: seq<Room>, last: Room)
    ensures Ids(init + [last]) == Ids(init) + {last.id}
  {
    var rooms := init + [last];
    assert rooms[|init|] == last;
    forall id | id in Ids(rooms) ensures id in Ids(init) + {last.id} {
      var k :| 0 <= k < |rooms| && rooms[k].id == id;
      if k < |init| { assert init[k] == rooms[k]; }
    }
    forall id | id in Ids(init) ensures id in Ids(rooms) {
      var k :| 0 <= k < |init| && init[k].id == id;
      assert rooms[k] == init[k];
    }
  }

  /** After a batch every room of the snapshot holds what its handle answered
      during the batch: all three fields are overwritten, whether or not a
      diff of the batch touched the room. */
  lemma {:induction false} RecordInfosOverwrites(infos: map<RoomId, ExtraRoomInfo>, rooms: seq<Room>,
                                                 live: RoomId -> RoomState, k: nat)
    requires k < |rooms|
    ensures rooms[k].id in RecordInfos(infos, rooms, live)
    ensures RecordInfos(infos, rooms, live)[rooms[k].id] == InfoOf(live(rooms[k].id))
    decreases |rooms|
  {
    var init, last := rooms[..|rooms| - 1], rooms[|rooms| - 1];
    assert rooms == init + [last];
    RecordInfosSnoc(infos, init, last, live);
    if k < |init| && last.id != rooms[k].id {
      assert init[k] == rooms[k];
      RecordInfosOverwrites(infos, init, live, k);
    }
  }

  /** A room outside the snapshot keeps its entry. */
  lemma {:induction false} RecordInfosKeeps(infos: map<RoomId, ExtraRoomInfo>, rooms: seq<Room>,
                                            live: RoomId -> RoomState, id: RoomId)
    requires id in infos && id !in Ids(rooms)
    ensures id in RecordInfos(infos, rooms, live)
    ensures RecordInfos(infos, rooms, live)[id] == infos[id]
    decreases |rooms|
  {
    if rooms != [] {
      var init, last := rooms[..|rooms| - 1], rooms[|rooms| - 1];
      assert rooms == init + [last];
      RecordInfosSnoc(infos, init, last, live);
      assert forall k :: 0 <= k < |init| ==> init[k] == rooms[k];
      RecordInfosKeeps(infos, init, live, id);
    }
  }

  /** The DM marker the room list shows after the index of a direct room. */
  const DmMarker: char := '\U{1F92B}'

  /** How a room is named in the list: its display name with the id in
      parentheses, else its raw `m.room.name` with the id, else the bare id. */
  function RoomName(id: RoomId, raw: Option<string>, display: Option<string>): (name: string)
    ensures display.Some? ==> name == display.value + " (" + id + ")"
    ensures display.None? && raw.Some? ==> name == "m.room.name:" + raw.value + " (" + id + ")"
    ensures display.None? && raw.None? ==> name == id
  {
    match display
    case Some(n) => n + " (" + id + ")"
    case None =>
      match raw
      case Some(n) => "m.room.name:" + n + " (" + id + ")"
      case None => id
  }

  /** The label of the room at row `i`: `#{i}{dm} {name}`; a room without an
      entry in the projection is labelled as if every field were `None`. */
  function RoomLabel(i: nat, id: RoomId, info: Option<ExtraRoomInfo>): (text: string)
    ensures "#" + Decimal(i) <= text
    ensures |text| > |Decimal(i)| + 1
    ensures text[|Decimal(i)| + 1] == DmMarker <==> info.Some? && info.value.isDm == Some(true)
    ensures EndsWith(text, " " + RoomName(id, RawOf(info), DisplayOf(info)))
    ensures |text| == |Decimal(i)| + 2 + |RoomName(id, RawOf(info), DisplayOf(info))|
                      + (if info.Some? && info.value.isDm == Some(true) then 1 else 0)
  {
    var (raw, display, isDm) := if info.Some? then (info.value.rawName, info.value.displayName, info.value.isDm)
                                else (None, None, None);
    var dm := if isDm.UnwrapOr(false) then [DmMarker] else "";
    var text := "#" + Decimal(i) + dm + " " + RoomName(id, raw, display);
    assert text == ("#" + Decimal(i) + dm + " ") + RoomName(id, raw, display);
    assert text[|Decimal(i)| + 1] == if isDm.UnwrapOr(false) then DmMarker else ' ';
    assert text == ("#" + Decimal(i) + dm) + (" " + RoomName(id, raw, display));
    text
  }

  /** The raw name a label uses: none without an entry. */
  function RawOf(info: Option<ExtraRoomInfo>): (raw: Option<string>)
  {
    if info.Some? then info.value.rawName else None
  }

  /** The display name a label uses: none without an entry. */
  function DisplayOf(info: Option<ExtraRoomInfo>): (display: Option<string>)
  {
    if info.Some? then info.value.displayName else None
  }

  predicate EndsWith(s: string, suffix: string) {
    |suffix| <= |s| && s[|s| - |suffix|..] == suffix
  }

  /** Whatever the projection holds, the label ends with the room id, alone
      or followed by the closing parenthesis. */
  lemma LabelEndsWithId(i: nat, id: RoomId, info: Option<ExtraRoomInfo>)
    ensures EndsWith(RoomLabel(i, id, info), id) || EndsWith(RoomLabel(i, id, info), id + ")")
  {
    var raw := if info.Some? then info.value.rawName else None;
    var display := if info.Some? then info.value.displayName else None;
    var name := RoomName(id, raw, display);
    var text := RoomLabel(i, id, info);
    var prefix := text[..|text| - |name|];
    assert text == prefix + name;
    if display.None? && raw.None? {
      assert text[|text| - |id|..] == id;
    } else {
      var tail := id + ")";
      assert name[|name| - |tail|..] == tail;
      assert text[|text| - |tail|..] == tail;
    }
  }
}
