/** Which rooms of a room-list snapshot get their timeline set up by the
    listener: the rooms not yet registered whose timeline initialisation
    succeeds. A room whose initialisation fails is skipped for this batch and
    considered again with the next one. */
module UiRooms {
  import opened Basics
  import opened RoomInfo
  import opened TimelineItems

  /** The registrations one batch adds, room by room in snapshot order: a room
      already in `prev` is filtered out, a room whose initialisation fails
      (`init` answers `None`) is skipped, and a later occurrence of the same id
      overwrites an earlier one. */
  function NewRooms(prev: map<RoomId, Room>, rooms: seq<Room>,
                    init: RoomId -> Option<seq<TimelineItem>>): (m: map<RoomId, Room>)
    ensures forall id :: id in m ==> m[id].id == id && id !in prev
    decreases |rooms|
  {
    if rooms == [] then map[]
    else
      var m := NewRooms(prev, rooms[..|rooms| - 1], init);
      var room := rooms[|rooms| - 1];
      if room.id !in prev && init(room.id).Some? then m[room.id := room] else m
  }

  /** A room is registered by the batch exactly when it is in the snapshot,
      was not registered before, and its timeline could be set up. */
  lemma {:induction false} NewRoomsKeys(prev: map<RoomId, Room>, rooms: seq<Room>,
                                        init: RoomId -> Option<seq<TimelineItem>>, id: RoomId)
    ensures id in NewRooms(prev, rooms, init) <==> id in Ids(rooms) && id !in prev && init(id).Some?
    decreases |rooms|
  {
    if rooms != [] {
      var init', last := rooms[..|rooms| - 1], rooms[|rooms| - 1];
      NewRoomsKeys(prev, init', init, id);
      assert rooms == init' + [last];
      IdsSnoc(init', last);
    }
  }

  /** The room registered under an id is its last occurrence in the snapshot. */
  lemma {:induction false} NewRoomsTakesLast(prev: map<RoomId, Room>, rooms: seq<Room>,
                                             init: RoomId -> Option<seq<TimelineItem>>, k: nat)
    requires k < |rooms| && rooms[k].id !in prev && init(rooms[k].id).Some?
    requires forall j :: k < j < |rooms| ==> rooms[j].id != rooms[k].id
    ensures rooms[k].id in NewRooms(prev, rooms, init)
    ensures NewRooms(prev, rooms, init)[rooms[k].id] == rooms[k]
    decreases |rooms|
  {
    if k < |rooms| - 1 {
      var init' := rooms[..|rooms| - 1];
      assert init'[k] == rooms[k];
      NewRoomsTakesLast(prev, init', init, k);
    }
  }

  /** After the merge, every room of the snapshot whose timeline can be set up
      is registered, whether it was before the batch or not. */
  lemma EveryInitialisableRoomRegistered(prev: map<RoomId, Room>, rooms: seq<Room>,
                                         init: RoomId -> Option<seq<TimelineItem>>)
    ensures forall k :: 0 <= k < |rooms| && init(rooms[k].id).Some? ==> rooms[k].id in prev + NewRooms(prev, rooms, init)
  {
    forall k | 0 <= k < |rooms| && init(rooms[k].id).Some?
      ensures rooms[k].id in prev + NewRooms(prev, rooms, init)
    {
      NewRoomsKeys(prev, rooms, init, rooms[k].id);
    }
  }

  /** Once a batch's registrations are merged in, the same snapshot registers
      nothing more: no room gets a second timeline. */
  lemma NoRoomSetUpTwice(prev: map<RoomId, Room>, rooms: seq<Room>,
                         init: RoomId -> Option<seq<TimelineItem>>)
    ensures NewRooms(prev + NewRooms(prev, rooms, init), rooms, init) == map[]
  {
    var after := prev + NewRooms(prev, rooms, init);
    var again := NewRooms(after, rooms, init);
    forall id | id in again ensures false {
      NewRoomsKeys(after, rooms, init, id);
      NewRoomsKeys(prev, rooms, init, id);
    }
  }
}
