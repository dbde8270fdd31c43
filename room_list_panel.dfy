/** The room list panel of `render_left`: one row per room of the room list,
    labelled from a copy of the room projection from which each room's entry
    is removed once it has been used. */
module RoomListPanel {
  import opened Basics
  import opened RoomInfo

  /** `HashMap::remove`'s answer, without the removal. */
  function Lookup(infos: map<RoomId, ExtraRoomInfo>, id: RoomId): (info: Option<ExtraRoomInfo>)
    ensures info.Some? <==> id in infos
    ensures info.Some? ==> info.value == infos[id]
  {
    if id in infos then Some(infos[id]) else None
  }

  /** The entry each row is labelled with: row by row, the room's entry is
      taken out of the copy of the projection. */
  function Entries(rooms: seq<Room>, infos: map<RoomId, ExtraRoomInfo>): (entries: seq<Option<ExtraRoomInfo>>)
    ensures |entries| == |rooms|
    decreases |rooms|
  {
    if rooms == [] then []
    else [Lookup(infos, rooms[0].id)] + Entries(rooms[1..], infos - {rooms[0].id})
  }

  /** The rows of the room list panel, numbered from 0. */
  function Labels(rooms: seq<Room>, infos: map<RoomId, ExtraRoomInfo>): (labels: seq<string>)
    ensures |labels| == |rooms|
    ensures forall k :: 0 <= k < |rooms| ==> "#" + Decimal(k) <= labels[k]
  {
    var entries := Entries(rooms, infos);
    seq(|rooms|, k requires 0 <= k < |rooms| => RoomLabel(k, rooms[k].id, entries[k]))
  }

  /** A room whose id is not in the copy gets no entry. */
  lemma {:induction false} EntriesAbsent(rooms: seq<Room>, infos: map<RoomId, ExtraRoomInfo>, k: nat)
    requires k < |rooms| && rooms[k].id !in infos
    ensures Entries(rooms, infos)[k] == None
    decreases k
  {
    if k > 0 {
      EntriesAbsent(rooms[1..], infos - {rooms[0].id}, k - 1);
    }
  }

  /** The first occurrence of an id in the list gets that room's entry. */
  lemma {:induction false} EntriesFirst(rooms: seq<Room>, infos: map<RoomId, ExtraRoomInfo>, k: nat)
    requires k < |rooms|
    requires forall j :: 0 <= j < k ==> rooms[j].id != rooms[k].id
    ensures Entries(rooms, infos)[k] == Lookup(infos, rooms[k].id)
    decreases k
  {
    if k > 0 {
      assert rooms[0].id != rooms[k].id;
      forall j | 0 <= j < k - 1 ensures rooms[1..][j].id != rooms[1..][k - 1].id {
        assert rooms[1..][j] == rooms[j + 1];
      }
      EntriesFirst(rooms[1..], infos - {rooms[0].id}, k - 1);
    }
  }

  /** A later occurrence of an id gets no entry: it was removed. */
  lemma {:induction false} EntriesRepeat(rooms: seq<Room>, infos: map<RoomId, ExtraRoomInfo>, j: nat, k: nat)
    requires j < k < |rooms| && rooms[j].id == rooms[k].id
    ensures Entries(rooms, infos)[k] == None
    decreases j
  {
    if j == 0 {
      EntriesAbsent(rooms[1..], infos - {rooms[0].id}, k - 1);
    } else {
      EntriesRepeat(rooms[1..], infos - {rooms[0].id}, j - 1, k - 1);
    }
  }

  /** Row `k` of the first occurrence of a room id is that room's label with
      its own entry. */
  lemma LabelOfFirstOccurrence(rooms: seq<Room>, infos: map<RoomId, ExtraRoomInfo>, k: nat)
    requires k < |rooms|
    requires forall j :: 0 <= j < k ==> rooms[j].id != rooms[k].id
    ensures Labels(rooms, infos)[k] == RoomLabel(k, rooms[k].id, Lookup(infos, rooms[k].id))
  {
    EntriesFirst(rooms, infos, k);
  }

  /** A room id listed again further down is labelled as if it had no entry:
      no name and no DM marker. */
  lemma LabelOfRepeat(rooms: seq<Room>, infos: map<RoomId, ExtraRoomInfo>, j: nat, k: nat)
    requires j < k < |rooms| && rooms[j].id == rooms[k].id
    ensures Labels(rooms, infos)[k] == RoomLabel(k, rooms[k].id, None)
  {
    EntriesRepeat(rooms, infos, j, k);
  }
}
