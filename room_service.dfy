/**
 * The room table (services/roomService.ts): rooms keyed by id, each waiting
 * for a guest or full. Browser storage is the in-memory map `rooms`; the
 * clock is the `now` parameter, in milliseconds.
 */
module RoomService {
  import opened Wrappers
  import opened Types
  import JsText

  const ROOM_ID_PREFIX: string := "room_"
  const ONE_HOUR: int := 60 * 60 * 1000

  /** A room is full exactly when it has a guest. */
  predicate WellFormed(r: Room)
  {
    r.status == Full <==> r.guest.Some?
  }

  /** joinRoom's guard: the room is waiting and the would-be guest is not its host. */
  predicate Joinable(r: Room, guest: User)
    ensures Joinable(r, guest) ==> r.host.id != guest.id && r.status != Full
    ensures Joinable(r, guest) && WellFormed(r) ==> r.guest.None?
  {
    r.status == Waiting && r.host.id != guest.id
  }

  /** The creation time in a room id: `parseInt(id.split('_')[1], 10)`, None for NaN. */
  function RoomTimestamp(id: string): (ts: Option<int>)
    ensures '_' !in id ==> ts.None?
  {
    match JsText.SecondPiece(id, '_')
    case None => None
    case Some(piece) => JsText.ParseInt(piece)
  }

  /** The cleanup's test `Date.now() - roomTimestamp > oneHour`; a NaN timestamp never passes it. */
  predicate Stale(r: Room, now: int)
    ensures Stale(r, now) ==> RoomTimestamp(r.id).Some? && now > RoomTimestamp(r.id).value + ONE_HOUR
    ensures '_' !in r.id ==> !Stale(r, now)
  {
    match RoomTimestamp(r.id)
    case None => false
    case Some(ts) => now - ts > ONE_HOUR
  }

  /** The id createRoom gives a room made at time now. */
  function RoomId(now: nat): (id: string)
    ensures |id| > |ROOM_ID_PREFIX| && id[..|ROOM_ID_PREFIX|] == ROOM_ID_PREFIX
  {
    ROOM_ID_PREFIX + JsText.Decimal(now)
  }

  /** The cleanup reads back the creation time from the id. */
  lemma RoomIdTimestamp(now: nat)
    ensures RoomTimestamp(RoomId(now)) == Some(now)
  {
    var digits := JsText.Decimal(now);
    assert RoomId(now) == "room" + ['_'] + digits;
    assert '_' !in digits by {
      forall k | 0 <= k < |digits|
        ensures digits[k] != '_'
      {
        assert JsText.IsDigit(digits[k]);
      }
    }
    JsText.SecondPieceAfterPrefix("room", '_', digits);
    JsText.ParseDecimal(now);
  }

  /** A room created at `created` is removed by a cleanup at `now` exactly when more than an hour has passed. */
  lemma StaleAfterAnHour(r: Room, created: nat, now: int)
    requires r.id == RoomId(created)
    ensures Stale(r, now) <==> now - created > ONE_HOUR
  {
    RoomIdTimestamp(created);
  }

  /** What the cleanup keeps: every room that is not stale, unchanged. */
  function Survivors(rooms: map<string, Room>, now: int): (kept: map<string, Room>)
    ensures forall id :: id in kept <==> id in rooms && !Stale(rooms[id], now)
    ensures forall id :: id in kept ==> kept[id] == rooms[id]
  {
    map id | id in rooms && !Stale(rooms[id], now) :: rooms[id]
  }

  class RoomTable {
    var rooms: map<string, Room>

    /** Every room is stored under its own id and is full exactly when it has a guest. */
    predicate Valid()
      reads this
    {
      forall id :: id in rooms ==> rooms[id].id == id && WellFormed(rooms[id])
    }

    constructor ()
      ensures rooms == map[] && Valid()
    {
      rooms := map[];
    }

    /** createRoom: a waiting room without a guest, stored under `room_<now>`. */
    method CreateRoom(host: User, now: nat) returns (room: Room)
      modifies this
      ensures room == Room(RoomId(now), host, None, Waiting)
      ensures rooms == old(rooms)[room.id := room]
      ensures old(Valid()) ==> Valid()
    {
      room := Room(RoomId(now), host, None, Waiting);
      rooms := rooms[room.id := room];
    }

    /** getRoom: the stored room, or null. */
    function GetRoom(roomId: string): (r: Option<Room>)
      reads this
      ensures r.Some? <==> roomId in rooms
      ensures r.Some? ==> r.value == rooms[roomId]
    {
      if roomId in rooms then Some(rooms[roomId]) else None
    }

    /** getAllRooms: every stored room once. */
    method GetAllRooms() returns (all: seq<Room>)
      ensures |all| == |rooms|
      ensures forall i :: 0 <= i < |all| ==> all[i] in rooms.Values
      ensures forall id :: id in rooms ==> rooms[id] in all
    {
      all := [];
      var remaining := rooms.Keys;
      while remaining != {}
        invariant remaining <= rooms.Keys
        invariant |all| + |remaining| == |rooms|
        invariant forall i :: 0 <= i < |all| ==> all[i] in rooms.Values
        invariant forall id :: id in rooms && id !in remaining ==> rooms[id] in all
        decreases |remaining|
      {
        var id :| id in remaining;
        all := all + [rooms[id]];
        remaining := remaining - {id};
      }
    }

    /**
     * joinRoom: only an existing, waiting room whose host is someone else;
     * it gets the guest and becomes full. Otherwise null and no change.
     */
    method JoinRoom(roomId: string, guest: User) returns (joined: Option<Room>)
      modifies this
      ensures var ok := roomId in old(rooms) && Joinable(old(rooms)[roomId], guest);
        (ok ==> joined == Some(old(rooms)[roomId].(guest := Some(guest), status := Full))
                && rooms == old(rooms)[roomId := joined.value])
        && (!ok ==> joined == None && rooms == old(rooms))
      ensures old(Valid()) ==> Valid()
    {
      if roomId in rooms && Joinable(rooms[roomId], guest) {
        var room := rooms[roomId].(guest := Some(guest), status := Full);
        rooms := rooms[roomId := room];
        return Some(room);
      }
      return None;
    }

    /**
     * leaveRoom: the host leaving deletes the room; the guest leaving empties
     * the guest seat and reopens the room; anyone else, or a missing room,
     * changes nothing.
     */
    method LeaveRoom(roomId: string, userId: string)
      modifies this
      ensures roomId !in old(rooms) ==> rooms == old(rooms)
      ensures roomId in old(rooms) && old(rooms)[roomId].host.id == userId ==>
        rooms == old(rooms) - {roomId}
      ensures roomId in old(rooms) && old(rooms)[roomId].host.id != userId ==>
        var room := old(rooms)[roomId];
        if room.guest.Some? && room.guest.value.id == userId
        then rooms == old(rooms)[roomId := room.(guest := None, status := Waiting)]
        else rooms == old(rooms)
      ensures old(Valid()) ==> Valid()
    {
      if roomId !in rooms {
        return;
      }
      var room := rooms[roomId];
      if room.host.id == userId {
        rooms := rooms - {roomId};
      } else if room.guest.Some? && room.guest.value.id == userId {
        rooms := rooms[roomId := room.(guest := None, status := Waiting)];
      }
    }

    /** deleteRoom: removes that id, and nothing else. */
    method DeleteRoom(roomId: string)
      modifies this
      ensures rooms == old(rooms) - {roomId}
      ensures old(Valid()) ==> Valid()
    {
      if roomId in rooms {
        rooms := rooms - {roomId};
      }
    }

    /**
     * The cleanup run on load: every room whose id timestamp is more than an
     * hour before now is deleted; `changed` says whether any was.
     */
    method CleanupStale(now: int) returns (changed: bool)
      modifies this
      ensures rooms == Survivors(old(rooms), now)
      ensures changed <==> exists id :: id in old(rooms) && Stale(old(rooms)[id], now)
      ensures old(Valid()) ==> Valid()
    {
      ghost var start := rooms;
      changed := false;
      var pending := rooms.Keys;
      while pending != {}
        invariant pending <= start.Keys
        invariant forall id :: id in rooms <==>
          id in start && (id in pending || !Stale(start[id], now))
        invariant forall id :: id in rooms ==> rooms[id] == start[id]
        invariant changed <==> exists id :: id in start && id !in pending && Stale(start[id], now)
        decreases |pending|
      {
        var roomId :| roomId in pending;
        var room := rooms[roomId];
        if Stale(room, now) {
          rooms := rooms - {roomId};
          changed := true;
        }
        pending := pending - {roomId};
      }
      assert rooms == Survivors(start, now);
    }
  }
}
