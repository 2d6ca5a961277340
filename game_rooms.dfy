/**
 * The room list screen (components/GameRoomsScreen.tsx): the comparator the
 * list is sorted with, and who may join a listed room.
 */
module GameRooms {
  import opened Wrappers
  import opened Types
  import JsText
  import RoomService

  /** `parseInt(id.split('_')[1] || '0', 10)`: a missing or empty piece reads as "0"; NaN is None. */
  function IdTime(id: string): (t: Option<int>)
    ensures '_' !in id ==> t == Some(0)
  {
    var piece := match JsText.SecondPiece(id, '_')
      case None => "0"
      case Some(p) => if p == "" then "0" else p;
    JsText.ParseDecimal(0);
    assert JsText.Decimal(0) == "0";
    JsText.ParseInt(piece)
  }

  /**
   * The comparator: negative puts a first. Waiting rooms come first, then
   * the larger id timestamp; `timeB - timeA` is NaN when either timestamp
   * is, and the sort reads a NaN result as 0.
   */
  function CompareRooms(a: Room, b: Room): (order: int)
    ensures a.status == Waiting && b.status == Full ==> order == -1
    ensures a.status == Full && b.status == Waiting ==> order == 1
  {
    if a.status == Waiting && b.status != Waiting then -1
    else if a.status != Waiting && b.status == Waiting then 1
    else match (IdTime(a.id), IdTime(b.id))
      case (Some(ta), Some(tb)) => tb - ta
      case _ => 0
  }

  function Sign(x: int): int
  {
    if x < 0 then -1 else if x > 0 then 1 else 0
  }

  lemma WaitingRoomsFirst(a: Room, b: Room)
    requires a.status == Waiting && b.status == Full
    ensures CompareRooms(a, b) < 0 && CompareRooms(b, a) > 0
  {
  }

  /** Within one status, the newer timestamp goes first and equal timestamps tie. */
  lemma NewestFirst(a: Room, b: Room, ta: int, tb: int)
    requires a.status == b.status
    requires IdTime(a.id) == Some(ta) && IdTime(b.id) == Some(tb)
    ensures CompareRooms(a, b) < 0 <==> ta > tb
    ensures CompareRooms(a, b) == 0 <==> ta == tb
  {
  }

  /** A room id that has no timestamp piece sorts as if it were made at time 0. */
  lemma MissingTimestampIsZero(a: Room, b: Room, tb: int)
    requires a.status == b.status && '_' !in a.id
    requires IdTime(b.id) == Some(tb)
    ensures CompareRooms(a, b) == tb
  {
  }

  /** Swapping the arguments negates the comparator's sign. */
  lemma CompareAntisymmetric(a: Room, b: Room)
    ensures Sign(CompareRooms(a, b)) == -Sign(CompareRooms(b, a))
  {
  }

  /** For rooms whose timestamps all parse, the comparator is a consistent (transitive) order. */
  lemma CompareTransitive(a: Room, b: Room, c: Room)
    requires IdTime(a.id).Some? && IdTime(b.id).Some? && IdTime(c.id).Some?
    requires CompareRooms(a, b) <= 0 && CompareRooms(b, c) <= 0
    ensures CompareRooms(a, c) <= 0
  {
  }

  /** Rooms the table creates read back their creation time, so they are ordered by it. */
  lemma CreatedRoomsNewestFirst(a: Room, b: Room, made: nat, madeB: nat)
    requires a.status == b.status
    requires a.id == RoomService.RoomId(made) && b.id == RoomService.RoomId(madeB)
    ensures CompareRooms(a, b) < 0 <==> made > madeB
  {
    IdTimeOfRoomId(made);
    IdTimeOfRoomId(madeB);
  }

  lemma IdTimeOfRoomId(now: nat)
    ensures IdTime(RoomService.RoomId(now)) == Some(now)
  {
    RoomService.RoomIdTimestamp(now);
    var digits := JsText.Decimal(now);
    assert digits != "";
  }

  /** A list the screen may show: every earlier room compares at most equal to every later one. */
  predicate Ordered(rooms: seq<Room>)
  {
    forall i, j :: 0 <= i < j < |rooms| ==> CompareRooms(rooms[i], rooms[j]) <= 0
  }

  /** In an ordered list, no full room comes before a waiting one. */
  lemma OrderedListsWaitingFirst(rooms: seq<Room>, i: nat, j: nat)
    requires Ordered(rooms) && i < j < |rooms|
    requires rooms[j].status == Waiting
    ensures rooms[i].status == Waiting
  {
    assert CompareRooms(rooms[i], rooms[j]) <= 0;
  }

  /** `canJoin`: the Join button shows exactly when the room table would accept this user. */
  function CanJoin(room: Room, currentUser: User): (ok: bool)
    ensures ok <==> RoomService.Joinable(room, currentUser)
  {
    room.status == Waiting && room.host.id != currentUser.id
  }
}
