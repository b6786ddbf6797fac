/** The room index both hubs keep: a multimap from room id to the sockets in
    that room, beside a table giving each socket's current room. Leaving
    erases the socket from its room's range; joining leaves first and then
    inserts the socket under the new room. The lemmas show that this keeps a
    socket in at most one room, and in that room's range exactly once. */
module RoomIndex {
  import opened Common

  /** The multimap: for each room id, its range in iteration order. */
  type Rooms = map<string, seq<Sock>>

  /** The index agrees with the per-socket room table: every range is free
      of repeats and holds exactly the sockets whose room it is, and no socket
      has the empty room. */
  ghost predicate Indexed(roomOf: map<Sock, string>, rooms: Rooms) {
    && (forall r :: r in rooms ==> NoDup(rooms[r]))
    && (forall r, s :: InRoom(rooms, r, s) ==> s in roomOf && roomOf[s] == r)
    && (forall s :: s in roomOf ==> roomOf[s] != "" && InRoom(rooms, roomOf[s], s))
  }

  /** `s` is an entry of room `r`'s range. */
  predicate InRoom(rooms: Rooms, r: string, s: Sock) {
    s in Get(rooms, r)
  }

  /** `roomOf.value(s)`: the socket's room, or "" when it has none. */
  function RoomOf(roomOf: map<Sock, string>, s: Sock): string {
    if s in roomOf then roomOf[s] else ""
  }

  /** The erase loop run over the range of room `from`; nothing happens when
      `from` is empty, as both hubs skip the loop then. */
  function Erased(rooms: Rooms, s: Sock, from: string): Rooms {
    if from == "" then rooms else rooms[from := Without(Get(rooms, from), s)]
  }

  /** QMultiHash::insert(to, s): a new entry that the range of `to` yields
      first (ranges run from the most recently inserted entry). */
  function Inserted(rooms: Rooms, to: string, s: Sock): Rooms {
    rooms[to := [s] + Get(rooms, to)]
  }

  /** Under the index, a socket that occurs in a range is in that room. */
  lemma InRangeMeansInRoom(roomOf: map<Sock, string>, rooms: Rooms, s: Sock, r: string)
    requires Indexed(roomOf, rooms) && s in Get(rooms, r)
    ensures s in roomOf && roomOf[s] == r
  {
    assert InRoom(rooms, r, s);
  }

  /** Leaving: the socket no longer occurs in any range, ranges of other
      rooms are untouched, and the index stays consistent without it. */
  lemma {:induction false} LeaveKeepsIndex(roomOf: map<Sock, string>, rooms: Rooms, s: Sock)
    requires Indexed(roomOf, rooms)
    ensures var after := Erased(rooms, s, RoomOf(roomOf, s));
      && Indexed(roomOf - {s}, after)
      && (forall r :: s !in Get(after, r))
      && (forall r :: r != RoomOf(roomOf, s) ==> Get(after, r) == Get(rooms, r))
  {
    var from := RoomOf(roomOf, s);
    var after := Erased(rooms, s, from);
    var roomOf' := roomOf - {s};
    WithoutSpec(Get(rooms, from), s);
    forall r | r in after ensures NoDup(after[r]) {
      if r == from && from != "" {
        WithoutKeepsNoDup(Get(rooms, from), s);
      }
    }
    forall r, e | InRoom(after, r, e)
      ensures e in roomOf' && roomOf'[e] == r
    {
      if r == from && from != "" {
        assert e in Without(Get(rooms, from), s);
        assert e != s && e in Get(rooms, from);
        InRangeMeansInRoom(roomOf, rooms, e, from);
      } else {
        assert e in Get(rooms, r);
        InRangeMeansInRoom(roomOf, rooms, e, r);
        assert e != s;
      }
    }
    forall t | t in roomOf' ensures roomOf'[t] != "" && InRoom(after, roomOf'[t], t) {
      assert InRoom(rooms, roomOf[t], t);
    }
    forall r ensures s !in Get(after, r) {
      if r != from || from == "" {
        assert Get(after, r) == Get(rooms, r);
        if s in Get(rooms, r) {
          InRangeMeansInRoom(roomOf, rooms, s, r);
        }
      }
    }
  }

  /** Joining (leave, then insert): the socket's room is the new one, it
      occurs exactly once in that range and in no other, and the index stays
      consistent. This holds when the socket rejoins the room it is in. */
  lemma {:induction false} JoinKeepsIndex(roomOf: map<Sock, string>, rooms: Rooms, s: Sock, to: string)
    requires Indexed(roomOf, rooms) && to != ""
    ensures var after := Inserted(Erased(rooms, s, RoomOf(roomOf, s)), to, s);
      && Indexed(roomOf[s := to], after)
      && multiset(Get(after, to))[s] == 1
      && (forall r :: r != to ==> s !in Get(after, r))
  {
    var left := Erased(rooms, s, RoomOf(roomOf, s));
    LeaveKeepsIndex(roomOf, rooms, s);
    var roomOf0 := roomOf - {s};
    assert Indexed(roomOf0, left);
    var after := Inserted(left, to, s);
    var roomOf' := roomOf[s := to];
    NoDupPrepend(s, Get(left, to));
    forall r | r in after ensures NoDup(after[r]) {
      if r != to {
        assert after[r] == left[r];
      }
    }
    forall r, e | InRoom(after, r, e)
      ensures e in roomOf' && roomOf'[e] == r
    {
      if r == to && e != s {
        assert InRoom(left, to, e);
      } else if r != to {
        assert InRoom(left, r, e);
      }
    }
    forall t | t in roomOf' ensures roomOf'[t] != "" && InRoom(after, roomOf'[t], t) {
      if t != s {
        assert t in roomOf0 && InRoom(left, roomOf0[t], t);
      }
    }
    forall r | r != to ensures s !in Get(after, r) {
      assert Get(after, r) == Get(left, r);
    }
  }
}
