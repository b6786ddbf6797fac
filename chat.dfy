/** The chat hub of the line-based auth/order server: three tables (each
    socket's user, each socket's room, and the room multimap), a join that
    leaves first and then inserts, a leave that erases the socket from its
    room's range, and a broadcast that writes one JSON line to every socket
    of a range. The same hub exists in two copies, which differ in the
    guard on the leave broadcast and in the reply to an unknown action;
    `Copy` says which one a hub is. */
module Chat {
  import opened Common
  import opened RoomIndex

  /** server/Sources/main.cpp is `Standalone`, server/src/main_consolidated.cpp
      is `Consolidated`. */
  datatype Copy = Standalone | Consolidated

  /** The JSON lines the server writes: a chat broadcast, and the replies
      okReply / errReply build, and the replies of the SQL-backed handlers,
      which are not modelled beyond the request they answer. */
  datatype Line =
    | ChatBroadcast(system: bool, room: string, from: string, text: string)  // "action": "chat_broadcast"
    | OkReply(action: string)                                                // {"ok": true, "action"}
    | ErrReply(msg: string)                                                  // {"ok": false, "msg"}
    | Delegated(action: string, req: Json)

  /** One line read from a socket, after trimming: empty (skipped), not a
      JSON object, or a JSON object. */
  datatype Request = Blank | Malformed | Object(json: Json)

  /** The three tables and everything written to each socket. */
  datatype ChatState = ChatState(userOf: map<Sock, string>, roomOf: map<Sock, string>,
                                 roomSockets: Rooms, outbox: Log<Line>)

  /** No user is in a room under the empty name, every socket with a room
      has a user and the other way round, and the multimap agrees with
      `roomOf` (see RoomIndex.Indexed). */
  ghost predicate ChatValid(st: ChatState) {
    && Indexed(st.roomOf, st.roomSockets)
    && st.userOf.Keys == st.roomOf.Keys
    && (forall s :: s in st.userOf ==> st.userOf[s] != "")
  }

  /** The reply to a request with an empty required field. */
  const Incomplete: string := "参数不完整"

  /** The actions handed to the SQL-backed handlers. */
  const SqlActions: set<string> := {"register", "login", "new_order", "update_order", "get_orders", "delete_order"}

  /** `userOf().value(s)`: the socket's user, or the empty string. */
  function UserOf(userOf: map<Sock, string>, s: Sock): string {
    if s in userOf then userOf[s] else ""
  }

  function Entered(room: string, user: string): Line {
    ChatBroadcast(true, room, user, "用户（" + user + "）进入房间")
  }

  function Left(room: string, user: string): Line {
    ChatBroadcast(true, room, user, "用户（" + user + "）离开房间")
  }

  /** The guard on the leave broadcast: the standalone copy also needs a
      user, the consolidated copy only a room. */
  predicate Announces(copy: Copy, notify: bool, room: string, user: string) {
    match copy
    case Standalone => notify && room != "" && user != ""
    case Consolidated => notify && room != ""
  }

  /** The reply to an action no branch handles. */
  function UnknownAction(copy: Copy, action: string): string {
    match copy
    case Standalone => "unknown action"
    case Consolidated => "未知动作: " + action
  }

  // ---------------------------------------------------------------------
  // The steps

  /** leave(s, notify): erase the socket from its room's range and from both
      tables, then, if the guard holds, tell what remains of the room. */
  function LeaveStep(st: ChatState, s: Sock, notify: bool, copy: Copy): ChatState {
    var user, room := UserOf(st.userOf, s), RoomOf(st.roomOf, s);
    var sockets := Erased(st.roomSockets, s, room);
    ChatState(st.userOf - {s}, st.roomOf - {s}, sockets,
              if Announces(copy, notify, room, user) then AppendAll(st.outbox, Get(sockets, room), Left(room, user))
              else st.outbox)
  }

  /** join(s, room, user): a silent leave, the three insertions, then the
      entry line to the whole range, the joiner included. */
  function JoinStep(st: ChatState, s: Sock, room: string, user: string, copy: Copy): ChatState {
    var left := LeaveStep(st, s, false, copy);
    var sockets := Inserted(left.roomSockets, room, s);
    ChatState(left.userOf[s := user], left.roomOf[s := room], sockets,
              AppendAll(left.outbox, Get(sockets, room), Entered(room, user)))
  }

  function Reply(st: ChatState, s: Sock, line: Line): ChatState {
    st.(outbox := Append(st.outbox, s, line))
  }

  /** One line of the readyRead loop: the chat actions, the SQL-backed
      actions, and the error replies, each followed by the reply to the
      sender. */
  function RequestStep(st: ChatState, s: Sock, req: Request, copy: Copy): ChatState {
    match req
    case Blank => st
    case Malformed => Reply(st, s, ErrReply("invalid json"))
    case Object(j) =>
      var action := Text(j, "action");
      if action == "chat_join" then
        var room, user := Trim(Text(j, "room")), Trim(Text(j, "username"));
        if room == "" || user == "" then Reply(st, s, ErrReply(Incomplete))
        else Reply(JoinStep(st, s, room, user, copy), s, OkReply("chat_join"))
      else if action == "chat_msg" then
        var room, from, text := Trim(Text(j, "room")), Trim(Text(j, "from")), Text(j, "text");
        if room == "" || from == "" || text == "" then Reply(st, s, ErrReply(Incomplete))
        else
          var cast := AppendAll(st.outbox, Get(st.roomSockets, room), ChatBroadcast(false, room, from, text));
          Reply(st.(outbox := cast), s, OkReply("chat_msg"))
      else if action == "chat_leave" then Reply(LeaveStep(st, s, true, copy), s, OkReply("chat_leave"))
      else if action in SqlActions then Reply(st, s, Delegated(action, j))
      else Reply(st, s, ErrReply(UnknownAction(copy, action)))
  }

  /** The lines of one readyRead, handled in order. */
  function Requests(st: ChatState, s: Sock, reqs: seq<Request>, copy: Copy): ChatState
    decreases |reqs|
  {
    if reqs == [] then st
    else RequestStep(Requests(st, s, reqs[..|reqs| - 1], copy), s, reqs[|reqs| - 1], copy)
  }

  // ---------------------------------------------------------------------
  // The invariant

  lemma LeaveKeepsValid(st: ChatState, s: Sock, notify: bool, copy: Copy)
    requires ChatValid(st)
    ensures ChatValid(LeaveStep(st, s, notify, copy))
  {
    LeaveKeepsIndex(st.roomOf, st.roomSockets, s);
  }

  /** A join's tables: the silent leave followed by the insertions. */
  lemma JoinTables(st: ChatState, s: Sock, room: string, user: string, copy: Copy)
    ensures var after := JoinStep(st, s, room, user, copy);
      && after.userOf == st.userOf[s := user] && after.roomOf == st.roomOf[s := room]
      && after.roomSockets == Inserted(Erased(st.roomSockets, s, RoomOf(st.roomOf, s)), room, s)
      && after.outbox == AppendAll(st.outbox, Get(after.roomSockets, room), Entered(room, user))
  {
    var left := LeaveStep(st, s, false, copy);
    assert left.outbox == st.outbox;
    assert left.roomOf[s := room] == st.roomOf[s := room];
    assert left.userOf[s := user] == st.userOf[s := user];
  }

  lemma JoinKeepsValid(st: ChatState, s: Sock, room: string, user: string, copy: Copy)
    requires ChatValid(st) && room != "" && user != ""
    ensures ChatValid(JoinStep(st, s, room, user, copy))
  {
    JoinTables(st, s, room, user, copy);
    JoinKeepsIndex(st.roomOf, st.roomSockets, s, room);
  }

  /** The write logs play no part in the invariant. */
  lemma OutboxOnly(st: ChatState, outbox: Log<Line>)
    requires ChatValid(st)
    ensures ChatValid(st.(outbox := outbox))
  {
  }

  lemma JoinRequestKeepsValid(st: ChatState, s: Sock, j: Json, copy: Copy)
    requires ChatValid(st) && Text(j, "action") == "chat_join"
    ensures ChatValid(RequestStep(st, s, Object(j), copy))
  {
    var room, user := Trim(Text(j, "room")), Trim(Text(j, "username"));
    if room == "" || user == "" {
      OutboxOnly(st, Append(st.outbox, s, ErrReply(Incomplete)));
    } else {
      var joined := JoinStep(st, s, room, user, copy);
      JoinKeepsValid(st, s, room, user, copy);
      OutboxOnly(joined, Append(joined.outbox, s, OkReply("chat_join")));
    }
  }

  /** Every action other than joining and leaving writes and changes no
      table. */
  lemma OtherRequestKeepsValid(st: ChatState, s: Sock, j: Json, copy: Copy)
    requires ChatValid(st) && Text(j, "action") != "chat_join" && Text(j, "action") != "chat_leave"
    ensures ChatValid(RequestStep(st, s, Object(j), copy))
  {
    OutboxOnly(st, RequestStep(st, s, Object(j), copy).outbox);
  }

  lemma RequestKeepsValid(st: ChatState, s: Sock, req: Request, copy: Copy)
    requires ChatValid(st)
    ensures ChatValid(RequestStep(st, s, req, copy))
  {
    match req
    case Blank =>
    case Malformed =>
      OutboxOnly(st, Append(st.outbox, s, ErrReply("invalid json")));
    case Object(j) =>
      var action := Text(j, "action");
      if action == "chat_join" {
        JoinRequestKeepsValid(st, s, j, copy);
      } else if action == "chat_leave" {
        var left := LeaveStep(st, s, true, copy);
        LeaveKeepsValid(st, s, true, copy);
        OutboxOnly(left, Append(left.outbox, s, OkReply("chat_leave")));
      } else {
        OtherRequestKeepsValid(st, s, j, copy);
      }
  }

  lemma {:induction false} RequestsKeepValid(st: ChatState, s: Sock, reqs: seq<Request>, copy: Copy)
    requires ChatValid(st)
    ensures ChatValid(Requests(st, s, reqs, copy))
    decreases |reqs|
  {
    if reqs != [] {
      RequestsKeepValid(st, s, reqs[..|reqs| - 1], copy);
      RequestKeepsValid(Requests(st, s, reqs[..|reqs| - 1], copy), s, reqs[|reqs| - 1], copy);
    }
  }

  // ---------------------------------------------------------------------
  // What each socket sees

  /** Under the invariant, a socket is in a room's range exactly when
      `roomOf` gives it that room. */
  lemma MemberOfRange(st: ChatState, room: string, t: Sock)
    requires ChatValid(st) && room != ""
    ensures t in Get(st.roomSockets, room) <==> RoomOf(st.roomOf, t) == room
  {
    if t in Get(st.roomSockets, room) {
      InRangeMeansInRoom(st.roomOf, st.roomSockets, t, room);
    }
    if RoomOf(st.roomOf, t) == room {
      assert InRoom(st.roomSockets, st.roomOf[t], t);
    }
  }

  /** Leaving: the socket is in no table and no range afterwards; it hears
      nothing; another socket hears the leave line exactly when the guard
      holds and it sat in the same room. A socket in no room leaves without
      a word. */
  lemma LeaveView(st: ChatState, s: Sock, notify: bool, copy: Copy, t: Sock)
    requires ChatValid(st)
    ensures var after := LeaveStep(st, s, notify, copy);
      var room, user := RoomOf(st.roomOf, s), UserOf(st.userOf, s);
      && s !in after.userOf && s !in after.roomOf
      && (forall r :: s !in Get(after.roomSockets, r))
      && (room == "" ==> after.outbox == st.outbox)
      && Get(after.outbox, t)
         == Get(st.outbox, t)
            + (if t != s && Announces(copy, notify, room, user) && RoomOf(st.roomOf, t) == room then [Left(room, user)] else [])
  {
    var room, user := RoomOf(st.roomOf, s), UserOf(st.userOf, s);
    LeaveKeepsIndex(st.roomOf, st.roomSockets, s);
    var sockets := Erased(st.roomSockets, s, room);
    if Announces(copy, notify, room, user) {
      var left := LeaveStep(st, s, notify, copy);
      assert NoDup(left.roomSockets[room]);
      AppendAllAt(st.outbox, Get(sockets, room), Left(room, user), t);
      if t != s {
        WithoutSpec(Get(st.roomSockets, room), s);
        MemberOfRange(st, room, t);
      }
    }
  }

  /** Joining: the socket's user and room are the ones given, it occurs
      once in that room's range and in no other; every socket now in the
      room, the joiner among them, gets the entry line, and nobody else
      gets anything, so the room it switched from is not told. */
  lemma JoinView(st: ChatState, s: Sock, room: string, user: string, copy: Copy, t: Sock)
    requires ChatValid(st) && room != ""
    ensures var after := JoinStep(st, s, room, user, copy);
      && after.userOf[s] == user && after.roomOf[s] == room
      && multiset(Get(after.roomSockets, room))[s] == 1
      && (forall r :: r != room ==> s !in Get(after.roomSockets, r))
      && Get(after.outbox, t)
         == Get(st.outbox, t) + (if t == s || RoomOf(st.roomOf, t) == room then [Entered(room, user)] else [])
  {
    JoinTables(st, s, room, user, copy);
    JoinKeepsIndex(st.roomOf, st.roomSockets, s, room);
    var after := JoinStep(st, s, room, user, copy);
    var rooms, roomOf := after.roomSockets, st.roomOf[s := room];
    assert NoDup(rooms[room]);
    AppendAllAt(st.outbox, Get(rooms, room), Entered(room, user), t);
    if t != s {
      if t in Get(rooms, room) {
        InRangeMeansInRoom(roomOf, rooms, t, room);
      }
      if RoomOf(st.roomOf, t) == room {
        assert InRoom(rooms, roomOf[t], t);
      }
    }
  }

  /** A chat message reaches every socket in the named room, whether or not
      the sender is in it; the sender then gets the acknowledgement. */
  lemma MessageView(st: ChatState, s: Sock, j: Json, copy: Copy, t: Sock)
    requires ChatValid(st) && Text(j, "action") == "chat_msg"
    requires Trim(Text(j, "room")) != "" && Trim(Text(j, "from")) != "" && Text(j, "text") != ""
    ensures var room := Trim(Text(j, "room"));
      var after := RequestStep(st, s, Object(j), copy);
      && after.(outbox := st.outbox) == st
      && Get(after.outbox, t)
         == Get(st.outbox, t)
            + (if RoomOf(st.roomOf, t) == room then [ChatBroadcast(false, room, Trim(Text(j, "from")), Text(j, "text"))] else [])
            + (if t == s then [OkReply("chat_msg")] else [])
  {
    var room := Trim(Text(j, "room"));
    var line := ChatBroadcast(false, room, Trim(Text(j, "from")), Text(j, "text"));
    var cast := AppendAll(st.outbox, Get(st.roomSockets, room), line);
    if room in st.roomSockets {
      assert NoDup(st.roomSockets[room]);
    }
    AppendAllAt(st.outbox, Get(st.roomSockets, room), line, t);
    AppendAt(cast, s, OkReply("chat_msg"), t);
    MemberOfRange(st, room, t);
  }

  /** A chat_join or chat_msg with an empty required field changes no table
      and only answers the sender. */
  lemma IncompleteRefused(st: ChatState, s: Sock, j: Json, copy: Copy)
    requires Text(j, "action") == "chat_join" || Text(j, "action") == "chat_msg"
    requires Text(j, "action") == "chat_join" ==> Trim(Text(j, "room")) == "" || Trim(Text(j, "username")) == ""
    requires Text(j, "action") == "chat_msg" ==>
      Trim(Text(j, "room")) == "" || Trim(Text(j, "from")) == "" || Text(j, "text") == ""
    ensures RequestStep(st, s, Object(j), copy) == st.(outbox := Append(st.outbox, s, ErrReply(Incomplete)))
  {
  }

  /** On every state the dispatch can reach, the two copies' leave guards
      agree: a socket with a room always has a non-empty user. */
  lemma LeaveCopiesAgree(st: ChatState, s: Sock, notify: bool)
    requires ChatValid(st)
    ensures LeaveStep(st, s, notify, Standalone) == LeaveStep(st, s, notify, Consolidated)
  {
    if s in st.roomOf {
      assert s in st.userOf;
    }
  }

  /** Off the invariant they differ: a socket with a room and no user is
      announced as leaving by the consolidated copy only. */
  lemma LeaveCopiesDiffer()
    ensures var st := ChatState(map[], map[7 := "r"], map["r" := [7, 8]], map[]);
      && Get(LeaveStep(st, 7, true, Standalone).outbox, 8) == []
      && Get(LeaveStep(st, 7, true, Consolidated).outbox, 8) == [Left("r", "")]
  {
    var st := ChatState(map[], map[7 := "r"], map["r" := [7, 8]], map[]);
    assert [7, 8][..1] == [7];
    assert Without([7, 8], 7) == [8] by {
      assert Without([7], 7) == [];
    }
    assert [8][..0] == [];
  }

  /** The reply to an unknown action: fixed text in the standalone copy,
      the action appended in the consolidated one. */
  lemma UnknownActionReplies(st: ChatState, s: Sock, j: Json)
    requires Text(j, "action") !in SqlActions + {"chat_join", "chat_msg", "chat_leave"}
    ensures Get(RequestStep(st, s, Object(j), Standalone).outbox, s) == Get(st.outbox, s) + [ErrReply("unknown action")]
    ensures Get(RequestStep(st, s, Object(j), Consolidated).outbox, s)
         == Get(st.outbox, s) + [ErrReply("未知动作: " + Text(j, "action"))]
  {
  }

  // ---------------------------------------------------------------------

  class ChatHub {
    const copy: Copy
    var userOf: map<Sock, string>
    var roomOf: map<Sock, string>
    var roomSockets: Rooms
    var outbox: Log<Line>

    ghost predicate Valid()
      reads this
    {
      ChatValid(ChatState(userOf, roomOf, roomSockets, outbox))
    }

    /** The tables start empty. */
    constructor (copy: Copy)
      ensures Valid() && this.copy == copy
      ensures ChatState(userOf, roomOf, roomSockets, outbox) == ChatState(map[], map[], map[], map[])
    {
      this.copy := copy;
      userOf, roomOf, roomSockets, outbox := map[], map[], map[], map[];
    }

    /** writeLine: one JSON line to one socket. */
    method Send(s: Sock, line: Line)
      modifies this`outbox
      ensures outbox == Append(old(outbox), s, line)
      ensures forall t :: Get(outbox, t) == Get(old(outbox), t) + (if t == s then [line] else [])
    {
      forall t ensures Get(Append(outbox, s, line), t) == Get(outbox, t) + (if t == s then [line] else []) {
        AppendAt(outbox, s, line, t);
      }
      outbox := Append(outbox, s, line);
    }

    /** broadcast: the loop over a room's range. */
    method Broadcast(room: string, line: Line)
      modifies this`outbox
      ensures outbox == AppendAll(old(outbox), Get(roomSockets, room), line)
    {
      var range := Get(roomSockets, room);
      var i := 0;
      while i < |range|
        invariant 0 <= i <= |range|
        invariant outbox == AppendAll(old(outbox), range[..i], line)
      {
        assert range[..i + 1][..i] == range[..i];
        Send(range[i], line);
        i := i + 1;
      }
      assert range[..|range|] == range;
    }

    method Leave(s: Sock, notify: bool)
      modifies this
      ensures ChatState(userOf, roomOf, roomSockets, outbox)
           == LeaveStep(old(ChatState(userOf, roomOf, roomSockets, outbox)), s, notify, copy)
    {
      var user, room := UserOf(userOf, s), RoomOf(roomOf, s);
      if room != "" {
        var kept := EraseAll(Get(roomSockets, room), s);
        roomSockets := roomSockets[room := kept];
      }
      userOf, roomOf := userOf - {s}, roomOf - {s};
      if Announces(copy, notify, room, user) {
        Broadcast(room, Left(room, user));
      }
    }

    method Join(s: Sock, room: string, user: string)
      modifies this
      ensures ChatState(userOf, roomOf, roomSockets, outbox)
           == JoinStep(old(ChatState(userOf, roomOf, roomSockets, outbox)), s, room, user, copy)
    {
      Leave(s, false);
      userOf, roomOf := userOf[s := user], roomOf[s := room];
      roomSockets := Inserted(roomSockets, room, s);
      Broadcast(room, Entered(room, user));
    }

    /** One line of the readyRead loop. */
    method HandleRequest(s: Sock, req: Request)
      requires Valid()
      modifies this
      ensures Valid()
      ensures ChatState(userOf, roomOf, roomSockets, outbox)
           == RequestStep(old(ChatState(userOf, roomOf, roomSockets, outbox)), s, req, copy)
    {
      RequestKeepsValid(ChatState(userOf, roomOf, roomSockets, outbox), s, req, copy);
      match req
      case Blank =>
      case Malformed =>
        Send(s, ErrReply("invalid json"));
      case Object(j) =>
        var action := Text(j, "action");
        if action == "chat_join" {
          var room, user := Trim(Text(j, "room")), Trim(Text(j, "username"));
          if room == "" || user == "" {
            Send(s, ErrReply(Incomplete));
          } else {
            Join(s, room, user);
            Send(s, OkReply("chat_join"));
          }
        } else if action == "chat_msg" {
          var room, from, text := Trim(Text(j, "room")), Trim(Text(j, "from")), Text(j, "text");
          if room == "" || from == "" || text == "" {
            Send(s, ErrReply(Incomplete));
          } else {
            Broadcast(room, ChatBroadcast(false, room, from, text));
            Send(s, OkReply("chat_msg"));
          }
        } else if action == "chat_leave" {
          Leave(s, true);
          Send(s, OkReply("chat_leave"));
        } else if action in SqlActions {
          Send(s, Delegated(action, j));
        } else {
          Send(s, ErrReply(UnknownAction(copy, action)));
        }
    }

    /** The readyRead handler: every line the socket has, in order. */
    method OnReadyRead(s: Sock, reqs: seq<Request>)
      requires Valid()
      modifies this
      ensures Valid()
      ensures ChatState(userOf, roomOf, roomSockets, outbox)
           == Requests(old(ChatState(userOf, roomOf, roomSockets, outbox)), s, reqs, copy)
    {
      ghost var start := ChatState(userOf, roomOf, roomSockets, outbox);
      var i := 0;
      while i < |reqs|
        invariant 0 <= i <= |reqs|
        invariant Valid()
        invariant ChatState(userOf, roomOf, roomSockets, outbox) == Requests(start, s, reqs[..i], copy)
      {
        assert reqs[..i + 1][..i] == reqs[..i];
        HandleRequest(s, reqs[i]);
        i := i + 1;
      }
      assert reqs[..|reqs|] == reqs;
    }

    /** The disconnected handler: an announced leave. */
    method OnDisconnected(s: Sock)
      requires Valid()
      modifies this
      ensures Valid()
      ensures ChatState(userOf, roomOf, roomSockets, outbox)
           == LeaveStep(old(ChatState(userOf, roomOf, roomSockets, outbox)), s, true, copy)
    {
      LeaveKeepsValid(ChatState(userOf, roomOf, roomSockets, outbox), s, true, copy);
      Leave(s, true);
    }
  }
}
