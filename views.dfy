/** What each party sees of the room hub's steps: a connection without a
    session is only ever refused, registering lets a connection log in, a
    created order reaches its creator and every authenticated connection,
    an order is accepted once, refused operations change nothing, an
    order's room is joined by its two parties only, the writes of joining,
    leaving and forwarding reach exactly the connections in the room, and
    every read stamps its connection as seen. */
module Views {
  import opened Common
  import opened Records
  import opened Orders
  import opened RoomIndex
  import opened Fanout
  import opened Hub
  import opened Steps
  import opened StepProofs

  // ---------------------------------------------------------------------
  // The session gate

  /** The replies to `n` packets turned away by the session gate. */
  function Refusals(n: nat): (r: seq<Outgoing>)
    ensures |r| == n && forall i :: 0 <= i < n ==> r[i] == ServerEvent(Reply(401, AuthRequired))
  {
    seq(n, i => ServerEvent(Reply(401, AuthRequired)))
  }

  /** A connection without a valid session that sends only packets needing
      one gets one "Authentication required" reply per packet, and nothing
      else in the hub changes. */
  lemma {:induction false} GateRefuses(h: HubState, s: Sock, ps: seq<Packet>, clock: Clock, nets: nat -> Net,
                                       uuid: nat -> string, hash: (string, string) -> string)
    requires s in h.clients && !SessionOk(h, s)
    requires forall i :: 0 <= i < |ps| ==> Gated(ps[i].kind)
    ensures var after := Packets(h, s, ps, clock, nets, uuid, hash);
      && after.(outbox := h.outbox) == h
      && forall t :: Get(after.outbox, t) == Get(h.outbox, t) + (if t == s then Refusals(|ps|) else [])
    decreases |ps|
  {
    if ps != [] {
      var init := ps[..|ps| - 1];
      GateRefuses(h, s, init, clock, nets, uuid, hash);
      var before := Packets(h, s, init, clock, nets, uuid, hash);
      var refusal := ServerEvent(Reply(401, AuthRequired));
      assert Packets(h, s, ps, clock, nets, uuid, hash) == Write(before, s, refusal);
      assert Refusals(|init|) + [refusal] == Refusals(|ps|);
      forall t ensures Get(Append(before.outbox, s, refusal), t)
                    == Get(h.outbox, t) + (if t == s then Refusals(|ps|) else [])
      {
        AppendAt(before.outbox, s, refusal, t);
      }
    }
  }

  /** `after` is `h` with one error event written to `s`: no table changes
      and no other connection is written to. */
  ghost predicate RefusedWith(h: HubState, after: HubState, s: Sock, e: Event) {
    && after.(outbox := h.outbox) == h
    && forall t :: Get(after.outbox, t) == Get(h.outbox, t) + (if t == s then [ServerEvent(e)] else [])
  }

  lemma WriteRefuses(h: HubState, s: Sock, e: Event)
    ensures RefusedWith(h, Write(h, s, ServerEvent(e)), s, e)
  {
    forall t ensures Get(Write(h, s, ServerEvent(e)).outbox, t) == Get(h.outbox, t) + (if t == s then [ServerEvent(e)] else []) {
      AppendAt(h.outbox, s, ServerEvent(e), t);
    }
  }

  // ---------------------------------------------------------------------
  // Accounts

  /** A second login on a connection binds the new token to it but leaves
      the token it held before in the session table, still naming its user. */
  lemma ReloginKeepsOldToken(h: HubState, s: Sock, json: Json, uuid: nat -> string, hash: (string, string) -> string)
    requires s in h.clients && h.clients[s].token in h.sessions && uuid(h.uuidsDrawn) != h.clients[s].token
    requires Authenticates(h.users, Trim(Text(json, "username")), Text(json, "password"), "", hash)
    ensures var held := h.clients[s].token;
      var after := LoginStep(h, s, json, uuid, hash);
      && after.clients[s].token == uuid(h.uuidsDrawn)
      && after.sessions[uuid(h.uuidsDrawn)] == Trim(Text(json, "username"))
      && held in after.sessions && after.sessions[held] == h.sessions[held]
  {
  }

  /** A connection that registers and then logs in with the same password
      and a name that trims to the same name passes the session gate
      afterwards, as that user and with the role it registered (given that
      the token drawn is not empty, as a UUID's text never is). */
  lemma RegisterThenLoginStep(h: HubState, s: Sock, reg: Json, login: Json, clock: Clock,
                              uuid: nat -> string, hash: (string, string) -> string)
    requires s in h.clients
    requires RegisterCheck(h.users, Trim(Text(reg, "username")), Text(reg, "password"), Text(reg, "role")).None?
    requires Trim(Text(login, "username")) == Trim(Text(reg, "username"))
    requires Text(login, "password") == Text(reg, "password")
    requires uuid(h.uuidsDrawn + 1) != ""
    ensures var after := LoginStep(RegisterStep(h, s, reg, clock, uuid, hash), s, login, uuid, hash);
      && SessionOk(after, s)
      && after.clients[s].user == Trim(Text(reg, "username"))
      && after.clients[s].role == Text(reg, "role")
  {
    var name := Trim(Text(reg, "username"));
    var registered := RegisterStep(h, s, reg, clock, uuid, hash);
    RegisterThenLogin(h.users, Text(reg, "username"), Text(login, "username"), Text(reg, "password"),
                      Text(reg, "role"), uuid(h.uuidsDrawn), clock.iso, hash);
    assert registered.users == h.users[name := NewUser(name, Text(reg, "password"), uuid(h.uuidsDrawn),
                                                       Text(reg, "role"), clock.iso, hash)];
  }

  // ---------------------------------------------------------------------
  // Work orders

  /** A successful create: the new open order is stored under a fresh id,
      the creator is sent it, every authenticated connection (the creator
      among them) is then sent the "created" event, and the creator's
      listing includes the order. */
  lemma CreateView(h: HubState, s: Sock, json: Json, clock: Clock, uuid: nat -> string, t: Sock)
    requires s in h.clients && SessionOk(h, s)
    requires h.clients[s].role == Factory && Trim(Text(json, "title")) != ""
    ensures var c := h.clients[s];
      var after := CreateStep(h, s, json, clock, uuid);
      var o := NewOrder(uuid(h.uuidsDrawn), Trim(Text(json, "title")), Text(json, "description"), c.user, clock.iso);
      && after.workOrders == h.workOrders[o.id := o]
      && s in Authenticated(h.clients, h.sessions, h.users)
      && o in ForUser(after.workOrders, c.user, Factory)
      && Get(after.outbox, t)
         == Get(h.outbox, t)
            + (if t == s then [OrderPacket(Created(o))] else [])
            + (if t in Authenticated(h.clients, h.sessions, h.users) then [ServerEvent(OrderChanged("created", o))] else [])
  {
    var c := h.clients[s];
    var o := NewOrder(uuid(h.uuidsDrawn), Trim(Text(json, "title")), Text(json, "description"), c.user, clock.iso);
    var stored := h.(workOrders := h.workOrders[o.id := o], uuidsDrawn := h.uuidsDrawn + 1);
    var written := Write(stored, s, OrderPacket(Created(o)));
    assert CreateStep(h, s, json, clock, uuid) == Notify(written, "created", o);
    AppendAt(stored.outbox, s, OrderPacket(Created(o)), t);
    SendAllAt(written.outbox, Authenticated(h.clients, h.sessions, h.users), ServerEvent(OrderChanged("created", o)), t);
    assert stored.workOrders[o.id] == o;
    ForFactory(stored.workOrders, c.user, o);
  }

  /** Once an expert has accepted an open order, that expert is its
      assignee, and a second accept of the same id by any expert is refused
      with "Cannot accept order" and changes nothing else. */
  lemma AcceptOnlyOnceStep(h: HubState, s1: Sock, j1: Json, c1: Clock, s2: Sock, j2: Json, c2: Clock)
    requires s1 in h.clients && s2 in h.clients
    requires h.clients[s1].role == Expert && h.clients[s2].role == Expert
    requires Text(j2, "id") == Text(j1, "id") && CanAccept(h.workOrders, Text(j1, "id"))
    ensures var first := AcceptStep(h, s1, j1, c1);
      && first.workOrders[Text(j1, "id")].assignedTo == h.clients[s1].user
      && first.workOrders[Text(j1, "id")].status == Assigned
      && AcceptStep(first, s2, j2, c2) == Write(first, s2, ServerEvent(Reply(400, CannotAccept)))
  {
    var id := Text(j1, "id");
    AcceptOnlyOnce(h.workOrders, id, h.clients[s1].user, c1.iso);
  }

  /** A refused order operation changes no table and writes one error event
      to the caller alone: a create by a non-factory user (403) or with a
      blank title (400), an accept by a non-expert (403) or of an order that
      is missing or not open (400), and a status change the caller may not
      make or of a missing order (400). */
  lemma OrderRefused(h: HubState, s: Sock, json: Json, clock: Clock, uuid: nat -> string)
    requires s in h.clients
    ensures var c, id := h.clients[s], Text(json, "id");
      && (c.role != Factory ==>
            RefusedWith(h, CreateStep(h, s, json, clock, uuid), s, Reply(403, OnlyFactoryCreates)))
      && (c.role == Factory && Trim(Text(json, "title")) == "" ==>
            RefusedWith(h, CreateStep(h, s, json, clock, uuid), s, Reply(400, TitleRequired)))
      && (c.role != Expert ==>
            RefusedWith(h, AcceptStep(h, s, json, clock), s, Reply(403, OnlyExpertAccepts)))
      && (c.role == Expert && !CanAccept(h.workOrders, id) ==>
            RefusedWith(h, AcceptStep(h, s, json, clock), s, Reply(400, CannotAccept)))
      && (!(id in h.workOrders && MayUpdateStatus(h.workOrders[id], Text(json, "status"), c.user)) ==>
            RefusedWith(h, StatusStep(h, s, json, clock), s, Reply(400, CannotUpdateStatus)))
  {
    WriteRefuses(h, s, Reply(403, OnlyFactoryCreates));
    WriteRefuses(h, s, Reply(400, TitleRequired));
    WriteRefuses(h, s, Reply(403, OnlyExpertAccepts));
    WriteRefuses(h, s, Reply(400, CannotAccept));
    WriteRefuses(h, s, Reply(400, CannotUpdateStatus));
  }

  /** A permitted status change stores the requested status verbatim on that
      order alone, leaves every other table as it is, returns the order to
      the caller and announces it to every authenticated connection. */
  lemma StatusView(h: HubState, s: Sock, json: Json, clock: Clock, t: Sock)
    requires s in h.clients && Text(json, "id") in h.workOrders
    requires MayUpdateStatus(h.workOrders[Text(json, "id")], Text(json, "status"), h.clients[s].user)
    ensures var id := Text(json, "id");
      var after := StatusStep(h, s, json, clock);
      var o := h.workOrders[id].(status := Text(json, "status"), updatedAt := clock.iso);
      && after.workOrders.Keys == h.workOrders.Keys
      && after.workOrders[id] == o
      && (forall k :: k in h.workOrders && k != id ==> after.workOrders[k] == h.workOrders[k])
      && after.(workOrders := h.workOrders, outbox := h.outbox) == h
      && Get(after.outbox, t)
         == Get(h.outbox, t)
            + (if t == s then [OrderPacket(StatusSet(o))] else [])
            + (if t in Authenticated(h.clients, h.sessions, h.users) then [ServerEvent(OrderChanged("updated", o))] else [])
  {
    var id := Text(json, "id");
    var o := SetStatus(h.workOrders[id], Text(json, "status"), clock.iso);
    var stored := h.(workOrders := h.workOrders[id := o]);
    var written := Write(stored, s, OrderPacket(StatusSet(o)));
    assert StatusStep(h, s, json, clock) == Notify(written, "updated", o);
    AppendAt(stored.outbox, s, OrderPacket(StatusSet(o)), t);
    SendAllAt(written.outbox, Authenticated(h.clients, h.sessions, h.users), ServerEvent(OrderChanged("updated", o)), t);
  }

  // ---------------------------------------------------------------------
  // Rooms

  /** The member list the rest of the old room is sent when `s` leaves it. */
  function LeaveEvent(h: HubState, s: Sock): Outgoing
    requires s in h.clients
  {
    var c := h.clients[s];
    ServerEvent(RoomMembers("leave", c.roomId, MemberNames(Get(Erased(h.rooms, s, c.roomId), c.roomId), h.clients), c.user))
  }

  /** The member list a room is sent when `user` joins it. */
  function JoinEvent(h: HubState, roomId: string, user: string): Outgoing {
    ServerEvent(RoomMembers("join", roomId, Members(h, roomId), user))
  }

  lemma {:induction false} MemberNamesHead(s: Sock, rest: seq<Sock>, clients: map<Sock, ClientCtx>)
    requires s in clients
    ensures MemberNames([s] + rest, clients) == [clients[s].user] + MemberNames(rest, clients)
    decreases |rest|
  {
    if rest != [] {
      var x := [s] + rest;
      assert x[..|x| - 1] == [s] + rest[..|rest| - 1];
      MemberNamesHead(s, rest[..|rest| - 1], clients);
    } else {
      assert MemberNames([s], clients) == MemberNames([], clients) + [clients[s].user];
    }
  }

  /** Under the invariant, a connection is in a room's range exactly when
      its context names that room. */
  lemma MemberOfRange(clients: map<Sock, ClientCtx>, rooms: Rooms, r: string, t: Sock)
    requires Indexed(RoomTable(clients), rooms) && t in clients && r != ""
    ensures t in Get(rooms, r) <==> clients[t].roomId == r
  {
    var table := RoomTable(clients);
    if t in Get(rooms, r) {
      InRangeMeansInRoom(table, rooms, t, r);
    }
    if clients[t].roomId == r {
      assert t in table;
      assert InRoom(rooms, table[t], t);
    }
  }

  /** Who hears that `s` leaves its room: not `s` itself, and every other
      connection exactly when it is connected and sits in that room. */
  lemma LeaveNoticeView(h: HubState, s: Sock, net: Net, t: Sock)
    requires HubValid(h) && s in h.clients
    ensures Get(LeaveNotice(h.outbox, h.clients, h.rooms, s, net), s) == Get(h.outbox, s)
    ensures t in h.clients && t != s ==>
      var c := h.clients[s];
      Get(LeaveNotice(h.outbox, h.clients, h.rooms, s, net), t)
      == Get(h.outbox, t)
         + (if c.roomId != "" && h.clients[t].roomId == c.roomId && t in net.connected then [LeaveEvent(h, s)] else [])
  {
    var c := h.clients[s];
    if c.roomId != "" {
      var table := RoomTable(h.clients);
      assert RoomOf(table, s) == c.roomId;
      LeaveKeepsIndex(table, h.rooms, s);
      var left := Erased(h.rooms, s, c.roomId);
      var members := Get(left, c.roomId);
      assert NoDup(left[c.roomId]);
      RecipientView(h.outbox, members, LeaveEvent(h, s), None, false, net, s);
      if t in h.clients && t != s {
        WithoutSpec(Get(h.rooms, c.roomId), s);
        MemberOfRange(h.clients, h.rooms, c.roomId, t);
        RecipientView(h.outbox, members, LeaveEvent(h, s), None, false, net, t);
      }
    }
  }

  /** Leaving then inserting: the new room's range holds the joiner once,
      first, so the member list it is sent starts with its own name. */
  lemma JoinedRangeHead(h: HubState, s: Sock, roomId: string, net: Net)
    requires HubValid(h) && s in h.clients && roomId != ""
    ensures var joined := JoinRoomStep(h, s, roomId, net);
      && NoDup(Get(joined.rooms, roomId)) && s in Get(joined.rooms, roomId)
      && Members(joined, roomId) != [] && Members(joined, roomId)[0] == h.clients[s].user
  {
    var c := h.clients[s];
    var table := RoomTable(h.clients);
    assert RoomOf(table, s) == c.roomId;
    JoinKeepsIndex(table, h.rooms, s, roomId);
    var left := Erased(h.rooms, s, c.roomId);
    var joined := JoinRoomStep(h, s, roomId, net);
    assert Get(joined.rooms, roomId) == [s] + Get(left, roomId);
    assert NoDup(joined.rooms[roomId]);
    MemberNamesHead(s, Get(left, roomId), joined.clients);
  }

  /** What the joiner itself receives on entering a room: the
      acknowledgement, the member snapshot (headed by its own name) and, if
      it is connected, its own join notice; it hears nothing of the room it
      left. */
  lemma JoinerView(h: HubState, s: Sock, roomId: string, net: Net)
    requires HubValid(h) && s in h.clients && roomId != ""
    ensures var after := EnterStep(h, s, roomId, net);
      var user := h.clients[s].user;
      var names := Members(after, roomId);
      && names != [] && names[0] == user
      && Get(after.outbox, s)
         == Get(h.outbox, s)
            + [ServerEvent(JoinAck(roomId)), ServerEvent(RoomMembers("snapshot", roomId, names, user))]
            + (if s in net.connected then [JoinEvent(after, roomId, user)] else [])
  {
    var user := h.clients[s].user;
    var joined := JoinRoomStep(h, s, roomId, net);
    var names := Members(joined, roomId);
    JoinedRangeHead(h, s, roomId, net);
    LeaveNoticeView(h, s, net, s);
    var acked := Write(joined, s, ServerEvent(JoinAck(roomId)));
    var told := Write(acked, s, ServerEvent(RoomMembers("snapshot", roomId, names, user)));
    AppendAt(joined.outbox, s, ServerEvent(JoinAck(roomId)), s);
    AppendAt(acked.outbox, s, ServerEvent(RoomMembers("snapshot", roomId, names, user)), s);
    RecipientView(told.outbox, Get(told.rooms, roomId), JoinEvent(joined, roomId, user), None, false, net, s);
  }

  /** What every other connection receives when `s` enters a room: the
      leave notice if it sits in the room `s` left, then the join notice if
      it sits in the room `s` entered, each only when it is connected. */
  lemma EnterPeerView(h: HubState, s: Sock, roomId: string, net: Net, t: Sock)
    requires HubValid(h) && s in h.clients && roomId != ""
    requires t in h.clients && t != s
    ensures var c := h.clients[s];
      var after := EnterStep(h, s, roomId, net);
      Get(after.outbox, t)
      == Get(h.outbox, t)
         + (if c.roomId != "" && h.clients[t].roomId == c.roomId && t in net.connected then [LeaveEvent(h, s)] else [])
         + (if h.clients[t].roomId == roomId && t in net.connected then [JoinEvent(after, roomId, c.user)] else [])
  {
    var c := h.clients[s];
    var joined := JoinRoomStep(h, s, roomId, net);
    var names := Members(joined, roomId);
    JoinedRangeHead(h, s, roomId, net);
    LeaveNoticeView(h, s, net, t);
    JoinRoomKeepsValid(h, s, roomId, net);
    var acked := Write(joined, s, ServerEvent(JoinAck(roomId)));
    var told := Write(acked, s, ServerEvent(RoomMembers("snapshot", roomId, names, c.user)));
    AppendAt(joined.outbox, s, ServerEvent(JoinAck(roomId)), t);
    AppendAt(acked.outbox, s, ServerEvent(RoomMembers("snapshot", roomId, names, c.user)), t);
    MemberOfRange(joined.clients, joined.rooms, roomId, t);
    RecipientView(told.outbox, Get(told.rooms, roomId), JoinEvent(joined, roomId, c.user), None, false, net, t);
  }

  /** A refused join changes no table, membership or order status among
      them, and writes one error event to the caller alone: 400 for an
      empty room id, 403 for the room of an order the caller is not the
      factory creator or the expert assignee of. */
  lemma JoinRefused(h: HubState, s: Sock, json: Json, clock: Clock, net: Net)
    requires s in h.clients
    ensures var roomId, c := Text(json, "roomId"), h.clients[s];
      var after := JoinStep(h, s, json, clock, net);
      && (roomId == "" ==> RefusedWith(h, after, s, Reply(400, RoomIdRequired)))
      && (roomId != "" && roomId in h.workOrders && !CanJoin(h.workOrders[roomId], c.user, c.role) ==>
            RefusedWith(h, after, s, Reply(403, NotAuthorizedToJoin)))
  {
    WriteRefuses(h, s, Reply(400, RoomIdRequired));
    WriteRefuses(h, s, Reply(403, NotAuthorizedToJoin));
  }

  /** An admitted join of an order's room puts the caller in that room and
      moves an assigned order to in_progress, the first admitted party
      sufficing; any further join of that room leaves the order table as it
      is. A room id that names no order admits every caller, and no such
      join touches the order table. */
  lemma OrderRoomJoin(h: HubState, s: Sock, json: Json, clock: Clock, net: Net, s2: Sock, json2: Json, clock2: Clock)
    requires s in h.clients && s2 in h.clients && Text(json, "roomId") != ""
    requires var id := Text(json, "roomId");
      id in h.workOrders ==> CanJoin(h.workOrders[id], h.clients[s].user, h.clients[s].role)
    requires Text(json2, "roomId") == Text(json, "roomId")
    ensures var id := Text(json, "roomId");
      var after := JoinStep(h, s, json, clock, net);
      && after.clients.Keys == h.clients.Keys
      && after.clients[s].roomId == id && s in Get(after.rooms, id)
      && (id !in h.workOrders ==> after.workOrders == h.workOrders)
      && (id in h.workOrders ==> after.workOrders == h.workOrders[id := Progress(h.workOrders[id], clock.iso)])
      && (id in h.workOrders && h.workOrders[id].status == Assigned ==> after.workOrders[id].status == InProgress)
      && JoinStep(after, s2, json2, clock2, net).workOrders == after.workOrders
  {
    var id := Text(json, "roomId");
    var started := StartStep(h, id, clock);
    assert started.clients == h.clients;
    if id in h.workOrders {
      var o := h.workOrders[id];
      if o.status == Assigned {
        assert started.workOrders == h.workOrders[id := Progress(o, clock.iso)];
      } else {
        assert Progress(o, clock.iso) == o && h.workOrders[id := o] == h.workOrders;
      }
    }
    var after := EnterStep(started, s, id, net);
    assert JoinStep(h, s, json, clock, net) == after;
    assert after.workOrders == started.workOrders && after.clients.Keys == h.clients.Keys;
    RejoinKeepsOrders(after, s2, json2, clock2, net);
  }

  /** A join of a room whose order is not assigned, or that names no order,
      leaves the order table as it is. */
  lemma RejoinKeepsOrders(h: HubState, s: Sock, json: Json, clock: Clock, net: Net)
    requires s in h.clients
    requires var id := Text(json, "roomId"); id in h.workOrders ==> h.workOrders[id].status != Assigned
    ensures JoinStep(h, s, json, clock, net).workOrders == h.workOrders
  {
    var id, c := Text(json, "roomId"), h.clients[s];
    if id != "" && !(id in h.workOrders && !CanJoin(h.workOrders[id], c.user, c.role)) {
      assert StartStep(h, id, clock) == h;
      assert JoinStep(h, s, json, clock, net) == EnterStep(h, s, id, net);
    }
  }

  /** A disconnect: the socket's context and its session go, it occurs in
      no room's range any more, the stores are untouched, and every other
      connection hears the leave notice exactly when it is connected and
      sat in the room the socket left. */
  lemma DisconnectView(h: HubState, s: Sock, net: Net, t: Sock)
    requires HubValid(h) && s in h.clients
    ensures var c := h.clients[s];
      var after := DisconnectStep(h, s, net);
      && after.clients == h.clients - {s}
      && (c.token != "" ==> c.token !in after.sessions)
      && after.users == h.users && after.workOrders == h.workOrders
      && (forall r :: s !in Get(after.rooms, r))
      && (t in h.clients && t != s ==>
            Get(after.outbox, t)
            == Get(h.outbox, t)
               + (if c.roomId != "" && h.clients[t].roomId == c.roomId && t in net.connected then [LeaveEvent(h, s)] else []))
  {
    var table := RoomTable(h.clients);
    assert RoomOf(table, s) == h.clients[s].roomId;
    LeaveKeepsIndex(table, h.rooms, s);
    LeaveNoticeView(h, s, net, t);
  }

  /** The packet a connection in a room forwards, as its peers receive it. */
  function Forwarded(h: HubState, s: Sock, p: Packet, clock: Clock): Outgoing
    requires s in h.clients
  {
    var c := h.clients[s];
    Relay(p.kind, Tagged(p.json, c.user, c.roomId, clock.ms), p.bin)
  }

  /** Forwarding: another connection gets the tagged packet exactly when the
      sender is in a room, it sits in the same room, and it receives (it is
      connected, and not backlogged when the packet is a video frame). */
  lemma ForwardPeerView(h: HubState, s: Sock, p: Packet, clock: Clock, net: Net, t: Sock)
    requires HubValid(h) && s in h.clients && t in h.clients && t != s
    ensures var c := h.clients[s];
      Get(ForwardStep(h, s, p, clock, net).outbox, t)
      == Get(h.outbox, t)
         + (if c.roomId != "" && h.clients[t].roomId == c.roomId && Receives(t, Some(s), p.kind == MsgVideoFrame, net)
            then [Forwarded(h, s, p, clock)] else [])
  {
    var c := h.clients[s];
    if c.roomId != "" {
      if c.roomId in h.rooms {
        assert NoDup(h.rooms[c.roomId]);
      }
      MemberOfRange(h.clients, h.rooms, c.roomId, t);
      RecipientView(h.outbox, Get(h.rooms, c.roomId), Forwarded(h, s, p, clock), Some(s), p.kind == MsgVideoFrame, net, t);
    }
  }

  /** Forwarding: the sender never gets its own packet; for a video frame it
      gets one "congested" advisory per backlogged recipient, in range
      order, and for any other packet nothing. */
  lemma ForwardSenderView(h: HubState, s: Sock, p: Packet, clock: Clock, net: Net)
    requires s in h.clients
    ensures var c := h.clients[s];
      var after := ForwardStep(h, s, p, clock, net);
      && (c.roomId == "" ==> after == h)
      && (c.roomId != "" ==>
            Get(after.outbox, s)
            == Get(h.outbox, s) + Advisories(Dropped(Get(h.rooms, c.roomId), Some(s), p.kind == MsgVideoFrame, net), net))
      && (p.kind != MsgVideoFrame ==> Get(after.outbox, s) == Get(h.outbox, s))
  {
    var c := h.clients[s];
    if c.roomId != "" {
      var members := Get(h.rooms, c.roomId);
      SenderView(h.outbox, members, Forwarded(h, s, p, clock), s, p.kind == MsgVideoFrame, net);
      var d := Dropped(members, Some(s), p.kind == MsgVideoFrame, net);
      if p.kind != MsgVideoFrame && d != [] {
        DroppedExactly(members, Some(s), false, net, d[0]);
      }
    }
  }

  /** A video frame past the session gate is forwarded. */
  lemma FrameForwarded(h: HubState, s: Sock, f: Packet, clock: Clock, net: Net,
                       uuid: nat -> string, hash: (string, string) -> string)
    requires s in h.clients && SessionOk(h, s) && f.kind == MsgVideoFrame
    ensures PacketStep(h, s, f, clock, net, uuid, hash) == ForwardStep(h, s, f, clock, net)
  {
  }

  /** Two video frames in one read: a recipient whose backlog crosses the
      threshold between them (the hub's own write of the first frame can
      do that) gets the first frame only, and the sender is told about the
      second. */
  lemma SecondFrameDropped(h: HubState, s: Sock, f1: Packet, f2: Packet, clock: Clock, nets: nat -> Net,
                           uuid: nat -> string, hash: (string, string) -> string, t: Sock)
    requires HubValid(h) && s in h.clients && t in h.clients && t != s && SessionOk(h, s)
    requires f1.kind == MsgVideoFrame && f2.kind == MsgVideoFrame
    requires h.clients[s].roomId != "" && h.clients[t].roomId == h.clients[s].roomId
    requires t in nets(0).connected && t in nets(1).connected
    requires !Backlogged(nets(0), t) && Backlogged(nets(1), t)
    ensures var after := Packets(h, s, [f1, f2], clock, nets, uuid, hash);
      && Get(after.outbox, t) == Get(h.outbox, t) + [Forwarded(h, s, f1, clock)]
      && ServerEvent(Congested(nets(1).backlog(t))) in Get(after.outbox, s)
  {
    var room := h.clients[s].roomId;
    FrameForwarded(h, s, f1, clock, nets(0), uuid, hash);
    var mid := ForwardStep(h, s, f1, clock, nets(0));
    assert mid.(outbox := h.outbox) == h;
    assert HubValid(mid) by {
      PacketKeepsValid(h, s, f1, clock, nets(0), uuid, hash);
    }
    FrameForwarded(mid, s, f2, clock, nets(1), uuid, hash);
    var ps := [f1, f2];
    assert ps[..0] == [] && ps[..2] == ps;
    PacketsSnoc(h, s, ps, 0, clock, nets, uuid, hash);
    PacketsSnoc(h, s, ps, 1, clock, nets, uuid, hash);
    var after := ForwardStep(mid, s, f2, clock, nets(1));
    ForwardPeerView(h, s, f1, clock, nets(0), t);
    ForwardPeerView(mid, s, f2, clock, nets(1), t);
    ForwardSenderView(mid, s, f2, clock, nets(1));
    var members := Get(mid.rooms, room);
    MemberOfRange(mid.clients, mid.rooms, room, t);
    DroppedExactly(members, Some(s), true, nets(1), t);
    var d := Dropped(members, Some(s), true, nets(1));
    var k :| 0 <= k < |d| && d[k] == t;
    assert Advisories(d, nets(1))[k] == ServerEvent(Congested(nets(1).backlog(t)));
  }

  // ---------------------------------------------------------------------
  // Last-seen stamps

  /** Each connection's last-seen stamp. */
  function SeenAt(clients: map<Sock, ClientCtx>): (m: map<Sock, int>)
    ensures m.Keys == clients.Keys
  {
    map t | t in clients :: clients[t].lastSeen
  }

  /** Replacing a context by one with the same stamp keeps every stamp. */
  lemma SeenAtUpdate(clients: map<Sock, ClientCtx>, s: Sock, c: ClientCtx)
    requires s in clients && c.lastSeen == clients[s].lastSeen
    ensures SeenAt(clients[s := c]) == SeenAt(clients)
  {
    var a, b := SeenAt(clients[s := c]), SeenAt(clients);
    assert a.Keys == b.Keys;
  }

  lemma CreateKeepsClients(h: HubState, s: Sock, json: Json, clock: Clock, uuid: nat -> string)
    requires s in h.clients
    ensures CreateStep(h, s, json, clock, uuid).clients == h.clients
  {
    var c := h.clients[s];
    var title := Trim(Text(json, "title"));
    if c.role == Factory && title != "" {
      var o := NewOrder(uuid(h.uuidsDrawn), title, Text(json, "description"), c.user, clock.iso);
      var written := Write(h.(workOrders := h.workOrders[o.id := o], uuidsDrawn := h.uuidsDrawn + 1), s, OrderPacket(Created(o)));
      assert written.clients == h.clients;
      assert CreateStep(h, s, json, clock, uuid) == Notify(written, "created", o);
    }
  }

  lemma AcceptKeepsClients(h: HubState, s: Sock, json: Json, clock: Clock)
    requires s in h.clients
    ensures AcceptStep(h, s, json, clock).clients == h.clients
  {
    var c, id := h.clients[s], Text(json, "id");
    if c.role == Expert && CanAccept(h.workOrders, id) {
      var o := Accept(h.workOrders[id], c.user, clock.iso);
      var written := Write(h.(workOrders := h.workOrders[id := o]), s, OrderPacket(Accepted(o)));
      assert AcceptStep(h, s, json, clock) == Notify(written, "accepted", o);
    }
  }

  lemma StatusKeepsClients(h: HubState, s: Sock, json: Json, clock: Clock)
    requires s in h.clients
    ensures StatusStep(h, s, json, clock).clients == h.clients
  {
    var c, id := h.clients[s], Text(json, "id");
    if id in h.workOrders && MayUpdateStatus(h.workOrders[id], Text(json, "status"), c.user) {
      var o := SetStatus(h.workOrders[id], Text(json, "status"), clock.iso);
      var written := Write(h.(workOrders := h.workOrders[id := o]), s, OrderPacket(StatusSet(o)));
      assert StatusStep(h, s, json, clock) == Notify(written, "updated", o);
    }
  }

  lemma OrderKeepsClients(h: HubState, s: Sock, json: Json, clock: Clock, uuid: nat -> string)
    requires s in h.clients
    ensures OrderStep(h, s, json, clock, uuid).clients == h.clients
  {
    var op := Text(json, "op");
    if op == "create" {
      assert OrderStep(h, s, json, clock, uuid) == CreateStep(h, s, json, clock, uuid);
      CreateKeepsClients(h, s, json, clock, uuid);
    } else if op == "accept" {
      assert OrderStep(h, s, json, clock, uuid) == AcceptStep(h, s, json, clock);
      AcceptKeepsClients(h, s, json, clock);
    } else if op == "status" {
      assert OrderStep(h, s, json, clock, uuid) == StatusStep(h, s, json, clock);
      StatusKeepsClients(h, s, json, clock);
    }
  }

  lemma AuthKeepsSeen(h: HubState, s: Sock, json: Json, clock: Clock, uuid: nat -> string, hash: (string, string) -> string)
    requires s in h.clients
    ensures SeenAt(AuthStep(h, s, json, clock, uuid, hash).clients) == SeenAt(h.clients)
  {
    var name := Trim(Text(json, "username"));
    var op := Text(json, "op");
    if op == "register" {
      assert AuthStep(h, s, json, clock, uuid, hash).clients == h.clients;
    } else if op == "login" && Authenticates(h.users, name, Text(json, "password"), "", hash) {
      var c := h.clients[s].(token := uuid(h.uuidsDrawn), user := name, role := h.users[name].role);
      assert AuthStep(h, s, json, clock, uuid, hash).clients == h.clients[s := c];
      SeenAtUpdate(h.clients, s, c);
    } else {
      assert AuthStep(h, s, json, clock, uuid, hash).clients == h.clients;
    }
  }

  lemma JoinKeepsSeen(h: HubState, s: Sock, json: Json, clock: Clock, net: Net)
    requires s in h.clients
    ensures SeenAt(JoinStep(h, s, json, clock, net).clients) == SeenAt(h.clients)
  {
    var c, roomId := h.clients[s], Text(json, "roomId");
    if roomId != "" && !(roomId in h.workOrders && !CanJoin(h.workOrders[roomId], c.user, c.role)) {
      var started := StartStep(h, roomId, clock);
      assert started.clients == h.clients;
      assert JoinStep(h, s, json, clock, net) == EnterStep(started, s, roomId, net);
      assert EnterStep(started, s, roomId, net).clients == h.clients[s := c.(roomId := roomId)];
      SeenAtUpdate(h.clients, s, c.(roomId := roomId));
    } else {
      assert JoinStep(h, s, json, clock, net).clients == h.clients;
    }
  }

  /** No packet handler moves a last-seen stamp. */
  lemma PacketKeepsSeen(h: HubState, s: Sock, p: Packet, clock: Clock, net: Net,
                        uuid: nat -> string, hash: (string, string) -> string)
    requires s in h.clients
    ensures SeenAt(PacketStep(h, s, p, clock, net, uuid, hash).clients) == SeenAt(h.clients)
  {
    var after := PacketStep(h, s, p, clock, net, uuid, hash);
    if p.kind == MsgAuth {
      assert after == AuthStep(h, s, p.json, clock, uuid, hash);
      AuthKeepsSeen(h, s, p.json, clock, uuid, hash);
    } else if p.kind == MsgPing || !SessionOk(h, s) {
      assert after.clients == h.clients;
    } else if p.kind == MsgOrder {
      assert after == OrderStep(h, s, p.json, clock, uuid);
      OrderKeepsClients(h, s, p.json, clock, uuid);
    } else if p.kind == MsgJoinWorkOrder {
      assert after == JoinStep(h, s, p.json, clock, net);
      JoinKeepsSeen(h, s, p.json, clock, net);
    } else {
      assert after.clients == h.clients;
    }
  }

  lemma {:induction false} PacketsKeepSeen(h: HubState, s: Sock, ps: seq<Packet>, clock: Clock, nets: nat -> Net,
                                           uuid: nat -> string, hash: (string, string) -> string)
    requires s in h.clients
    ensures SeenAt(Packets(h, s, ps, clock, nets, uuid, hash).clients) == SeenAt(h.clients)
    decreases |ps|
  {
    if ps != [] {
      var init := ps[..|ps| - 1];
      PacketsKeepSeen(h, s, init, clock, nets, uuid, hash);
      var before := Packets(h, s, init, clock, nets, uuid, hash);
      assert SeenAt(before.clients).Keys == SeenAt(h.clients).Keys;
      PacketKeepsSeen(before, s, ps[|ps| - 1], clock, nets(|ps| - 1), uuid, hash);
    }
  }

  /** Every read stamps its connection with the read's time, before and
      whatever the decoding, and moves no other stamp; so a connection is
      never evicted at the time it was last read from. */
  lemma ReadStamps(h: HubState, s: Sock, data: seq<bv8>, clock: Clock, nets: nat -> Net, drain: seq<bv8> -> Drained,
                   uuid: nat -> string, hash: (string, string) -> string)
    requires s in h.clients
    ensures var after := ReadStep(h, s, data, clock, nets, drain, uuid, hash);
      && SeenAt(after.clients) == SeenAt(h.clients)[s := clock.ms]
      && s in after.clients && s !in Expired(after.clients, clock.ms)
  {
    var c := h.clients[s];
    var d := drain(c.buffer + data);
    var read := h.(clients := h.clients[s := c.(buffer := d.rest, lastSeen := clock.ms)]);
    var a, b := SeenAt(read.clients), SeenAt(h.clients)[s := clock.ms];
    assert a.Keys == b.Keys;
    if d.ok {
      PacketsKeepSeen(read, s, d.packets, clock, nets, uuid, hash);
    }
    var after := ReadStep(h, s, data, clock, nets, drain, uuid, hash);
    assert SeenAt(after.clients)[s] == clock.ms;
  }
}
