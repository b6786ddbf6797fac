/** What the room hub's steps preserve and what each party sees: the hub's
    invariant holds after every event, no packet adds or drops a
    connection, an unauthenticated connection is only ever answered, and
    the writes of joining, leaving and forwarding reach exactly the
    connections the source's loops visit. */
module StepProofs {
  import opened Common
  import opened Records
  import opened Orders
  import opened RoomIndex
  import opened Fanout
  import opened Hub
  import opened Steps

  // ---------------------------------------------------------------------
  // The invariant

  lemma StartedValid(storedUsers: map<string, UserRecord>, storedOrders: map<string, OrderRecord>)
    ensures HubValid(Started(storedUsers, storedOrders))
  {
  }

  /** A new connection has no room, so the room index is unaffected. */
  lemma ConnectKeepsValid(h: HubState, s: Sock, now: int)
    requires HubValid(h) && s !in h.clients
    ensures HubValid(ConnectStep(h, s, now))
  {
    RoomTableKeep(h.clients, s, NewClient(now));
  }

  /** Stamping a read keeps the connection's room. */
  lemma StampKeepsValid(h: HubState, s: Sock, rest: seq<bv8>, ms: int)
    requires HubValid(h) && s in h.clients
    ensures HubValid(h.(clients := h.clients[s := h.clients[s].(buffer := rest, lastSeen := ms)]))
  {
    RoomTableKeep(h.clients, s, h.clients[s].(buffer := rest, lastSeen := ms));
  }

  lemma DisconnectKeepsValid(h: HubState, s: Sock, net: Net)
    requires HubValid(h)
    ensures HubValid(DisconnectStep(h, s, net))
  {
    if s in h.clients {
      var table := RoomTable(h.clients);
      assert RoomOf(table, s) == h.clients[s].roomId;
      LeaveKeepsIndex(table, h.rooms, s);
      RoomTableRemove(h.clients, s);
    }
  }

  /** A step that keeps the invariant and the set of connections. */
  ghost predicate Preserves(h: HubState, after: HubState) {
    HubValid(after) && after.clients.Keys == h.clients.Keys
  }

  /** The write logs play no part in the invariant. */
  lemma OutboxOnly(h: HubState, outbox: Log<Outgoing>)
    requires HubValid(h)
    ensures Preserves(h, h.(outbox := outbox))
  {
  }

  lemma WriteKeepsValid(h: HubState, s: Sock, o: Outgoing)
    requires HubValid(h)
    ensures Preserves(h, Write(h, s, o))
  {
    OutboxOnly(h, Write(h, s, o).outbox);
  }

  /** Storing an order under its own id keeps the invariant. */
  lemma StoreOrder(h: HubState, o: WorkOrder, drawn: nat)
    requires HubValid(h)
    ensures Preserves(h, h.(workOrders := h.workOrders[o.id := o], uuidsDrawn := drawn))
  {
  }

  lemma LoginKeepsValid(h: HubState, s: Sock, json: Json, uuid: nat -> string, hash: (string, string) -> string)
    requires HubValid(h) && s in h.clients
    ensures Preserves(h, LoginStep(h, s, json, uuid, hash))
  {
    var name := Trim(Text(json, "username"));
    if Authenticates(h.users, name, Text(json, "password"), "", hash) {
      var token := uuid(h.uuidsDrawn);
      var c := h.clients[s].(token := token, user := name, role := h.users[name].role);
      RoomTableKeep(h.clients, s, c);
      var h1 := h.(uuidsDrawn := h.uuidsDrawn + 1, sessions := h.sessions[token := name], clients := h.clients[s := c]);
      assert HubValid(h1);
      OutboxOnly(h1, LoginStep(h, s, json, uuid, hash).outbox);
    } else {
      WriteKeepsValid(h, s, ServerEvent(AuthError(InvalidCredentials)));
    }
  }

  lemma RegisterKeepsValid(h: HubState, s: Sock, json: Json, clock: Clock,
                           uuid: nat -> string, hash: (string, string) -> string)
    requires HubValid(h) && s in h.clients
    ensures Preserves(h, RegisterStep(h, s, json, clock, uuid, hash))
  {
    var name, password, role := Trim(Text(json, "username")), Text(json, "password"), Text(json, "role");
    match RegisterCheck(h.users, name, password, role)
    case Some(reason) =>
      WriteKeepsValid(h, s, ServerEvent(AuthError(reason)));
    case None =>
      var h1 := h.(users := h.users[name := NewUser(name, password, uuid(h.uuidsDrawn), role, clock.iso, hash)],
                   uuidsDrawn := h.uuidsDrawn + 1);
      assert HubValid(h1);
      WriteKeepsValid(h1, s, ServerEvent(Registered));
  }

  lemma AuthKeepsValid(h: HubState, s: Sock, json: Json, clock: Clock,
                       uuid: nat -> string, hash: (string, string) -> string)
    requires HubValid(h) && s in h.clients
    ensures Preserves(h, AuthStep(h, s, json, clock, uuid, hash))
  {
    var op := Text(json, "op");
    if op == "register" {
      RegisterKeepsValid(h, s, json, clock, uuid, hash);
    } else if op == "login" {
      LoginKeepsValid(h, s, json, uuid, hash);
    } else {
      WriteKeepsValid(h, s, ServerEvent(AuthError(UnknownOperation)));
    }
  }

  lemma CreateKeepsValid(h: HubState, s: Sock, json: Json, clock: Clock, uuid: nat -> string)
    requires HubValid(h) && s in h.clients
    ensures Preserves(h, CreateStep(h, s, json, clock, uuid))
  {
    var c := h.clients[s];
    var title := Trim(Text(json, "title"));
    if c.role != Factory {
      WriteKeepsValid(h, s, ServerEvent(Reply(403, OnlyFactoryCreates)));
    } else if title == "" {
      WriteKeepsValid(h, s, ServerEvent(Reply(400, TitleRequired)));
    } else {
      var o := NewOrder(uuid(h.uuidsDrawn), title, Text(json, "description"), c.user, clock.iso);
      StoreOrder(h, o, h.uuidsDrawn + 1);
      var h1 := h.(workOrders := h.workOrders[o.id := o], uuidsDrawn := h.uuidsDrawn + 1);
      OutboxOnly(h1, CreateStep(h, s, json, clock, uuid).outbox);
    }
  }

  lemma AcceptKeepsValid(h: HubState, s: Sock, json: Json, clock: Clock)
    requires HubValid(h) && s in h.clients
    ensures Preserves(h, AcceptStep(h, s, json, clock))
  {
    var c := h.clients[s];
    var id := Text(json, "id");
    if c.role != Expert {
      WriteKeepsValid(h, s, ServerEvent(Reply(403, OnlyExpertAccepts)));
    } else if CanAccept(h.workOrders, id) {
      var o := Accept(h.workOrders[id], c.user, clock.iso);
      StoreOrder(h, o, h.uuidsDrawn);
      var h1 := h.(workOrders := h.workOrders[o.id := o], uuidsDrawn := h.uuidsDrawn);
      OutboxOnly(h1, AcceptStep(h, s, json, clock).outbox);
    } else {
      WriteKeepsValid(h, s, ServerEvent(Reply(400, CannotAccept)));
    }
  }

  lemma StatusKeepsValid(h: HubState, s: Sock, json: Json, clock: Clock)
    requires HubValid(h) && s in h.clients
    ensures Preserves(h, StatusStep(h, s, json, clock))
  {
    var c := h.clients[s];
    var id, status := Text(json, "id"), Text(json, "status");
    if id in h.workOrders && MayUpdateStatus(h.workOrders[id], status, c.user) {
      var o := SetStatus(h.workOrders[id], status, clock.iso);
      StoreOrder(h, o, h.uuidsDrawn);
      var h1 := h.(workOrders := h.workOrders[o.id := o], uuidsDrawn := h.uuidsDrawn);
      OutboxOnly(h1, StatusStep(h, s, json, clock).outbox);
    } else {
      WriteKeepsValid(h, s, ServerEvent(Reply(400, CannotUpdateStatus)));
    }
  }

  lemma OrderKeepsValid(h: HubState, s: Sock, json: Json, clock: Clock, uuid: nat -> string)
    requires HubValid(h) && s in h.clients
    ensures Preserves(h, OrderStep(h, s, json, clock, uuid))
  {
    var op := Text(json, "op");
    var c := h.clients[s];
    if op == "create" {
      CreateKeepsValid(h, s, json, clock, uuid);
    } else if op == "list" {
      WriteKeepsValid(h, s, OrderPacket(Listed(ForUser(h.workOrders, c.user, c.role))));
    } else if op == "accept" {
      AcceptKeepsValid(h, s, json, clock);
    } else if op == "status" {
      StatusKeepsValid(h, s, json, clock);
    } else {
      WriteKeepsValid(h, s, ServerEvent(Reply(400, UnknownOperation)));
    }
  }

  lemma StartKeepsValid(h: HubState, roomId: string, clock: Clock)
    requires HubValid(h)
    ensures Preserves(h, StartStep(h, roomId, clock))
  {
    if roomId in h.workOrders && h.workOrders[roomId].status == Assigned {
      var o := Progress(h.workOrders[roomId], clock.iso);
      StoreOrder(h, o, h.uuidsDrawn);
      var h1 := h.(workOrders := h.workOrders[o.id := o], uuidsDrawn := h.uuidsDrawn);
      OutboxOnly(h1, StartStep(h, roomId, clock).outbox);
    }
  }

  /** Joining keeps the room index consistent with the new room. */
  lemma JoinRoomKeepsValid(h: HubState, s: Sock, roomId: string, net: Net)
    requires HubValid(h) && s in h.clients && roomId != ""
    ensures Preserves(h, JoinRoomStep(h, s, roomId, net))
  {
    var c := h.clients[s];
    var table := RoomTable(h.clients);
    assert RoomOf(table, s) == c.roomId;
    JoinKeepsIndex(table, h.rooms, s, roomId);
    RoomTableUpdate(h.clients, s, c.(roomId := roomId));
  }

  lemma EnterKeepsValid(h: HubState, s: Sock, roomId: string, net: Net)
    requires HubValid(h) && s in h.clients && roomId != ""
    ensures Preserves(h, EnterStep(h, s, roomId, net))
  {
    var joined := JoinRoomStep(h, s, roomId, net);
    JoinRoomKeepsValid(h, s, roomId, net);
    OutboxOnly(joined, EnterStep(h, s, roomId, net).outbox);
  }

  lemma JoinKeepsValid(h: HubState, s: Sock, json: Json, clock: Clock, net: Net)
    requires HubValid(h) && s in h.clients
    ensures Preserves(h, JoinStep(h, s, json, clock, net))
  {
    var roomId := Text(json, "roomId");
    var c := h.clients[s];
    if roomId == "" {
      WriteKeepsValid(h, s, ServerEvent(Reply(400, RoomIdRequired)));
    } else if roomId in h.workOrders && !CanJoin(h.workOrders[roomId], c.user, c.role) {
      WriteKeepsValid(h, s, ServerEvent(Reply(403, NotAuthorizedToJoin)));
    } else {
      StartKeepsValid(h, roomId, clock);
      EnterKeepsValid(StartStep(h, roomId, clock), s, roomId, net);
    }
  }

  lemma SessionKeepsValid(h: HubState, s: Sock, p: Packet, clock: Clock, net: Net, uuid: nat -> string)
    requires HubValid(h) && s in h.clients
    ensures Preserves(h, SessionStep(h, s, p, clock, net, uuid))
  {
    if p.kind == MsgOrder {
      OrderKeepsValid(h, s, p.json, clock, uuid);
    } else if p.kind == MsgJoinWorkOrder {
      JoinKeepsValid(h, s, p.json, clock, net);
    } else {
      OutboxOnly(h, ForwardStep(h, s, p, clock, net).outbox);
    }
  }

  /** Every packet keeps the invariant, and no packet adds or drops a
      connection. */
  lemma PacketKeepsValid(h: HubState, s: Sock, p: Packet, clock: Clock, net: Net,
                         uuid: nat -> string, hash: (string, string) -> string)
    requires HubValid(h) && s in h.clients
    ensures Preserves(h, PacketStep(h, s, p, clock, net, uuid, hash))
  {
    if p.kind == MsgAuth {
      AuthKeepsValid(h, s, p.json, clock, uuid, hash);
    } else if p.kind == MsgPing {
      WriteKeepsValid(h, s, Pong(p.json["ts" := Num(clock.ms)]));
    } else if !SessionOk(h, s) {
      WriteKeepsValid(h, s, ServerEvent(Reply(401, AuthRequired)));
    } else {
      SessionKeepsValid(h, s, p, clock, net, uuid);
    }
  }

  /** The packets of one read keep the invariant and the connections. */
  lemma {:induction false} PacketsKeepValid(h: HubState, s: Sock, ps: seq<Packet>, clock: Clock, nets: nat -> Net,
                                            uuid: nat -> string, hash: (string, string) -> string)
    requires HubValid(h) && s in h.clients
    ensures Preserves(h, Packets(h, s, ps, clock, nets, uuid, hash))
    decreases |ps|
  {
    if ps != [] {
      PacketsKeepValid(h, s, ps[..|ps| - 1], clock, nets, uuid, hash);
      var before := Packets(h, s, ps[..|ps| - 1], clock, nets, uuid, hash);
      PacketKeepsValid(before, s, ps[|ps| - 1], clock, nets(|ps| - 1), uuid, hash);
    }
  }

  /** Handling one more packet of a read is one more step. */
  lemma PacketsSnoc(h: HubState, s: Sock, ps: seq<Packet>, i: nat, clock: Clock, nets: nat -> Net,
                    uuid: nat -> string, hash: (string, string) -> string)
    requires i < |ps| && s in Packets(h, s, ps[..i], clock, nets, uuid, hash).clients
    ensures Packets(h, s, ps[..i + 1], clock, nets, uuid, hash)
         == PacketStep(Packets(h, s, ps[..i], clock, nets, uuid, hash), s, ps[i], clock, nets(i), uuid, hash)
  {
    assert ps[..i + 1][..i] == ps[..i];
  }

  /** A whole read keeps the invariant and the connections. */
  lemma ReadKeepsValid(h: HubState, s: Sock, data: seq<bv8>, clock: Clock, nets: nat -> Net, drain: seq<bv8> -> Drained,
                       uuid: nat -> string, hash: (string, string) -> string)
    requires HubValid(h)
    ensures Preserves(h, ReadStep(h, s, data, clock, nets, drain, uuid, hash))
  {
    if s in h.clients {
      var c := h.clients[s];
      var d := drain(c.buffer + data);
      StampKeepsValid(h, s, d.rest, clock.ms);
      var read := h.(clients := h.clients[s := c.(buffer := d.rest, lastSeen := clock.ms)]);
      PacketsKeepValid(read, s, d.packets, clock, nets, uuid, hash);
    }
  }
}
