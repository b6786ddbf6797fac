/** The room hub as an object: a single owner of the users, work orders,
    sessions, connections and the room multimap, driven by connection,
    read, disconnect and heartbeat events. Each handler is proved to change
    the hub's state exactly as the matching step function of module Steps
    says; the properties of those steps are proved in module StepProofs.
    The hub's state as a value is
    `HubState(users, workOrders, sessions, clients, rooms, outbox, uuidsDrawn)`,
    written out in each contract rather than behind a heap-reading function. */
module Server {
  import opened Common
  import opened Records
  import opened Orders
  import opened RoomIndex
  import opened Fanout
  import opened Hub
  import opened Steps
  import opened StepProofs

  class RoomHub {
    /** QUuid::createUuid, as the n-th identifier drawn. */
    const uuid: nat -> string
    /** hashPassword: SHA-256 over password and salt, left uninterpreted. */
    const hash: (string, string) -> string
    /** drainPackets: the packet decoder, left uninterpreted. */
    const drain: seq<bv8> -> Drained
    const heartbeatIntervalMs: int

    var users: map<string, User>
    var workOrders: map<string, WorkOrder>
    var sessions: map<string, string>
    var clients: map<Sock, ClientCtx>
    var rooms: Rooms
    var outbox: Log<Outgoing>
    /** How many identifiers have been drawn so far. */
    var uuidsDrawn: nat
    /** The tables as last written to users.json and workorders.json: the
        files hold UsersDoc(usersSaved) and OrdersDoc(ordersSaved). */
    var usersSaved: map<string, User>
    var ordersSaved: map<string, WorkOrder>

    /** Every change to either table has been written to its file. */
    ghost predicate Saved()
      reads this`users, this`workOrders, this`usersSaved, this`ordersSaved
    {
      usersSaved == users && ordersSaved == workOrders
    }

    /** The hub's invariant, over its state as a value. */
    ghost predicate Valid()
      reads this`users, this`workOrders, this`sessions, this`clients, this`rooms, this`outbox, this`uuidsDrawn,
            this`usersSaved, this`ordersSaved
    {
      HubValid(HubState(users, workOrders, sessions, clients, rooms, outbox, uuidsDrawn)) && Saved()
    }

    /** The constructor: load both documents, arm the heartbeat timer. */
    constructor (uuid: nat -> string, hash: (string, string) -> string, drain: seq<bv8> -> Drained,
                 storedUsers: map<string, UserRecord>, storedOrders: map<string, OrderRecord>)
      ensures Valid()
      ensures HubState(users, workOrders, sessions, clients, rooms, outbox, uuidsDrawn)
           == Started(storedUsers, storedOrders)
      ensures this.uuid == uuid && this.hash == hash && this.drain == drain
      ensures heartbeatIntervalMs == HeartbeatIntervalMs
      ensures UsersDoc(usersSaved) == storedUsers && OrdersDoc(ordersSaved) == storedOrders
    {
      this.uuid, this.hash, this.drain := uuid, hash, drain;
      heartbeatIntervalMs := HeartbeatIntervalMs;
      users := LoadUsers(storedUsers);
      workOrders := LoadOrders(storedOrders);
      sessions, clients, rooms, outbox, uuidsDrawn := map[], map[], map[], map[], 0;
      usersSaved, ordersSaved := users, workOrders;
      new;
      UsersDocRoundTrip(storedUsers);
      OrdersDocRoundTrip(storedOrders);
      StartedValid(storedUsers, storedOrders);
    }

    // -------------------------------------------------------------------
    // Small steps

    /** generateToken / generateSalt / a new order id. */
    method NextUuid() returns (id: string)
      modifies this`uuidsDrawn
      ensures id == uuid(old(uuidsDrawn)) && uuidsDrawn == old(uuidsDrawn) + 1
    {
      id := uuid(uuidsDrawn);
      uuidsDrawn := uuidsDrawn + 1;
    }

    /** `sock->write(packet)`. */
    method Send(s: Sock, o: Outgoing)
      modifies this`outbox
      ensures outbox == Append(old(outbox), s, o)
      ensures forall t :: Get(outbox, t) == Get(old(outbox), t) + (if t == s then [o] else [])
    {
      forall t ensures Get(Append(outbox, s, o), t) == Get(outbox, t) + (if t == s then [o] else []) {
        AppendAt(outbox, s, o, t);
      }
      outbox := Append(outbox, s, o);
    }

    method SaveUsers()
      modifies this`usersSaved
      ensures usersSaved == users
    {
      usersSaved := users;
    }

    method SaveWorkOrders()
      modifies this`ordersSaved
      ensures ordersSaved == workOrders
    {
      ordersSaved := workOrders;
    }

    // -------------------------------------------------------------------
    // Connections

    /** A new connection: a blank context stamped with the accept time. */
    method OnNewConnection(s: Sock, clock: Clock)
      requires Valid() && s !in clients
      modifies this`clients
      ensures Valid()
      ensures HubState(users, workOrders, sessions, clients, rooms, outbox, uuidsDrawn)
           == ConnectStep(old(HubState(users, workOrders, sessions, clients, rooms, outbox, uuidsDrawn)), s, clock.ms)
    {
      ConnectKeepsValid(HubState(users, workOrders, sessions, clients, rooms, outbox, uuidsDrawn), s, clock.ms);
      clients := clients[s := NewClient(clock.ms)];
    }

    /** A closed connection: its room entries, its session and its context
        go, and the room it was in is told who left. */
    method OnDisconnected(s: Sock, net: Net)
      requires Valid()
      modifies this`clients, this`rooms, this`sessions, this`outbox
      ensures Valid()
      ensures HubState(users, workOrders, sessions, clients, rooms, outbox, uuidsDrawn)
           == DisconnectStep(old(HubState(users, workOrders, sessions, clients, rooms, outbox, uuidsDrawn)), s, net)
    {
      ghost var h := HubState(users, workOrders, sessions, clients, rooms, outbox, uuidsDrawn);
      DisconnectKeepsValid(h, s, net);
      if s !in clients { return; }
      var c := clients[s];
      LeaveOldRoom(s, net);
      if c.token != "" {
        sessions := sessions - {c.token};
      }
      clients := clients - {s};
      assert HubState(users, workOrders, sessions, clients, rooms, outbox, uuidsDrawn) == DisconnectStep(h, s, net);
    }

    /** Bytes arrived: they join the buffer, the connection is stamped as
        seen (before any decoding, whatever the bytes are), and each complete
        packet is handled in order; the i-th packet sees the sockets as
        `nets(i)` reports them. */
    method OnReadyRead(s: Sock, data: seq<bv8>, clock: Clock, nets: nat -> Net)
      requires Valid()
      modifies this
      ensures Valid()
      ensures HubState(users, workOrders, sessions, clients, rooms, outbox, uuidsDrawn)
           == ReadStep(old(HubState(users, workOrders, sessions, clients, rooms, outbox, uuidsDrawn)), s, data, clock, nets, drain, uuid, hash)
    {
      if s !in clients { return; }
      var c := clients[s];
      var d := drain(c.buffer + data);
      StampKeepsValid(HubState(users, workOrders, sessions, clients, rooms, outbox, uuidsDrawn), s, d.rest, clock.ms);
      clients := clients[s := c.(buffer := d.rest, lastSeen := clock.ms)];
      if d.ok {
        ghost var read := HubState(users, workOrders, sessions, clients, rooms, outbox, uuidsDrawn);
        var i := 0;
        while i < |d.packets|
          invariant 0 <= i <= |d.packets|
          invariant Valid() && s in clients
          invariant HubState(users, workOrders, sessions, clients, rooms, outbox, uuidsDrawn) == Packets(read, s, d.packets[..i], clock, nets, uuid, hash)
        {
          PacketsSnoc(read, s, d.packets, i, clock, nets, uuid, hash);
          PacketKeepsValid(HubState(users, workOrders, sessions, clients, rooms, outbox, uuidsDrawn), s, d.packets[i], clock, nets(i), uuid, hash);
          HandlePacket(s, d.packets[i], clock, nets(i));
          i := i + 1;
        }
        assert d.packets[..|d.packets|] == d.packets;
      }
    }

    /** The heartbeat sweep: the connections idle for longer than the
        session timeout; each is then told to disconnect, which runs
        OnDisconnected for it. */
    method OnHeartbeatTimer(now: int) returns (toDisconnect: set<Sock>)
      ensures toDisconnect == Expired(clients, now)
    {
      toDisconnect := {};
      var pending := clients.Keys;
      while pending != {}
        invariant pending <= clients.Keys
        invariant toDisconnect == Expired(clients, now) - pending
        decreases pending
      {
        var s :| s in pending;
        if now - clients[s].lastSeen > SessionTimeoutMs {
          toDisconnect := toDisconnect + {s};
        }
        pending := pending - {s};
      }
    }

    // -------------------------------------------------------------------
    // Dispatch

    /** handlePacket: auth and ping first, then the session gate, then
        orders, order-room joins, and forwarding of everything else. */
    method HandlePacket(s: Sock, p: Packet, clock: Clock, net: Net)
      requires Saved() && SessionsKnown(sessions, users) && s in clients
      modifies this
      ensures Saved()
      ensures HubState(users, workOrders, sessions, clients, rooms, outbox, uuidsDrawn)
           == PacketStep(old(HubState(users, workOrders, sessions, clients, rooms, outbox, uuidsDrawn)), s, p, clock, net, uuid, hash)
    {
      if p.kind == MsgAuth {
        HandleAuth(s, p.json, clock);
        return;
      }
      if p.kind == MsgPing {
        HandlePing(s, p.json, clock);
        return;
      }
      var valid := false;
      if clients[s].token != "" {
        valid := IsValidToken(clients[s].token);
      }
      if !valid {
        Send(s, ServerEvent(Reply(401, AuthRequired)));
        return;
      }
      HandleSessionPacket(s, p, clock, net);
    }

    /** The rest of handlePacket's switch, past the session gate. */
    method HandleSessionPacket(s: Sock, p: Packet, clock: Clock, net: Net)
      requires Saved() && SessionsKnown(sessions, users) && s in clients
      modifies this`workOrders, this`ordersSaved, this`uuidsDrawn, this`outbox, this`sessions, this`clients, this`rooms
      ensures Saved()
      ensures HubState(users, workOrders, sessions, clients, rooms, outbox, uuidsDrawn)
           == SessionStep(old(HubState(users, workOrders, sessions, clients, rooms, outbox, uuidsDrawn)), s, p, clock, net, uuid)
    {
      if p.kind == MsgOrder {
        HandleOrder(s, p.json, clock);
      } else if p.kind == MsgJoinWorkOrder {
        HandleJoinWorkOrder(s, p.json, clock, net);
      } else {
        Forward(s, p, clock, net);
      }
    }

    /** handlePing: the request echoed back with a timestamp. */
    method HandlePing(s: Sock, json: Json, clock: Clock)
      modifies this`outbox
      ensures HubState(users, workOrders, sessions, clients, rooms, outbox, uuidsDrawn)
           == Write(old(HubState(users, workOrders, sessions, clients, rooms, outbox, uuidsDrawn)), s, Pong(json["ts" := Num(clock.ms)]))
    {
      Send(s, Pong(json["ts" := Num(clock.ms)]));
    }

    // -------------------------------------------------------------------
    // Authentication

    /** handleAuth: registration and login. */
    method HandleAuth(s: Sock, json: Json, clock: Clock)
      requires Saved() && s in clients
      modifies this`users, this`usersSaved, this`uuidsDrawn, this`outbox, this`sessions, this`clients
      ensures Saved()
      ensures HubState(users, workOrders, sessions, clients, rooms, outbox, uuidsDrawn)
           == AuthStep(old(HubState(users, workOrders, sessions, clients, rooms, outbox, uuidsDrawn)), s, json, clock, uuid, hash)
    {
      var op := Text(json, "op");
      if op == "register" {
        Register(s, json, clock);
      } else if op == "login" {
        Login(s, json);
      } else {
        Send(s, ServerEvent(AuthError(UnknownOperation)));
      }
    }

    /** The register branch of handleAuth. */
    method Register(s: Sock, json: Json, clock: Clock)
      requires Saved()
      modifies this`users, this`usersSaved, this`uuidsDrawn, this`outbox
      ensures Saved()
      ensures HubState(users, workOrders, sessions, clients, rooms, outbox, uuidsDrawn)
           == RegisterStep(old(HubState(users, workOrders, sessions, clients, rooms, outbox, uuidsDrawn)), s, json, clock, uuid, hash)
    {
      var username := Trim(Text(json, "username"));
      var password := Text(json, "password");
      var role := Text(json, "role");
      if username == "" || password == "" {
        Send(s, ServerEvent(AuthError(UsernamePasswordRequired)));
        return;
      }
      if role != Factory && role != Expert {
        Send(s, ServerEvent(AuthError(BadRole)));
        return;
      }
      if username in users {
        Send(s, ServerEvent(AuthError(UsernameTaken)));
        return;
      }
      var salt := NextUuid();
      users := users[username := NewUser(username, password, salt, role, clock.iso, hash)];
      SaveUsers();
      Send(s, ServerEvent(Registered));
    }

    /** The login branch of handleAuth. */
    method Login(s: Sock, json: Json)
      requires s in clients
      modifies this`sessions, this`uuidsDrawn, this`clients, this`outbox
      ensures HubState(users, workOrders, sessions, clients, rooms, outbox, uuidsDrawn)
           == LoginStep(old(HubState(users, workOrders, sessions, clients, rooms, outbox, uuidsDrawn)), s, json, uuid, hash)
    {
      var username := Trim(Text(json, "username"));
      var password := Text(json, "password");
      var ok, token := AuthenticateUser(username, password, "");
      if ok {
        var user := users[username];
        var c := clients[s];
        clients := clients[s := c.(token := token, user := username, role := user.role)];
        Send(s, ServerEvent(LoggedIn(token, Profile(username, user.role, user.createdAt))));
      } else {
        Send(s, ServerEvent(AuthError(InvalidCredentials)));
      }
    }

    /** authenticateUser: on success a fresh token is recorded for the user. */
    method AuthenticateUser(username: string, password: string, role: string) returns (ok: bool, token: string)
      modifies this`sessions, this`uuidsDrawn
      ensures ok == Authenticates(users, username, password, role, hash)
      ensures ok ==> token == uuid(old(uuidsDrawn)) && uuidsDrawn == old(uuidsDrawn) + 1
                     && sessions == old(sessions)[token := username]
      ensures !ok ==> uuidsDrawn == old(uuidsDrawn) && sessions == old(sessions)
    {
      token := "";
      if username !in users { return false, token; }
      var user := users[username];
      if role != "" && user.role != role { return false, token; }
      if hash(password, user.salt) != user.passwordHash { return false, token; }
      token := NextUuid();
      sessions := sessions[token := username];
      ok := true;
    }

    /** isValidToken: a session whose user has vanished is dropped (which
        cannot happen while every session names a registered user). */
    method IsValidToken(token: string) returns (ok: bool)
      modifies this`sessions
      ensures ok == TokenValid(old(sessions), users, token)
      ensures sessions == if token in old(sessions) && old(sessions)[token] !in users
                          then old(sessions) - {token} else old(sessions)
    {
      if token !in sessions { return false; }
      var username := sessions[token];
      if username !in users {
        sessions := sessions - {token};
        return false;
      }
      return true;
    }

    // -------------------------------------------------------------------
    // Work orders

    /** handleOrder: create, list, accept and status. */
    method HandleOrder(s: Sock, json: Json, clock: Clock)
      requires Saved() && SessionsKnown(sessions, users) && s in clients
      modifies this`workOrders, this`ordersSaved, this`uuidsDrawn, this`outbox, this`sessions
      ensures Saved()
      ensures HubState(users, workOrders, sessions, clients, rooms, outbox, uuidsDrawn)
           == OrderStep(old(HubState(users, workOrders, sessions, clients, rooms, outbox, uuidsDrawn)), s, json, clock, uuid)
    {
      var op := Text(json, "op");
      if op == "create" {
        CreateOrder(s, json, clock);
      } else if op == "list" {
        var c := clients[s];
        var orders := GetWorkOrdersForUser(c.user, c.role);
        Send(s, OrderPacket(Listed(orders)));
      } else if op == "accept" {
        AcceptOrder(s, json, clock);
      } else if op == "status" {
        SetOrderStatus(s, json, clock);
      } else {
        Send(s, ServerEvent(Reply(400, UnknownOperation)));
      }
    }

    /** The create branch of handleOrder. */
    method CreateOrder(s: Sock, json: Json, clock: Clock)
      requires Saved() && SessionsKnown(sessions, users) && s in clients
      modifies this`workOrders, this`ordersSaved, this`uuidsDrawn, this`outbox, this`sessions
      ensures Saved()
      ensures HubState(users, workOrders, sessions, clients, rooms, outbox, uuidsDrawn)
           == CreateStep(old(HubState(users, workOrders, sessions, clients, rooms, outbox, uuidsDrawn)), s, json, clock, uuid)
    {
      var c := clients[s];
      if c.role != Factory {
        Send(s, ServerEvent(Reply(403, OnlyFactoryCreates)));
        return;
      }
      var title := Trim(Text(json, "title"));
      var description := Text(json, "description");
      if title == "" {
        Send(s, ServerEvent(Reply(400, TitleRequired)));
        return;
      }
      ghost var h := HubState(users, workOrders, sessions, clients, rooms, outbox, uuidsDrawn);
      var id := CreateWorkOrder(title, description, c.user, clock);
      var order := workOrders[id];
      assert HubState(users, workOrders, sessions, clients, rooms, outbox, uuidsDrawn) == h.(workOrders := h.workOrders[id := order], uuidsDrawn := h.uuidsDrawn + 1);
      Send(s, OrderPacket(Created(order)));
      BroadcastWorkOrderEvent("created", order);
    }

    /** The accept branch of handleOrder. */
    method AcceptOrder(s: Sock, json: Json, clock: Clock)
      requires Saved() && SessionsKnown(sessions, users) && s in clients
      modifies this`workOrders, this`ordersSaved, this`outbox, this`sessions
      ensures Saved()
      ensures HubState(users, workOrders, sessions, clients, rooms, outbox, uuidsDrawn)
           == AcceptStep(old(HubState(users, workOrders, sessions, clients, rooms, outbox, uuidsDrawn)), s, json, clock)
    {
      var c := clients[s];
      if c.role != Expert {
        Send(s, ServerEvent(Reply(403, OnlyExpertAccepts)));
        return;
      }
      var id := Text(json, "id");
      var ok := AcceptWorkOrder(id, c.user, clock);
      if ok {
        var order := workOrders[id];
        Send(s, OrderPacket(Accepted(order)));
        BroadcastWorkOrderEvent("accepted", order);
      } else {
        Send(s, ServerEvent(Reply(400, CannotAccept)));
      }
    }

    /** The status branch of handleOrder. */
    method SetOrderStatus(s: Sock, json: Json, clock: Clock)
      requires Saved() && SessionsKnown(sessions, users) && s in clients
      modifies this`workOrders, this`ordersSaved, this`outbox, this`sessions
      ensures Saved()
      ensures HubState(users, workOrders, sessions, clients, rooms, outbox, uuidsDrawn)
           == StatusStep(old(HubState(users, workOrders, sessions, clients, rooms, outbox, uuidsDrawn)), s, json, clock)
    {
      var c := clients[s];
      var id := Text(json, "id");
      var status := Text(json, "status");
      var ok := UpdateWorkOrderStatus(id, status, c.user, clock);
      if ok {
        var order := workOrders[id];
        Send(s, OrderPacket(StatusSet(order)));
        BroadcastWorkOrderEvent("updated", order);
      } else {
        Send(s, ServerEvent(Reply(400, CannotUpdateStatus)));
      }
    }

    /** createWorkOrder: a new open order under a fresh id, then saved. */
    method CreateWorkOrder(title: string, description: string, createdBy: string, clock: Clock) returns (id: string)
      modifies this`workOrders, this`ordersSaved, this`uuidsDrawn
      ensures ordersSaved == workOrders
      ensures id == uuid(old(uuidsDrawn)) && uuidsDrawn == old(uuidsDrawn) + 1
      ensures workOrders == old(workOrders)[id := NewOrder(id, title, description, createdBy, clock.iso)]
    {
      id := NextUuid();
      workOrders := workOrders[id := NewOrder(id, title, description, createdBy, clock.iso)];
      SaveWorkOrders();
    }

    /** getWorkOrdersForUser: one pass over the order table. */
    method GetWorkOrdersForUser(username: string, role: string) returns (orders: set<WorkOrder>)
      ensures orders == ForUser(workOrders, username, role)
    {
      orders := {};
      var pending := workOrders.Keys;
      while pending != {}
        invariant pending <= workOrders.Keys
        invariant orders == set id | id in workOrders.Keys - pending && Visible(workOrders[id], username, role) :: workOrders[id]
        decreases pending
      {
        var id :| id in pending;
        var o := workOrders[id];
        if Visible(o, username, role) {
          orders := orders + {o};
        }
        pending := pending - {id};
      }
    }

    /** acceptWorkOrder: only an open order is taken, and then saved. */
    method AcceptWorkOrder(id: string, expert: string, clock: Clock) returns (ok: bool)
      requires ordersSaved == workOrders
      modifies this`workOrders, this`ordersSaved
      ensures ordersSaved == workOrders
      ensures ok == CanAccept(old(workOrders), id)
      ensures workOrders == if ok then old(workOrders)[id := Accept(old(workOrders)[id], expert, clock.iso)]
                            else old(workOrders)
    {
      if id !in workOrders { return false; }
      var order := workOrders[id];
      if order.status != Open { return false; }
      workOrders := workOrders[id := Accept(order, expert, clock.iso)];
      SaveWorkOrders();
      ok := true;
    }

    /** updateWorkOrderStatus: the creator or the assignee may store any
        status, except that only the creator may close or cancel. */
    method UpdateWorkOrderStatus(id: string, newStatus: string, username: string, clock: Clock) returns (ok: bool)
      requires ordersSaved == workOrders
      modifies this`workOrders, this`ordersSaved
      ensures ordersSaved == workOrders
      ensures ok == (id in old(workOrders) && MayUpdateStatus(old(workOrders)[id], newStatus, username))
      ensures workOrders == if ok then old(workOrders)[id := SetStatus(old(workOrders)[id], newStatus, clock.iso)]
                            else old(workOrders)
    {
      if id !in workOrders { return false; }
      var order := workOrders[id];
      var canUpdate := false;
      if order.createdBy == username {
        canUpdate := true;
      } else if order.assignedTo == username {
        canUpdate := true;
      }
      if !canUpdate { return false; }
      if newStatus == Closed && order.createdBy != username { return false; }
      if newStatus == Canceled && order.createdBy != username { return false; }
      workOrders := workOrders[id := SetStatus(order, newStatus, clock.iso)];
      SaveWorkOrders();
      ok := true;
    }

    /** broadcastWorkOrderEvent: the event to every authenticated
        connection, each exactly once. */
    method BroadcastWorkOrderEvent(event: string, order: WorkOrder)
      requires SessionsKnown(sessions, users)
      modifies this`outbox, this`sessions
      ensures HubState(users, workOrders, sessions, clients, rooms, outbox, uuidsDrawn)
           == Notify(old(HubState(users, workOrders, sessions, clients, rooms, outbox, uuidsDrawn)), event, order)
    {
      var pkt := ServerEvent(OrderChanged(event, order));
      ghost var targets := Authenticated(clients, sessions, users);
      SendAllNone(outbox, pkt);
      var pending := clients.Keys;
      ghost var done: set<Sock> := {};
      while pending != {}
        invariant pending <= clients.Keys && done == clients.Keys - pending
        invariant sessions == old(sessions)
        invariant outbox == SendAll(old(outbox), targets * done, pkt)
        decreases pending
      {
        var t :| t in pending;
        NotifyIfAuthenticated(t, pkt);
        if t in targets {
          SendAllStep(old(outbox), targets * done, t, pkt);
          assert targets * (done + {t}) == targets * done + {t};
        } else {
          assert targets * (done + {t}) == targets * done;
        }
        pending := pending - {t};
        done := done + {t};
      }
      assert targets * done == targets;
    }

    /** One turn of broadcastWorkOrderEvent's loop. */
    method NotifyIfAuthenticated(t: Sock, pkt: Outgoing)
      requires SessionsKnown(sessions, users) && t in clients
      modifies this`outbox, this`sessions
      ensures sessions == old(sessions)
      ensures outbox == if t in Authenticated(clients, sessions, users) then Append(old(outbox), t, pkt) else old(outbox)
    {
      var c := clients[t];
      if c.token != "" {
        var ok := IsValidToken(c.token);
        if ok {
          Send(t, pkt);
        }
      }
    }

    // -------------------------------------------------------------------
    // Rooms

    /** The MSG_JOIN_WORKORDER case of handlePacket. */
    method HandleJoinWorkOrder(s: Sock, json: Json, clock: Clock, net: Net)
      requires Saved() && SessionsKnown(sessions, users) && s in clients
      modifies this`workOrders, this`ordersSaved, this`outbox, this`sessions, this`clients, this`rooms
      ensures Saved()
      ensures HubState(users, workOrders, sessions, clients, rooms, outbox, uuidsDrawn)
           == JoinStep(old(HubState(users, workOrders, sessions, clients, rooms, outbox, uuidsDrawn)), s, json, clock, net)
    {
      var roomId := Text(json, "roomId");
      if roomId == "" {
        Send(s, ServerEvent(Reply(400, RoomIdRequired)));
        return;
      }
      var c := clients[s];
      if roomId in workOrders {
        var order := workOrders[roomId];
        var canJoin := false;
        if c.role == Factory && order.createdBy == c.user {
          canJoin := true;
        } else if c.role == Expert && order.assignedTo == c.user {
          canJoin := true;
        }
        if !canJoin {
          Send(s, ServerEvent(Reply(403, NotAuthorizedToJoin)));
          return;
        }
        StartOrder(roomId, clock);
      }
      EnterRoom(s, roomId, net);
    }

    /** An admitted join of an assigned order moves it to in_progress, saves
        it and announces it. */
    method StartOrder(roomId: string, clock: Clock)
      requires Saved() && SessionsKnown(sessions, users) && roomId in workOrders
      modifies this`workOrders, this`ordersSaved, this`outbox, this`sessions
      ensures Saved()
      ensures HubState(users, workOrders, sessions, clients, rooms, outbox, uuidsDrawn)
           == StartStep(old(HubState(users, workOrders, sessions, clients, rooms, outbox, uuidsDrawn)), roomId, clock)
    {
      var order := workOrders[roomId];
      if order.status == Assigned {
        workOrders := workOrders[roomId := order.(status := InProgress, updatedAt := clock.iso)];
        SaveWorkOrders();
        BroadcastWorkOrderEvent("updated", workOrders[roomId]);
      }
    }

    /** The end of the MSG_JOIN_WORKORDER case: joinRoom, then the
        acknowledgement and the snapshot to the joiner, then the join notice
        to the room. */
    method EnterRoom(s: Sock, roomId: string, net: Net)
      requires s in clients
      modifies this`clients, this`rooms, this`outbox
      ensures HubState(users, workOrders, sessions, clients, rooms, outbox, uuidsDrawn)
           == EnterStep(old(HubState(users, workOrders, sessions, clients, rooms, outbox, uuidsDrawn)), s, roomId, net)
    {
      var c := clients[s];
      JoinRoom(s, roomId, net);
      Send(s, ServerEvent(JoinAck(roomId)));
      SendRoomMembersTo(s, roomId, "snapshot", c.user);
      BroadcastRoomMembers(roomId, "join", c.user, net);
    }

    /** joinRoom: leave the old room (telling its members), then enter the
        new one. */
    method JoinRoom(s: Sock, roomId: string, net: Net)
      requires s in clients
      modifies this`clients, this`rooms, this`outbox
      ensures HubState(users, workOrders, sessions, clients, rooms, outbox, uuidsDrawn)
           == JoinRoomStep(old(HubState(users, workOrders, sessions, clients, rooms, outbox, uuidsDrawn)), s, roomId, net)
    {
      var c := clients[s];
      LeaveOldRoom(s, net);
      clients := clients[s := c.(roomId := roomId)];
      rooms := Inserted(rooms, roomId, s);
    }

    /** The leave step shared by joinRoom and onDisconnected: the socket is
        erased from its room's range and the remaining members are told. The
        context itself is not touched. */
    method LeaveOldRoom(s: Sock, net: Net)
      requires s in clients
      modifies this`rooms, this`outbox
      ensures rooms == Erased(old(rooms), s, clients[s].roomId)
      ensures outbox == LeaveNotice(old(outbox), clients, old(rooms), s, net)
    {
      var c := clients[s];
      if c.roomId != "" {
        var kept := EraseAll(Get(rooms, c.roomId), s);
        rooms := rooms[c.roomId := kept];
        BroadcastRoomMembers(c.roomId, "leave", c.user, net);
      }
    }

    /** The default case of handlePacket. */
    method Forward(s: Sock, p: Packet, clock: Clock, net: Net)
      requires s in clients
      modifies this`outbox
      ensures HubState(users, workOrders, sessions, clients, rooms, outbox, uuidsDrawn)
           == ForwardStep(old(HubState(users, workOrders, sessions, clients, rooms, outbox, uuidsDrawn)), s, p, clock, net)
    {
      var c := clients[s];
      if c.roomId != "" {
        var pkt := Relay(p.kind, Tagged(p.json, c.user, c.roomId, clock.ms), p.bin);
        BroadcastToRoom(c.roomId, pkt, Some(s), p.kind == MsgVideoFrame, net);
      }
    }

    /** broadcastToRoom: the loop over the room's range. */
    method BroadcastToRoom(roomId: string, pkt: Outgoing, except: Option<Sock>, dropIfBacklog: bool, net: Net)
      modifies this`outbox
      ensures outbox == Broadcast(old(outbox), Get(rooms, roomId), pkt, except, dropIfBacklog, net)
    {
      var range := Get(rooms, roomId);
      var i := 0;
      while i < |range|
        invariant 0 <= i <= |range|
        invariant outbox == Broadcast(old(outbox), range[..i], pkt, except, dropIfBacklog, net)
      {
        assert range[..i + 1][..i] == range[..i];
        var sock := range[i];
        if except == Some(sock) || sock !in net.connected {
          // skipped
        } else if dropIfBacklog && net.backlog(sock) > BacklogDropThreshold {
          if except.Some? {
            Send(except.value, ServerEvent(Congested(net.backlog(sock))));
          }
        } else {
          Send(sock, pkt);
        }
        i := i + 1;
      }
      assert range[..|range|] == range;
    }

    /** listMembers: the users in a room's range, in range order. */
    method ListMembers(roomId: string) returns (members: seq<string>)
      ensures members == MemberNames(Get(rooms, roomId), clients)
    {
      var range := Get(rooms, roomId);
      members := [];
      var i := 0;
      while i < |range|
        invariant 0 <= i <= |range|
        invariant members == MemberNames(range[..i], clients)
      {
        assert range[..i + 1][..i] == range[..i];
        if range[i] in clients {
          members := members + [clients[range[i]].user];
        }
        i := i + 1;
      }
      assert range[..|range|] == range;
    }

    /** broadcastRoomMembers: the member list to the whole room, with the
        header's default arguments (no excepted socket, no dropping). */
    method BroadcastRoomMembers(roomId: string, event: string, who: string, net: Net)
      modifies this`outbox
      ensures outbox == RoomNotice(old(outbox), Get(rooms, roomId), clients, event, roomId, who, net)
    {
      var members := ListMembers(roomId);
      BroadcastToRoom(roomId, ServerEvent(RoomMembers(event, roomId, members, who)), None, false, net);
    }

    /** sendRoomMembersTo: the member list to one socket. */
    method SendRoomMembersTo(target: Sock, roomId: string, event: string, who: string)
      modifies this`outbox
      ensures outbox == Append(old(outbox), target,
                               ServerEvent(RoomMembers(event, roomId, MemberNames(Get(rooms, roomId), clients), who)))
    {
      var members := ListMembers(roomId);
      Send(target, ServerEvent(RoomMembers(event, roomId, members, who)));
    }
  }
}
