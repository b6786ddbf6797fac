/** What each event does to the room hub, as a function from the hub's state
    before the event to its state after. Every socket write is an append to
    that socket's log in `outbox`; QUuid::createUuid is `uuid` applied to the
    number of identifiers drawn so far, and hashPassword is `hash`. */
module Steps {
  import opened Common
  import opened Records
  import opened Orders
  import opened RoomIndex
  import opened Fanout
  import opened Hub

  /** The hub's state: the two stores, the session table, the per-connection
      contexts, the room multimap, everything written to each socket, and the
      count of identifiers drawn. */
  datatype HubState = HubState(users: map<string, User>, workOrders: map<string, WorkOrder>,
                               sessions: map<string, string>, clients: map<Sock, ClientCtx>,
                               rooms: Rooms, outbox: Log<Outgoing>, uuidsDrawn: nat)

  /** The hub's invariant: both stores are keyed by their records' own keys,
      every session names a registered user, and the room multimap agrees
      with the room each connection's context names. */
  ghost predicate HubValid(h: HubState) {
    && UsersKeyed(h.users) && OrdersKeyed(h.workOrders)
    && SessionsKnown(h.sessions, h.users)
    && Indexed(RoomTable(h.clients), h.rooms)
  }

  /** The state the constructor builds from the two documents. */
  function Started(storedUsers: map<string, UserRecord>, storedOrders: map<string, OrderRecord>): HubState {
    HubState(LoadUsers(storedUsers), LoadOrders(storedOrders), map[], map[], map[], map[], 0)
  }

  /** One write to one socket. */
  function Write(h: HubState, s: Sock, o: Outgoing): HubState {
    h.(outbox := Append(h.outbox, s, o))
  }

  /** broadcastWorkOrderEvent: the event to every authenticated connection. */
  function Notify(h: HubState, event: string, o: WorkOrder): HubState {
    h.(outbox := SendAll(h.outbox, Authenticated(h.clients, h.sessions, h.users), ServerEvent(OrderChanged(event, o))))
  }

  /** The sender holds a non-empty token that is valid. */
  predicate SessionOk(h: HubState, s: Sock)
    requires s in h.clients
  {
    h.clients[s].token != "" && TokenValid(h.sessions, h.users, h.clients[s].token)
  }

  // ---------------------------------------------------------------------
  // Connections

  /** onNewConnection: a blank context stamped with the accept time. */
  function ConnectStep(h: HubState, s: Sock, now: int): HubState {
    h.(clients := h.clients[s := NewClient(now)])
  }

  /** The writes of the leave step: if the socket was in a room, the members
      left in that room's range are sent the new member list. */
  function LeaveNotice(log: Log<Outgoing>, clients: map<Sock, ClientCtx>, rooms: Rooms, s: Sock, net: Net): Log<Outgoing>
    requires s in clients
  {
    var c := clients[s];
    if c.roomId == "" then log
    else RoomNotice(log, Get(Erased(rooms, s, c.roomId), c.roomId), clients, "leave", c.roomId, c.user, net)
  }

  /** onDisconnected: the socket leaves its room (whose members are told),
      its session and its context go. */
  function DisconnectStep(h: HubState, s: Sock, net: Net): HubState {
    if s !in h.clients then h
    else
      var c := h.clients[s];
      h.(rooms := Erased(h.rooms, s, c.roomId),
         outbox := LeaveNotice(h.outbox, h.clients, h.rooms, s, net),
         sessions := if c.token != "" then h.sessions - {c.token} else h.sessions,
         clients := h.clients - {s})
  }

  /** onReadyRead: the bytes join the buffer, the connection is stamped as
      seen, and if decoding succeeds every complete packet is handled in
      order. `nets(i)` is what the sockets report while the i-th packet is
      handled: the hub's own writes for earlier packets of the same read
      may already have raised a recipient's backlog. */
  function ReadStep(h: HubState, s: Sock, data: seq<bv8>, clock: Clock, nets: nat -> Net, drain: seq<bv8> -> Drained,
                   uuid: nat -> string, hash: (string, string) -> string): HubState
  {
    if s !in h.clients then h
    else
      var c := h.clients[s];
      var d := drain(c.buffer + data);
      var read := h.(clients := h.clients[s := c.(buffer := d.rest, lastSeen := clock.ms)]);
      if d.ok then Packets(read, s, d.packets, clock, nets, uuid, hash) else read
  }

  /** The packets of one read, handled in order. (No packet drops the
      connection, see PacketKeepsConnections, so the guard always holds.) */
  function Packets(h: HubState, s: Sock, ps: seq<Packet>, clock: Clock, nets: nat -> Net,
                   uuid: nat -> string, hash: (string, string) -> string): HubState
    decreases |ps|
  {
    if ps == [] then h
    else
      var before := Packets(h, s, ps[..|ps| - 1], clock, nets, uuid, hash);
      if s in before.clients then PacketStep(before, s, ps[|ps| - 1], clock, nets(|ps| - 1), uuid, hash) else before
  }

  // ---------------------------------------------------------------------
  // handlePacket

  /** handlePacket: auth and ping first, then the session gate, then orders,
      order-room joins, and forwarding of everything else. No packet adds
      or drops a connection. */
  function PacketStep(h: HubState, s: Sock, p: Packet, clock: Clock, net: Net,
                      uuid: nat -> string, hash: (string, string) -> string): HubState
    requires s in h.clients
  {
    if p.kind == MsgAuth then AuthStep(h, s, p.json, clock, uuid, hash)
    else if p.kind == MsgPing then Write(h, s, Pong(p.json["ts" := Num(clock.ms)]))
    else if !SessionOk(h, s) then Write(h, s, ServerEvent(Reply(401, AuthRequired)))
    else SessionStep(h, s, p, clock, net, uuid)
  }

  /** The packet types handlePacket serves past the session gate. */
  function SessionStep(h: HubState, s: Sock, p: Packet, clock: Clock, net: Net, uuid: nat -> string): HubState
    requires s in h.clients
  {
    if p.kind == MsgOrder then OrderStep(h, s, p.json, clock, uuid)
    else if p.kind == MsgJoinWorkOrder then JoinStep(h, s, p.json, clock, net)
    else ForwardStep(h, s, p, clock, net)
  }

  // ---------------------------------------------------------------------
  // handleAuth

  function AuthStep(h: HubState, s: Sock, json: Json, clock: Clock,
                    uuid: nat -> string, hash: (string, string) -> string): HubState
    requires s in h.clients
  {
    var op := Text(json, "op");
    if op == "register" then RegisterStep(h, s, json, clock, uuid, hash)
    else if op == "login" then LoginStep(h, s, json, uuid, hash)
    else Write(h, s, ServerEvent(AuthError(UnknownOperation)))
  }

  /** Registration: the first failed check is reported, or the user is
      stored with a fresh salt and told so. */
  function RegisterStep(h: HubState, s: Sock, json: Json, clock: Clock,
                        uuid: nat -> string, hash: (string, string) -> string): HubState
  {
    var name, password, role := Trim(Text(json, "username")), Text(json, "password"), Text(json, "role");
    match RegisterCheck(h.users, name, password, role)
    case Some(reason) => Write(h, s, ServerEvent(AuthError(reason)))
    case None =>
      Write(h.(users := h.users[name := NewUser(name, password, uuid(h.uuidsDrawn), role, clock.iso, hash)],
               uuidsDrawn := h.uuidsDrawn + 1),
            s, ServerEvent(Registered))
  }

  /** Login: on success a fresh token is recorded for the user and bound to
      the connection, along with the user's name and role; the connection's
      previous token, if any, stays in the session table. */
  function LoginStep(h: HubState, s: Sock, json: Json, uuid: nat -> string, hash: (string, string) -> string): HubState
    requires s in h.clients
  {
    var name, password := Trim(Text(json, "username")), Text(json, "password");
    if Authenticates(h.users, name, password, "", hash) then
      var token := uuid(h.uuidsDrawn);
      var u := h.users[name];
      Write(h.(uuidsDrawn := h.uuidsDrawn + 1,
               sessions := h.sessions[token := name],
               clients := h.clients[s := h.clients[s].(token := token, user := name, role := u.role)]),
            s, ServerEvent(LoggedIn(token, Profile(name, u.role, u.createdAt))))
    else Write(h, s, ServerEvent(AuthError(InvalidCredentials)))
  }

  // ---------------------------------------------------------------------
  // handleOrder

  function OrderStep(h: HubState, s: Sock, json: Json, clock: Clock, uuid: nat -> string): HubState
    requires s in h.clients
  {
    var op := Text(json, "op");
    var c := h.clients[s];
    if op == "create" then CreateStep(h, s, json, clock, uuid)
    else if op == "list" then Write(h, s, OrderPacket(Listed(ForUser(h.workOrders, c.user, c.role))))
    else if op == "accept" then AcceptStep(h, s, json, clock)
    else if op == "status" then StatusStep(h, s, json, clock)
    else Write(h, s, ServerEvent(Reply(400, UnknownOperation)))
  }

  /** Creation: factory users only and a non-blank title; the new open order
      is stored under a fresh id, returned to the creator and announced. */
  function CreateStep(h: HubState, s: Sock, json: Json, clock: Clock, uuid: nat -> string): HubState
    requires s in h.clients
  {
    var c := h.clients[s];
    var title := Trim(Text(json, "title"));
    if c.role != Factory then Write(h, s, ServerEvent(Reply(403, OnlyFactoryCreates)))
    else if title == "" then Write(h, s, ServerEvent(Reply(400, TitleRequired)))
    else
      var id := uuid(h.uuidsDrawn);
      var o := NewOrder(id, title, Text(json, "description"), c.user, clock.iso);
      Notify(Write(h.(workOrders := h.workOrders[id := o], uuidsDrawn := h.uuidsDrawn + 1),
                   s, OrderPacket(Created(o))), "created", o)
  }

  /** Acceptance: expert users only; an open order is assigned to the caller,
      returned and announced, anything else is refused. */
  function AcceptStep(h: HubState, s: Sock, json: Json, clock: Clock): HubState
    requires s in h.clients
  {
    var c := h.clients[s];
    var id := Text(json, "id");
    if c.role != Expert then Write(h, s, ServerEvent(Reply(403, OnlyExpertAccepts)))
    else if CanAccept(h.workOrders, id) then
      var o := Accept(h.workOrders[id], c.user, clock.iso);
      Notify(Write(h.(workOrders := h.workOrders[id := o]), s, OrderPacket(Accepted(o))), "accepted", o)
    else Write(h, s, ServerEvent(Reply(400, CannotAccept)))
  }

  /** Status change: a permitted update is stored, returned and announced,
      anything else is refused. */
  function StatusStep(h: HubState, s: Sock, json: Json, clock: Clock): HubState
    requires s in h.clients
  {
    var c := h.clients[s];
    var id, status := Text(json, "id"), Text(json, "status");
    if id in h.workOrders && MayUpdateStatus(h.workOrders[id], status, c.user) then
      var o := SetStatus(h.workOrders[id], status, clock.iso);
      Notify(Write(h.(workOrders := h.workOrders[id := o]), s, OrderPacket(StatusSet(o))), "updated", o)
    else Write(h, s, ServerEvent(Reply(400, CannotUpdateStatus)))
  }

  // ---------------------------------------------------------------------
  // Rooms

  /** The MSG_JOIN_WORKORDER case. A room named by an order id admits only
      that order's creator (as factory) or assignee (as expert); any other
      non-empty room id admits every authenticated connection. */
  function JoinStep(h: HubState, s: Sock, json: Json, clock: Clock, net: Net): HubState
    requires s in h.clients
  {
    var roomId := Text(json, "roomId");
    var c := h.clients[s];
    if roomId == "" then Write(h, s, ServerEvent(Reply(400, RoomIdRequired)))
    else if roomId in h.workOrders && !CanJoin(h.workOrders[roomId], c.user, c.role) then
      Write(h, s, ServerEvent(Reply(403, NotAuthorizedToJoin)))
    else EnterStep(StartStep(h, roomId, clock), s, roomId, net)
  }

  /** An admitted join of an assigned order moves it to in_progress and
      announces it; no other join touches the order table. */
  function StartStep(h: HubState, roomId: string, clock: Clock): HubState {
    if roomId in h.workOrders && h.workOrders[roomId].status == Assigned then
      var o := Progress(h.workOrders[roomId], clock.iso);
      Notify(h.(workOrders := h.workOrders[roomId := o]), "updated", o)
    else h
  }

  /** joinRoom: leave the old room (telling its members), then enter the new
      one, whose range yields the socket first. */
  function JoinRoomStep(h: HubState, s: Sock, roomId: string, net: Net): HubState
    requires s in h.clients
  {
    var c := h.clients[s];
    h.(outbox := LeaveNotice(h.outbox, h.clients, h.rooms, s, net),
       rooms := Inserted(Erased(h.rooms, s, c.roomId), roomId, s),
       clients := h.clients[s := c.(roomId := roomId)])
  }

  /** The member list of a room as listMembers builds it. */
  function Members(h: HubState, roomId: string): seq<string> {
    MemberNames(Get(h.rooms, roomId), h.clients)
  }

  /** The end of the MSG_JOIN_WORKORDER case: joinRoom, the acknowledgement
      and the member snapshot to the joiner, the join notice to the room. */
  function EnterStep(h: HubState, s: Sock, roomId: string, net: Net): HubState
    requires s in h.clients
  {
    var user := h.clients[s].user;
    var joined := JoinRoomStep(h, s, roomId, net);
    var told := Write(Write(joined, s, ServerEvent(JoinAck(roomId))), s,
                      ServerEvent(RoomMembers("snapshot", roomId, Members(joined, roomId), user)));
    told.(outbox := RoomNotice(told.outbox, Get(told.rooms, roomId), told.clients, "join", roomId, user, net))
  }

  /** The default case: a packet from a connection that is in a room is
      tagged and forwarded to the room, never back to the sender; only video
      frames are subject to backlog dropping. */
  function ForwardStep(h: HubState, s: Sock, p: Packet, clock: Clock, net: Net): HubState
    requires s in h.clients
  {
    var c := h.clients[s];
    if c.roomId == "" then h
    else h.(outbox := Broadcast(h.outbox, Get(h.rooms, c.roomId),
                                Relay(p.kind, Tagged(p.json, c.user, c.roomId, clock.ms), p.bin),
                                Some(s), p.kind == MsgVideoFrame, net))
  }
}
