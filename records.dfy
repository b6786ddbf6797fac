/** The records and constants of the room hub's header: users, work orders,
    per-connection contexts, the packets that flow in and out, and the two
    JSON documents the hub persists. */
module Records {
  import opened Common

  // ---------------------------------------------------------------------
  // Constants

  /** A recipient whose outbound backlog exceeds this many bytes misses
      video frames: 3 MiB. */
  const BacklogDropThreshold: int := 3 * 1024 * 1024

  /** Period of the heartbeat sweep, in milliseconds. */
  const HeartbeatIntervalMs: int := 30000

  /** Idle time after which a connection is evicted, in milliseconds. */
  const SessionTimeoutMs: int := 300000

  const Factory: string := "factory"
  const Expert: string := "expert"

  const Open: string := "open"
  const Assigned: string := "assigned"
  const InProgress: string := "in_progress"
  const Closed: string := "closed"
  const Canceled: string := "canceled"

  /** The roles registration accepts. */
  const Roles: set<string> := {Factory, Expert}

  /** The statuses the hub itself ever writes or documents. */
  const Statuses: set<string> := {Open, Assigned, InProgress, Closed, Canceled}

  // ---------------------------------------------------------------------
  // Records

  datatype User = User(username: string, passwordHash: string, salt: string,
                       role: string, createdAt: string)

  datatype WorkOrder = WorkOrder(id: string, title: string, description: string,
                                 status: string, createdBy: string, assignedTo: string,
                                 createdAt: string, updatedAt: string)

  /** The per-connection context. The socket it belongs to is the key under
      which the hub stores it. */
  datatype ClientCtx = ClientCtx(user: string, roomId: string, token: string,
                                 role: string, buffer: seq<bv8>, lastSeen: int)

  /** The context a freshly accepted connection starts with: no identity, no
      room, no token, no role, nothing buffered, stamped with the accept time. */
  function NewClient(now: int): ClientCtx {
    ClientCtx("", "", "", "", [], now)
  }

  /** The users table keeps every user under its own name. */
  ghost predicate UsersKeyed(users: map<string, User>) {
    forall u :: u in users ==> users[u].username == u
  }

  /** The work-order table keeps every order under its own id. */
  ghost predicate OrdersKeyed(orders: map<string, WorkOrder>) {
    forall id :: id in orders ==> orders[id].id == id
  }

  // ---------------------------------------------------------------------
  // Packets

  /** The packet type tags the hub distinguishes; every other tag of the
      protocol is `MsgOther`. */
  datatype MsgType = MsgAuth | MsgPing | MsgOrder | MsgJoinWorkOrder | MsgVideoFrame | MsgOther(tag: nat)

  /** A decoded inbound packet. */
  datatype Packet = Packet(kind: MsgType, json: Json, bin: seq<bv8>)

  /** What the packet decoder makes of a receive buffer: whether decoding
      succeeded, the complete packets found, and the bytes left over. */
  datatype Drained = Drained(ok: bool, packets: seq<Packet>, rest: seq<bv8>)

  /** The login reply's user summary. */
  datatype Profile = Profile(username: string, role: string, createdAt: string)

  /** The JSON bodies of the server events the hub sends. */
  datatype Event =
    | Reply(code: int, reason: Refusal)                          // {"code", "message"}
    | JoinAck(roomId: string)                                    // {"code": 0, "message": "joined", "roomId"}
    | AuthError(reason: Refusal)                                 // kind "auth", event "error"
    | Registered                                                 // kind "auth", event "ok"
    | LoggedIn(token: string, profile: Profile)                  // kind "auth", event "ok", token and user
    | RoomMembers(event: string, roomId: string, members: seq<string>, user: string)  // kind "room"
    | Congested(backlogBytes: nat)                               // kind "net", event "congested"
    | OrderChanged(event: string, order: WorkOrder)              // kind "order"

  /** The bodies of the order replies. */
  datatype OrderReply =
    | Created(order: WorkOrder)
    | Listed(orders: set<WorkOrder>)
    | Accepted(order: WorkOrder)
    | StatusSet(order: WorkOrder)

  /** Everything the hub writes to a socket. */
  datatype Outgoing =
    | ServerEvent(event: Event)                        // MSG_SERVER_EVENT
    | OrderPacket(reply: OrderReply)                   // MSG_ORDER
    | Pong(json: Json)                                 // MSG_PONG
    | Relay(kind: MsgType, json: Json, bin: seq<bv8>)  // a forwarded room packet

  /** The refusals the hub sends, in an error reply's "message" field or
      an auth error's; Message gives each one's wording. */
  datatype Refusal =
    | UnknownOperation | UsernamePasswordRequired | BadRole | UsernameTaken | InvalidCredentials
    | AuthRequired | OnlyFactoryCreates | TitleRequired | OnlyExpertAccepts | CannotAccept
    | CannotUpdateStatus | RoomIdRequired | NotAuthorizedToJoin

  function Message(r: Refusal): string {
    match r
    case UnknownOperation => "Unknown operation"
    case UsernamePasswordRequired => "Username and password required"
    case BadRole => "Role must be 'factory' or 'expert'"
    case UsernameTaken => "Username already exists"
    case InvalidCredentials => "Invalid username or password"
    case AuthRequired => "Authentication required"
    case OnlyFactoryCreates => "Only factory users can create orders"
    case TitleRequired => "Title is required"
    case OnlyExpertAccepts => "Only expert users can accept orders"
    case CannotAccept => "Cannot accept order"
    case CannotUpdateStatus => "Cannot update order status"
    case RoomIdRequired => "roomId required"
    case NotAuthorizedToJoin => "Not authorized to join this room"
  }

  // ---------------------------------------------------------------------
  // The persisted documents: one object per user / order, keyed by
  // username / order id, holding the remaining fields.

  datatype UserRecord = UserRecord(passwordHash: string, salt: string, role: string, createdAt: string)

  datatype OrderRecord = OrderRecord(title: string, description: string, status: string,
                                     createdBy: string, assignedTo: string,
                                     createdAt: string, updatedAt: string)

  /** What loading users.json builds: each user under its key, named by it. */
  function LoadUsers(doc: map<string, UserRecord>): (users: map<string, User>)
    ensures users.Keys == doc.Keys && UsersKeyed(users)
  {
    map u | u in doc :: User(u, doc[u].passwordHash, doc[u].salt, doc[u].role, doc[u].createdAt)
  }

  /** What saving the users writes: each user under its name. */
  function UsersDoc(users: map<string, User>): (doc: map<string, UserRecord>)
    ensures doc.Keys == users.Keys
  {
    map u | u in users :: UserRecord(users[u].passwordHash, users[u].salt, users[u].role, users[u].createdAt)
  }

  function LoadOrders(doc: map<string, OrderRecord>): (orders: map<string, WorkOrder>)
    ensures orders.Keys == doc.Keys && OrdersKeyed(orders)
  {
    map id | id in doc :: WorkOrder(id, doc[id].title, doc[id].description, doc[id].status,
                                     doc[id].createdBy, doc[id].assignedTo,
                                     doc[id].createdAt, doc[id].updatedAt)
  }

  function OrdersDoc(orders: map<string, WorkOrder>): (doc: map<string, OrderRecord>)
    ensures doc.Keys == orders.Keys
  {
    map id | id in orders :: OrderRecord(orders[id].title, orders[id].description, orders[id].status,
                                          orders[id].createdBy, orders[id].assignedTo,
                                          orders[id].createdAt, orders[id].updatedAt)
  }

  /** Saving then loading the users gives back the same table. */
  lemma UsersRoundTrip(users: map<string, User>)
    requires UsersKeyed(users)
    ensures LoadUsers(UsersDoc(users)) == users
  {
    var back := LoadUsers(UsersDoc(users));
    forall u | u in users ensures back[u] == users[u] {
      assert users[u].username == u;
    }
  }

  /** Loading then saving a users document rewrites the same document. */
  lemma UsersDocRoundTrip(doc: map<string, UserRecord>)
    ensures UsersDoc(LoadUsers(doc)) == doc
  {
    var back := UsersDoc(LoadUsers(doc));
    forall u | u in doc ensures back[u] == doc[u] {
    }
  }

  lemma OrdersRoundTrip(orders: map<string, WorkOrder>)
    requires OrdersKeyed(orders)
    ensures LoadOrders(OrdersDoc(orders)) == orders
  {
    var back := LoadOrders(OrdersDoc(orders));
    forall id | id in orders ensures back[id] == orders[id] {
      assert orders[id].id == id;
    }
  }

  lemma OrdersDocRoundTrip(doc: map<string, OrderRecord>)
    ensures OrdersDoc(LoadOrders(doc)) == doc
  {
    var back := OrdersDoc(LoadOrders(doc));
    forall id | id in doc ensures back[id] == doc[id] {
    }
  }
}
