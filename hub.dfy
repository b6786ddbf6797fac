/** The room hub's tables and the tests its handlers make on them: member
    lists, the room table each connection's context implies, session checks,
    the registration checks and the eviction test. */
module Hub {
  import opened Common
  import opened Records
  import opened Orders
  import opened RoomIndex
  import opened Fanout

  /** The clock as read during one event: milliseconds since the epoch and
      the ISO-8601 text the records store. */
  datatype Clock = Clock(ms: int, iso: string)

  /** listMembers over a range: the user name of each socket that still has
      a context, in range order. */
  function MemberNames(socks: seq<Sock>, clients: map<Sock, ClientCtx>): seq<string>
    decreases |socks|
  {
    if socks == [] then []
    else
      var last := socks[|socks| - 1];
      MemberNames(socks[..|socks| - 1], clients) + (if last in clients then [clients[last].user] else [])
  }

  /** The sockets that are in a room, with that room. */
  function RoomTable(clients: map<Sock, ClientCtx>): map<Sock, string> {
    map s | s in clients && clients[s].roomId != "" :: clients[s].roomId
  }

  /** isValidToken's test: the token is in the session table and its user
      is registered. */
  predicate TokenValid(sessions: map<string, string>, users: map<string, User>, token: string) {
    token in sessions && sessions[token] in users
  }

  /** The connections order events go to: those holding a non-empty valid
      token. */
  function Authenticated(clients: map<Sock, ClientCtx>, sessions: map<string, string>,
                         users: map<string, User>): set<Sock>
  {
    set s | s in clients && clients[s].token != "" && TokenValid(sessions, users, clients[s].token)
  }

  /** The connections idle for longer than the session timeout at `now`. */
  function Expired(clients: map<Sock, ClientCtx>, now: int): set<Sock> {
    set s | s in clients && now - clients[s].lastSeen > SessionTimeoutMs
  }

  /** broadcastRoomMembers: the member list sent to every member of the
      range, with no excepted socket and no dropping. */
  function RoomNotice(log: Log<Outgoing>, members: seq<Sock>, clients: map<Sock, ClientCtx>,
                      event: string, roomId: string, who: string, net: Net): Log<Outgoing>
  {
    Broadcast(log, members, ServerEvent(RoomMembers(event, roomId, MemberNames(members, clients), who)), None, false, net)
  }

  /** The JSON of a forwarded packet: the sender, the room and a timestamp
      added to what the client sent. */
  function Tagged(json: Json, sender: string, roomId: string, ms: int): Json {
    json["sender" := Str(sender)]["roomId" := Str(roomId)]["ts" := Num(ms)]
  }

  /** authenticateUser's check (the hub always passes the empty role, which
      skips the role comparison). */
  predicate Authenticates(users: map<string, User>, username: string, password: string, role: string,
                          hash: (string, string) -> string)
  {
    && username in users
    && (role == "" || users[username].role == role)
    && hash(password, users[username].salt) == users[username].passwordHash
  }

  /** The record registration stores. */
  function NewUser(username: string, password: string, salt: string, role: string, createdAt: string,
                   hash: (string, string) -> string): User
  {
    User(username, hash(password, salt), salt, role, createdAt)
  }

  /** The first registration check that fails, if any. */
  function RegisterCheck(users: map<string, User>, username: string, password: string, role: string): Option<Refusal> {
    if username == "" || password == "" then Some(UsernamePasswordRequired)
    else if role != Factory && role != Expert then Some(BadRole)
    else if username in users then Some(UsernameTaken)
    else None
  }

  /** A packet type that needs a valid session. */
  predicate Gated(kind: MsgType) {
    kind != MsgAuth && kind != MsgPing
  }

  // ---------------------------------------------------------------------
  // Lemmas about the specification functions

  /** Registration rejects, in this order, an empty name or password, an
      unknown role and a taken name; success adds exactly one user, with the
      role asked for. */
  lemma RegisterOutcome(users: map<string, User>, username: string, password: string, role: string,
                        salt: string, now: string, hash: (string, string) -> string)
    ensures RegisterCheck(users, username, password, role).None?
        <==> username != "" && password != "" && role in Roles && username !in users
    ensures RegisterCheck(users, username, password, role).None? ==>
      var after := users[username := NewUser(username, password, salt, role, now, hash)];
      after.Keys == users.Keys + {username} && |after| == |users| + 1 && after[username].role == role
  {
  }

  /** A user who registered can log in with the same password, and with a
      name that trims to the same name. */
  lemma RegisterThenLogin(users: map<string, User>, rawName: string, loginName: string, password: string,
                          role: string, salt: string, now: string, hash: (string, string) -> string)
    requires RegisterCheck(users, Trim(rawName), password, role).None?
    requires Trim(loginName) == Trim(rawName)
    ensures Authenticates(users[Trim(rawName) := NewUser(Trim(rawName), password, salt, role, now, hash)],
                          Trim(loginName), password, "", hash)
  {
  }

  /** A wrong password and an unknown name fail the same check. */
  lemma LoginFailures(users: map<string, User>, username: string, password: string, hash: (string, string) -> string)
    ensures username !in users ==> !Authenticates(users, username, password, "", hash)
    ensures username in users && hash(password, users[username].salt) != users[username].passwordHash
            ==> !Authenticates(users, username, password, "", hash)
  {
  }

  /** The eviction test is strict: idle for exactly the timeout is kept, one
      millisecond more is evicted. */
  lemma EvictionBoundary(clients: map<Sock, ClientCtx>, now: int, s: Sock)
    requires s in clients
    ensures now - clients[s].lastSeen == SessionTimeoutMs ==> s !in Expired(clients, now)
    ensures now - clients[s].lastSeen == SessionTimeoutMs + 1 ==> s in Expired(clients, now)
  {
  }

  /** Replacing one context changes the room table only at that socket. */
  lemma RoomTableUpdate(clients: map<Sock, ClientCtx>, s: Sock, c: ClientCtx)
    ensures RoomTable(clients[s := c])
         == if c.roomId != "" then RoomTable(clients)[s := c.roomId] else RoomTable(clients) - {s}
  {
    var a := RoomTable(clients[s := c]);
    var b := if c.roomId != "" then RoomTable(clients)[s := c.roomId] else RoomTable(clients) - {s};
    assert a.Keys == b.Keys;
  }

  /** A context update that keeps the room (or adds a socket with none)
      leaves the room table as it is. */
  lemma RoomTableKeep(clients: map<Sock, ClientCtx>, s: Sock, c: ClientCtx)
    requires if s in clients then clients[s].roomId == c.roomId else c.roomId == ""
    ensures RoomTable(clients[s := c]) == RoomTable(clients)
  {
    var a, b := RoomTable(clients[s := c]), RoomTable(clients);
    assert a.Keys == b.Keys;
  }

  lemma RoomTableRemove(clients: map<Sock, ClientCtx>, s: Sock)
    ensures RoomTable(clients - {s}) == RoomTable(clients) - {s}
  {
    var a, b := RoomTable(clients - {s}), RoomTable(clients) - {s};
    assert a.Keys == b.Keys;
  }

  /** Every session names a registered user. */
  ghost predicate SessionsKnown(sessions: map<string, string>, users: map<string, User>) {
    forall t :: t in sessions ==> sessions[t] in users
  }
}
