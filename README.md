# Room hub and chat hub: a Dafny model

This project models the backend of a video-meeting system for factory work
orders. It has two parts.

**The room hub** (`RoomHub`) is one long-lived server object. It holds five
tables:

- registered users;
- work orders;
- sessions, mapping each token to a user;
- the context of each open connection;
- the room multimap, from room id to sockets.

It is driven by four kinds of event: connect, read, disconnect and the
heartbeat tick. A read is decoded into packets. The hub handles:

- authentication packets: register and login;
- pings;
- a session gate that refuses every other packet from a connection without a
  valid token;
- work-order operations: create, list, accept and status change;
- order-gated joins of a room;
- forwarding of everything else to the sender's room. Video frames are
  dropped for recipients whose outbound backlog exceeds 3 MiB, and the sender
  is told about each drop.

**The chat hub** (`ChatHub`) belongs to the line-based auth/order server. It
is three tables: each socket's user, each socket's room, and the room
multimap. It offers join (leave, then insert), leave and broadcast, driven by
the `chat_join`, `chat_msg` and `chat_leave` requests and by disconnects. The
hub exists in two near-identical copies, which differ in two places: the
guard on the leave broadcast, and the reply to an unknown action. One class
models both; its `copy` field says which one it is.

## Layout

- `common.dfy`, module `Common`:
  - the string, JSON and option helpers, including QString::trimmed;
  - erasing a socket from a range (the erase-while-iterating loop, as a
    method);
  - per-socket write logs.
- `records.dfy`, module `Records`:
  - the records and constants of `roomhub.h`;
  - the packets and events the hub sends;
  - the two JSON documents it persists, with load/save round trips.
- `orders.dfy`, module `Orders`: the work-order rules as functions on the
  order table.
- `roomindex.dfy`, module `RoomIndex`: the room multimap beside a per-socket
  room table. Both hubs use it. Its lemmas show that join and leave keep a
  socket in at most one room, and in that room's range exactly once.
- `fanout.dfy`, module `Fanout`: `broadcastToRoom` as a function, with what
  each recipient and the sender receive.
- `hub.dfy`, module `Hub`: the hub's tests and derived tables:
  - member lists;
  - token validity and the authenticated connections;
  - the registration checks;
  - the eviction test.
- `steps.dfy`, module `Steps`: the hub's state as a value (`HubState`) and one
  step function per handler.
- `stepproofs.dfy`, module `StepProofs`: every step preserves the hub's
  invariant `HubValid` and keeps the set of connections. `HubValid` says:
  - both stores are keyed by their records' own keys;
  - every session names a registered user;
  - the room multimap agrees with the room each connection's context names.
- `views.dfy`, module `Views`: what each connection receives from each step,
  and how steps compose.
- `server.dfy`, module `Server`: class `RoomHub`.
  - Its fields are the tables, the write log and the saved copies of the two
    stores.
  - Each method is proved to change the fields exactly as its step function
    says, and to keep `Valid()`.
  - The loops of `onReadyRead`, `broadcastToRoom`, `listMembers`, the
    heartbeat sweep and `broadcastWorkOrderEvent` are `while` loops with
    invariants.
- `chat.dfy`, module `Chat`: the chat hub's state as a value, its step
  functions and lemmas, and class `ChatHub`, whose methods are proved against
  those step functions.

Each socket write is an append to that socket's log in `outbox`.

Three behaviours of the code are worth stating plainly:

- **Eviction.** Eviction needs idle time strictly greater than the 300000 ms
  timeout, so a connection idle for exactly the timeout is kept
  (`Hub.EvictionBoundary`).
- **When an order starts.** The comment at `server/src/roomhub.cpp:160` says
  the order moves to `in_progress` "if both parties join". The code below it
  does this on the first authorised join of an assigned order, so the
  creator joining alone is enough (`Orders.CreatorAloneStartsOrder`). The
  model follows the code.
- **When a connection's stamp is refreshed.** The last-seen stamp is refreshed
  on every read, before any decoding and whatever its outcome
  (`Views.ReadStamps`).

## Model

| member | source | states |
|---|---|---|
| Common.TrimSpec | server/src/roomhub.cpp:200 | trimming keeps a stretch of the input with no whitespace at either end; the result is empty exactly when the input is all whitespace |
| Common.TrimIdempotent | server/src/roomhub.cpp:237 | trimming a trimmed name changes nothing, so a name that trims to the registered name logs in as it |
| Common.WithoutSpec | server/src/roomhub.cpp:372-376 | erasing a socket from a range removes every copy of it and keeps every other entry with its multiplicity |
| Common.EraseAll | server/Sources/main.cpp:227-231 | the erase-while-iterating loop leaves the range without the socket, the rest in order |
| Common.AppendAllAt | server/Sources/main.cpp:248-257 | writing a line to every socket of a duplicate-free range appends it once to each member's log and to no other |
| Common.SendAllAt | server/src/roomhub.cpp:737-742 | sending to a set of connections appends the packet once to each of them and to no other |
| Records.LoadUsers | server/src/roomhub.cpp:452-462 | the loaded users table has the document's keys, and every user is stored under its own name |
| Records.LoadOrders | server/src/roomhub.cpp:521-534 | the loaded order table has the document's keys, and every order is stored under its own id |
| Records.UsersRoundTrip | server/src/roomhub.cpp:468-500 | saving a users table keyed by name and loading it back gives the same table |
| Records.UsersDocRoundTrip | server/src/roomhub.cpp:433-466 | loading a users document and saving it again writes the same document |
| Records.OrdersRoundTrip | server/src/roomhub.cpp:540-575 | saving an order table keyed by id and loading it back gives the same table |
| Records.OrdersDocRoundTrip | server/src/roomhub.cpp:502-538 | loading an orders document and saving it again writes the same document |
| Orders.ForFactory | server/src/roomhub.cpp:650-651 | a factory user's listing holds exactly the orders that user created |
| Orders.ForExpert | server/src/roomhub.cpp:652-653 | an expert's listing holds exactly the open orders and the orders assigned to that expert |
| Orders.ForOtherRole | server/src/roomhub.cpp:643-671 | a user with any other role is listed no orders |
| Orders.AcceptOnlyOnce | server/src/roomhub.cpp:673-686 | once an open order is accepted it is assigned to the first expert and can no longer be accepted |
| Orders.OnlyCreatorEnds | server/src/roomhub.cpp:706-708 | "closed" and "canceled" may be set by the creator and by no one else |
| Orders.AssigneeMayReopen | server/src/roomhub.cpp:707-710 | the assignee may store a status outside the documented five, or "open", after which another expert can accept the order and take it over |
| Orders.JoinRules | server/src/roomhub.cpp:145-166 | only the creator or the assignee may join an order's room; the join moves "assigned" to "in_progress", leaves any other status alone, and a second join changes nothing more |
| Orders.CreatorAloneStartsOrder | server/src/roomhub.cpp:160-166 | the creator joining alone, before the expert, already moves an assigned order to "in_progress" |
| Orders.AcceptScenario | server/src/roomhub.cpp:624-686 | an illustration, one concrete run of what AcceptOnlyOnce and JoinRules state for all inputs: a new order is open and unassigned; B accepts it, a second accept fails and B stays assigned; the creator and B may join its room, third parties may not |
| RoomIndex.InRangeMeansInRoom | server/src/roomhub.h:59-60 | under the index, a socket in a room's range is in that room |
| RoomIndex.LeaveKeepsIndex | server/src/roomhub.cpp:371-378 | after leaving, the socket is in no range, other rooms' ranges are untouched, and the index stays consistent |
| RoomIndex.JoinKeepsIndex | server/src/roomhub.cpp:367-385 | after leave-then-insert, the socket's room is the new one; it is in that range exactly once and in no other, even when it rejoins the same room |
| Fanout.Advisories | server/src/roomhub.cpp:396-399 | one congestion advisory per dropped recipient, carrying that recipient's backlog |
| Fanout.RecipientView | server/src/roomhub.cpp:387-405 | a socket other than the excepted one gets the packet exactly once if it is a member, connected, and not a backlogged recipient of a dropping broadcast; otherwise it gets nothing |
| Fanout.SenderView | server/src/roomhub.cpp:391-400 | the excepted sender never gets its own packet and gets one advisory per dropped recipient, in range order |
| Fanout.DroppedExactly | server/src/roomhub.cpp:391-401 | the dropped recipients are exactly the connected, backlogged members other than the sender, and only a dropping broadcast has any |
| Fanout.DefaultsReachEveryMember | server/src/roomhub.h:76-79 | with the default arguments every connected member gets the packet, the member whose change it announces included |
| Fanout.ThresholdIsStrict | server/src/roomhub.h:64 | a backlog of exactly 3 MiB still gets a video frame; one byte more does not |
| Hub.RegisterOutcome | server/src/roomhub.cpp:199-234 | registration passes exactly when name and password are non-empty, the role is factory or expert, and the name is free; success adds exactly one user, with the role asked for |
| Hub.RegisterThenLogin | server/src/roomhub.cpp:223-241 | a registered user authenticates with the same password and any name that trims to the registered name |
| Hub.LoginFailures | server/src/roomhub.cpp:590-598 | an unknown name and a wrong password both fail the same check |
| Hub.EvictionBoundary | server/src/roomhub.cpp:99 | idle exactly 300000 ms is kept; 300001 ms is evicted |
| StepProofs.StartedValid | server/src/roomhub.cpp:5-16 | the hub built from the two documents satisfies the invariant |
| StepProofs.ConnectKeepsValid | server/src/roomhub.cpp:32-45 | accepting a new connection keeps the invariant |
| StepProofs.DisconnectKeepsValid | server/src/roomhub.cpp:47-73 | a disconnect keeps the invariant |
| StepProofs.RegisterKeepsValid | server/src/roomhub.cpp:199-234 | registration keeps the invariant and the connections |
| StepProofs.LoginKeepsValid | server/src/roomhub.cpp:236-257 | login keeps the invariant and the connections |
| StepProofs.AuthKeepsValid | server/src/roomhub.cpp:196-262 | every auth packet keeps the invariant and the connections |
| StepProofs.CreateKeepsValid | server/src/roomhub.cpp:267-299 | creating an order keeps the invariant and the connections |
| StepProofs.AcceptKeepsValid | server/src/roomhub.cpp:306-331 | accepting an order keeps the invariant and the connections |
| StepProofs.StatusKeepsValid | server/src/roomhub.cpp:333-352 | a status change keeps the invariant and the connections |
| StepProofs.OrderKeepsValid | server/src/roomhub.cpp:264-358 | every order packet keeps the invariant and the connections |
| StepProofs.StartKeepsValid | server/src/roomhub.cpp:160-166 | the in_progress transition keeps the invariant and the connections |
| StepProofs.JoinRoomKeepsValid | server/src/roomhub.cpp:367-385 | joinRoom keeps the invariant (the index among it) and the connections |
| StepProofs.EnterKeepsValid | server/src/roomhub.cpp:169-176 | joining plus the acknowledgement and member notices keeps the invariant and the connections |
| StepProofs.JoinKeepsValid | server/src/roomhub.cpp:136-177 | every order-room join packet keeps the invariant and the connections |
| StepProofs.SessionKeepsValid | server/src/roomhub.cpp:131-192 | every packet past the session gate keeps the invariant and the connections |
| StepProofs.PacketKeepsValid | server/src/roomhub.cpp:111-193 | every packet keeps the invariant and the connections |
| StepProofs.PacketsKeepValid | server/src/roomhub.cpp:86-90 | the packets of one read, handled in order, keep the invariant and the connections |
| StepProofs.ReadKeepsValid | server/src/roomhub.cpp:75-91 | a read keeps the invariant and the connections |
| Views.GateRefuses | server/src/roomhub.cpp:124-129 | a connection without a valid token that sends only gated packets gets one 401 reply per packet; no table changes and nothing is forwarded |
| Views.ReloginKeepsOldToken | server/src/roomhub.cpp:241-245 | a second login binds a new token to the connection and leaves the old token in the session table, still naming its user |
| Views.RegisterThenLoginStep | server/src/roomhub.cpp:199-257 | register then login on one connection passes the session gate, as the registered user with the registered role |
| Views.CreateView | server/src/roomhub.cpp:267-299 | a create by a factory user with a title stores one new open order; the creator gets it, then every authenticated connection gets the event; the creator's listing includes it |
| Views.AcceptOnlyOnceStep | server/src/roomhub.cpp:306-331 | the first expert to accept is assigned; a second accept of the same id is refused with 400 and changes nothing else |
| Views.OrderRefused | server/src/roomhub.cpp:264-358 | each refused create, accept or status change leaves every table as it is and writes one error, with the source's code, to the caller alone |
| Views.StatusView | server/src/roomhub.cpp:333-352 | a permitted status change stores the status verbatim on that order alone, changes no other table, answers the caller and announces the order to every authenticated connection |
| Views.MemberNamesHead | server/src/roomhub.cpp:407-417 | the member list of a range that starts with a socket starts with that socket's user |
| Views.LeaveNoticeView | server/src/roomhub.cpp:371-378 | the leaver hears nothing; another connection gets the leave notice exactly when it is connected and was in the room left |
| Views.JoinedRangeHead | server/src/roomhub.cpp:380-382 | after joinRoom the new range holds the joiner, first, so the member list starts with its name |
| Views.JoinerView | server/src/roomhub.cpp:169-176 | the joiner gets the acknowledgement, the snapshot headed by its own name, and, if connected, its own join notice, and nothing about the room it left |
| Views.EnterPeerView | server/src/roomhub.cpp:169-176 | another connection gets the leave notice if it was in the old room and the join notice if it is in the new one, each only when connected |
| Views.JoinRefused | server/src/roomhub.cpp:136-158 | an empty room id (400) or an order room the caller may not join (403) changes nothing (membership and status included) and writes one error to the caller |
| Views.OrderRoomJoin | server/src/roomhub.cpp:136-177 | an admitted join puts the caller in the room; for an order room it moves "assigned" to "in_progress", and a later join leaves the orders as they are; a room naming no order admits anyone and changes no order |
| Views.RejoinKeepsOrders | server/src/roomhub.cpp:160-166 | a join of a room whose order is not assigned changes no order |
| Views.DisconnectView | server/src/roomhub.cpp:47-73 | a disconnect removes the context, its token and every range entry of the socket, keeps both stores, and sends the leave notice to exactly the connected members of its room |
| Views.ForwardPeerView | server/src/roomhub.cpp:179-191 | another connection gets the tagged packet exactly when it shares the sender's room and receives (connected, and not backlogged for a video frame) |
| Views.ForwardSenderView | server/src/roomhub.cpp:179-191 | a sender outside any room changes nothing; the sender never gets its own packet, and gets advisories only for video frames, one per dropped recipient |
| Views.SecondFrameDropped | server/src/roomhub.cpp:86-90 | two video frames in one read: a recipient whose backlog crosses the threshold between them gets the first only, and the sender gets a congestion advisory for it |
| Views.SeenAt | server/src/roomhub.h:42 | the stamp table has exactly the connections as keys |
| Views.PacketKeepsSeen | server/src/roomhub.cpp:111-193 | no packet handler moves any connection's last-seen stamp |
| Views.PacketsKeepSeen | server/src/roomhub.cpp:86-90 | the packets of one read move no stamp |
| Views.ReadStamps | server/src/roomhub.cpp:82-83 | every read stamps its connection with the read's time, however decoding goes, and no other stamp moves; the connection is not evicted at that time |
| Server.RoomHub.constructor | server/src/roomhub.cpp:5-16 | the hub starts with the loaded stores, no sessions, connections or rooms, and the heartbeat period of 30000 ms; the files hold what was loaded; Valid |
| Server.RoomHub.Send | server/src/roomhub.cpp:360-364 | a socket write (`sock->write(buildPacket(...))`, as in handlePing) appends the packet to that socket's log and to no other |
| Server.RoomHub.NextUuid | server/src/roomhub.cpp:577-579 | the next identifier is drawn and the count of drawn identifiers goes up by one |
| Server.RoomHub.SaveUsers | server/src/roomhub.cpp:468-500 | the users file holds the current users table |
| Server.RoomHub.SaveWorkOrders | server/src/roomhub.cpp:540-575 | the orders file holds the current order table |
| Server.RoomHub.OnNewConnection | server/src/roomhub.cpp:32-45 | adds a blank context stamped with the accept time, as ConnectStep says; Valid is kept |
| Server.RoomHub.OnDisconnected | server/src/roomhub.cpp:47-73 | the hub changes exactly as DisconnectStep says; Valid is kept |
| Server.RoomHub.OnReadyRead | server/src/roomhub.cpp:75-91 | buffers and stamps, then handles the decoded packets in order, each under its own Net, as ReadStep says; Valid is kept |
| Server.RoomHub.OnHeartbeatTimer | server/src/roomhub.cpp:93-109 | returns exactly the connections idle longer than the timeout |
| Server.RoomHub.HandlePacket | server/src/roomhub.cpp:111-193 | auth, ping, the session gate, then the session packets, as PacketStep says; the stores stay saved |
| Server.RoomHub.HandleSessionPacket | server/src/roomhub.cpp:131-192 | orders, order-room joins and forwarding, as SessionStep says |
| Server.RoomHub.HandlePing | server/src/roomhub.cpp:360-364 | echoes the ping with the current time in "ts" |
| Server.RoomHub.HandleAuth | server/src/roomhub.cpp:196-262 | register, login, or an unknown-operation error, as AuthStep says |
| Server.RoomHub.Register | server/src/roomhub.cpp:199-234 | reports the first failed check, or stores the user with a fresh salt and saves, as RegisterStep says |
| Server.RoomHub.Login | server/src/roomhub.cpp:236-257 | on success binds a fresh token, the name and the role to the connection; otherwise reports invalid credentials; as LoginStep says |
| Server.RoomHub.AuthenticateUser | server/src/roomhub.cpp:590-606 | succeeds exactly when the user exists, the role matches if one is given, and the hash agrees; only then is a fresh token recorded for the user |
| Server.RoomHub.IsValidToken | server/src/roomhub.cpp:608-622 | true exactly when the token is in the session table and names a registered user; an orphaned token is removed |
| Server.RoomHub.HandleOrder | server/src/roomhub.cpp:264-358 | create, list, accept, status, or an unknown-operation error, as OrderStep says |
| Server.RoomHub.CreateOrder | server/src/roomhub.cpp:267-299 | as CreateStep says |
| Server.RoomHub.AcceptOrder | server/src/roomhub.cpp:306-331 | as AcceptStep says |
| Server.RoomHub.SetOrderStatus | server/src/roomhub.cpp:333-352 | as StatusStep says |
| Server.RoomHub.CreateWorkOrder | server/src/roomhub.cpp:624-641 | stores a new open, unassigned order of the caller under a fresh id, both timestamps equal, and saves; no other order changes |
| Server.RoomHub.GetWorkOrdersForUser | server/src/roomhub.cpp:643-671 | the loop returns exactly the orders the user may see |
| Server.RoomHub.AcceptWorkOrder | server/src/roomhub.cpp:673-686 | succeeds exactly when the order exists and is open; then only it changes, to assigned to the caller; saved |
| Server.RoomHub.UpdateWorkOrderStatus | server/src/roomhub.cpp:688-715 | succeeds exactly when the order exists and the caller may set that status; then only its status and timestamp change; saved |
| Server.RoomHub.BroadcastWorkOrderEvent | server/src/roomhub.cpp:722-743 | the loop sends the event to exactly the connections with a valid, non-empty token |
| Server.RoomHub.NotifyIfAuthenticated | server/src/roomhub.cpp:738-741 | one turn of that loop: the connection gets the packet exactly when it is authenticated |
| Server.RoomHub.HandleJoinWorkOrder | server/src/roomhub.cpp:136-177 | the refusals, the order gate and the join, as JoinStep says |
| Server.RoomHub.StartOrder | server/src/roomhub.cpp:160-166 | an assigned order becomes in_progress, is saved and announced, as StartStep says |
| Server.RoomHub.EnterRoom | server/src/roomhub.cpp:169-176 | joinRoom, the acknowledgement, the snapshot and the join notice, as EnterStep says |
| Server.RoomHub.JoinRoom | server/src/roomhub.cpp:367-385 | leave the old room with a notice, then insert under the new room, as JoinRoomStep says |
| Server.RoomHub.LeaveOldRoom | server/src/roomhub.cpp:368-378 | the erase loop leaves the old range without the socket, and the rest of the room gets the leave notice |
| Server.RoomHub.Forward | server/src/roomhub.cpp:179-191 | a packet from a connection in a room is tagged and broadcast to it, as ForwardStep says |
| Server.RoomHub.BroadcastToRoom | server/src/roomhub.cpp:387-405 | the loop writes exactly what Broadcast over the room's range says |
| Server.RoomHub.ListMembers | server/src/roomhub.cpp:407-417 | the loop returns the users of the range's sockets that have a context, in range order |
| Server.RoomHub.BroadcastRoomMembers | server/src/roomhub.cpp:419-424 | the member list goes to the room with the default broadcast arguments |
| Server.RoomHub.SendRoomMembersTo | server/src/roomhub.cpp:426-430 | the member list goes to one socket |
| Chat.LeaveKeepsValid | server/Sources/main.cpp:223-246 | leave keeps the tables consistent |
| Chat.JoinKeepsValid | server/Sources/main.cpp:206-221 | join with a non-empty room and user keeps the tables consistent |
| Chat.JoinTables | server/Sources/main.cpp:207-210 | after join the socket's user and room are the new ones, the socket was erased from its old range and inserted under the new room, and the entry line went to the new range |
| Chat.RequestKeepsValid | server/Sources/main.cpp:297-349 | every request line keeps the tables consistent |
| Chat.RequestsKeepValid | server/Sources/main.cpp:293-350 | the lines of one read, handled in order, keep the tables consistent |
| Chat.LeaveView | server/Sources/main.cpp:223-246 | the socket leaves both tables and every range; with no room nothing is sent; otherwise the leave line goes, under the copy's guard, to exactly the others of its room, never to the leaver |
| Chat.JoinView | server/Sources/main.cpp:206-221 | the socket's user and room are set, it is in the new range exactly once and in no other, and the entry line goes to everyone in that room, the joiner included |
| Chat.MessageView | server/Sources/main.cpp:317-333 | a complete chat message changes no table; it goes to everyone in the room, then the sender gets the ok reply |
| Chat.IncompleteRefused | server/Sources/main.cpp:308-333 | a join or message with an empty required field changes no table and gets the "参数不完整" error |
| Chat.LeaveCopiesAgree | server/src/main_consolidated.cpp:52-74 | while every socket with a room has a user, the two copies' leave steps are the same |
| Chat.LeaveCopiesDiffer | server/src/main_consolidated.cpp:61-70 | for a socket with a room but no user, only the consolidated copy sends a leave line |
| Chat.UnknownActionReplies | server/src/main_consolidated.cpp:327 | an unknown action gets "unknown action" from the standalone copy and "未知动作: " plus the action from the consolidated one |
| Chat.ChatHub.constructor | server/Sources/main.cpp:199-204 | the three tables start empty; the hub is consistent |
| Chat.ChatHub.Send | server/Sources/main.cpp:28-32 | writeLine appends the line to that socket's log and to no other (the same helper is server/src/main_consolidated.cpp:25) |
| Chat.ChatHub.Broadcast | server/Sources/main.cpp:248-257 | the loop writes the line to every socket of the room's range |
| Chat.ChatHub.Leave | server/Sources/main.cpp:223-246 | the erase loop and the guarded leave broadcast, as LeaveStep says |
| Chat.ChatHub.Join | server/Sources/main.cpp:206-221 | silent leave, the three insertions and the entry broadcast, as JoinStep says |
| Chat.ChatHub.HandleRequest | server/Sources/main.cpp:297-349 | one line, dispatched as RequestStep says; the tables stay consistent |
| Chat.ChatHub.OnReadyRead | server/Sources/main.cpp:292-351 | the lines of one read, in order, as Requests says; the tables stay consistent |
| Chat.ChatHub.OnDisconnected | server/Sources/main.cpp:353-356 | a disconnect is a leave with broadcast; the tables stay consistent |

## Left out

- Packet framing. The MSG_* tags, `drainPackets` and `buildPacket` belong to a
  protocol header that is not part of this model.
  - The decoder is an uninterpreted function field (`drain`).
  - Packets are a datatype.
  - Outgoing packets are kept as values, not bytes.
- Qt networking. A socket write is an append to that socket's log. A
  socket's connected state and `bytesToWrite` are the `Net` parameter of the
  events that read them.
  - A read passes one `Net` per packet (`nets(i)` for the i-th packet).
    This lets the backlog that the hub's own writes for earlier packets
    build up drop a later frame of the same read (`Views.SecondFrameDropped`).
  - The model does not derive those later backlogs from the bytes written.
    Each `nets(i)` is given by the caller.
  - Signal and slot wiring, `deleteLater` and `flush` are not modelled.
  - The null-sender and null-socket checks are not modelled.
  - Server startup and `listen` are not modelled.
- Server.RoomHub.OnHeartbeatTimer: the model returns the set of expired
  connections instead of calling `disconnectFromHost` on each. The resulting
  disconnect is the separate `OnDisconnected` event.
- The clock is read once per event, as a `Clock(ms, iso)` parameter. The
  handlers read it several times within one event.
- SHA-256 and UUIDs.
  - `hashPassword` is the uninterpreted function field `hash`.
  - `QUuid::createUuid` is `uuid(n)` for the n-th identifier drawn.
  - `uuid` is unconstrained. No distinctness of tokens, salts or order ids
    is assumed; a repeated id overwrites the map entry, as in the source.
  - The only inequality any contract uses is the hypothesis of
    `Views.ReloginKeepsOldToken`: the new token differs from the one the
    connection held.
- File I/O. `users.json` and `workorders.json` are modelled only as the
  documents written (`usersSaved`, `ordersSaved`), and a save always succeeds.
  - Open, parse and commit failures are not modelled.
  - A missing file is loaded as an empty document.
- Views.RegisterThenLoginStep: requires the token drawn at login to be
  non-empty. A UUID's text is never empty.
- Server.RoomHub.AcceptOrder and SetOrderStatus: their replies carry the
  whole order (`Accepted(o)`, `StatusSet(o)`). The source sends only some of
  its fields.
- Server.RoomHub.Register: the success reply is the `Registered` event, not
  its message text. Likewise, the `Refusal` values stand for the texts listed
  in `Records.Message`.
- Server.RoomHub.GetWorkOrdersForUser: returns a set. The source's JSON array
  is in hash-iteration order, which is unspecified.
- Server.RoomHub.IsValidToken: removes an orphaned token as the source does,
  but the hub's invariant makes that branch unreachable from the handlers. So
  the session gate is modelled as the pure test `TokenValid`.
- Hash iteration order.
  - Multimap ranges are modelled newest first.
  - Sends to a set of connections, as in `broadcastWorkOrderEvent`, are
    modelled without an order among recipients.
- Chat.ChatHub.Join and Chat.JoinKeepsValid: consistency needs a non-empty
  room and user. The `chat_join` dispatcher guarantees both, so `Join` does
  not require its own `Valid()`.
- Chat.ChatHub.OnReadyRead: the `canReadLine`/`readLine` loop is modelled
  with the lines as a sequence of parsed requests. JSON parsing is not
  modelled.
- The SQL-backed chat-server actions (`register`, `login`, `new_order`,
  `update_order`, `get_orders`, `delete_order`) and the database schema.
  These requests get a `Delegated` reply that records the request without
  modelling it.
- The client GUI, the SDK wrappers, the UDP relay and the command-line
  startup are outside the modelled core.
