/** The Socket.IO signalling relay of server/index.js:27-54: two routing maps
    (participant id to socket id and back), the transport's room membership, and the
    messages the relay has emitted. Only `join-room`, `call-user` and `call-accepted` have
    handlers; there is no disconnect, ICE-candidate or end-call handling, so no map entry
    is ever removed.

    Socket.IO semantics the model relies on: every connected socket is a member of the
    room named by its own id; `socket.to(x)` and `socket.broadcast.to(x)` reach the members
    of room `x` except the members of the room named by the sender's id (the sender itself,
    and any socket that called `join-room` with that id as the room id);
    `socket.to(undefined)` reaches nobody. */
module Relay {
  import opened Wrappers
  import Jsep

  type SocketId = string
  type UserId = string
  type RoomId = string

  /** The events the relay emits, with their payloads. `from` is None when the caller's
      socket has no participant id (the JavaScript value is undefined). */
  datatype Event =
    | JoinedRoom(roomId: RoomId)
    | UserJoined(userId: UserId)
    | IncomingCall(from: Option<UserId>, offer: Jsep.Description)
    | CallAccepted(ans: Jsep.Description)

  /** One emit, with the set of sockets it reaches (never empty). */
  datatype Delivery = Delivery(to: set<SocketId>, event: Event)

  datatype RelayState = RelayState(
    userToSocket: map<UserId, SocketId>,  // emailToSocketMap
    socketToUser: map<SocketId, UserId>,  // socketToEmailMap
    sockets: set<SocketId>,               // connected sockets
    rooms: set<(RoomId, SocketId)>,       // transport-level room membership
    outbox: seq<Delivery>)

  const Empty := RelayState(map[], map[], {}, {}, [])

  /** Room membership and the maps only ever mention connected sockets, and every
      connected socket is in its own room. */
  predicate Valid(st: RelayState) {
    && (forall m | m in st.rooms :: m.1 in st.sockets)
    && (forall s | s in st.sockets :: (s, s) in st.rooms)
    && (forall u | u in st.userToSocket :: st.userToSocket[u] in st.sockets)
    && (forall s | s in st.socketToUser :: s in st.sockets)
  }

  /** The sockets in room `r`. */
  function Members(rooms: set<(RoomId, SocketId)>, r: RoomId): (ms: set<SocketId>)
    ensures forall s :: s in ms <==> (r, s) in rooms
  {
    set m | m in rooms && m.0 == r :: m.1
  }

  /** An emit to `to`; an emit that reaches nobody leaves no trace. */
  function Emit(outbox: seq<Delivery>, to: set<SocketId>, e: Event): (r: seq<Delivery>)
    ensures to == {} ==> r == outbox
    ensures to != {} ==> r == outbox + [Delivery(to, e)]
  {
    if to == {} then outbox else outbox + [Delivery(to, e)]
  }

  /** A new transport connection: the socket joins the room named by its id. */
  function ConnectStep(st: RelayState, s: SocketId): (r: RelayState)
    ensures s in r.sockets && (s, s) in r.rooms
    ensures r.userToSocket == st.userToSocket && r.socketToUser == st.socketToUser && r.outbox == st.outbox
  {
    st.(sockets := st.sockets + {s}, rooms := st.rooms + {(s, s)})
  }

  /** `join-room {roomId, userId}` on socket `s`. */
  function JoinRoomStep(st: RelayState, s: SocketId, roomId: RoomId, userId: UserId): (r: RelayState)
    ensures r.userToSocket.Keys == st.userToSocket.Keys + {userId} && r.userToSocket[userId] == s
    ensures forall u | u in st.userToSocket && u != userId :: r.userToSocket[u] == st.userToSocket[u]
    ensures r.socketToUser.Keys == st.socketToUser.Keys + {s} && r.socketToUser[s] == userId
    ensures forall t | t in st.socketToUser && t != s :: r.socketToUser[t] == st.socketToUser[t]
    ensures r.rooms == st.rooms + {(roomId, s)} && r.sockets == st.sockets
    // the joiner alone is acknowledged first
    ensures |r.outbox| > |st.outbox| && r.outbox[..|st.outbox| + 1] == st.outbox + [Delivery({s}, JoinedRoom(roomId))]
    // for a socket in its own room: every member already in the room is told, except the
    // members of the room named by the joiner's socket id
    ensures (s, s) in st.rooms ==>
              var others := Members(st.rooms, roomId) - Members(st.rooms, s);
              r.outbox == st.outbox + [Delivery({s}, JoinedRoom(roomId))]
                          + (if others == {} then [] else [Delivery(others, UserJoined(userId))])
  {
    var rooms := st.rooms + {(roomId, s)};
    assert (s, s) in st.rooms ==>
             Members(rooms, roomId) - Members(rooms, s) == Members(st.rooms, roomId) - Members(st.rooms, s);
    st.(userToSocket := st.userToSocket[userId := s],
        socketToUser := st.socketToUser[s := userId],
        rooms := rooms,
        outbox := Emit(st.outbox + [Delivery({s}, JoinedRoom(roomId))],
                       Members(rooms, roomId) - Members(rooms, s), UserJoined(userId)))
  }

  /** The participant id the reverse map gives for `s`, undefined when `s` never joined. */
  function SenderId(st: RelayState, s: SocketId): (r: Option<UserId>)
    ensures r.Some? <==> s in st.socketToUser
    ensures r.Some? ==> r.value == st.socketToUser[s]
  {
    if s in st.socketToUser then Some(st.socketToUser[s]) else None
  }

  /** The sockets `socket.to(emailToSocketMap.get(userId))` reaches from `s`: the members
      of the target's room, less the members of the sender's own room. */
  function Targets(st: RelayState, s: SocketId, userId: UserId): (to: set<SocketId>)
    ensures userId !in st.userToSocket ==> to == {}
    ensures forall x :: x in to <==> userId in st.userToSocket && (st.userToSocket[userId], x) in st.rooms && (s, x) !in st.rooms
    ensures (s, s) in st.rooms ==> s !in to
  {
    if userId in st.userToSocket then Members(st.rooms, st.userToSocket[userId]) - Members(st.rooms, s) else {}
  }

  /** `call-user {userId, offer}` on socket `s`. */
  function CallUserStep(st: RelayState, s: SocketId, userId: UserId, offer: Jsep.Description): (r: RelayState)
    ensures r.(outbox := st.outbox) == st
    ensures userId !in st.userToSocket ==> r == st
    ensures r.outbox == st.outbox || r.outbox == st.outbox + [Delivery(Targets(st, s, userId), IncomingCall(SenderId(st, s), offer))]
  {
    st.(outbox := Emit(st.outbox, Targets(st, s, userId), IncomingCall(SenderId(st, s), offer)))
  }

  /** `call-accepted {userId, ans}` on socket `s`: the answer is forwarded without the
      sender's id. */
  function CallAcceptedStep(st: RelayState, s: SocketId, userId: UserId, ans: Jsep.Description): (r: RelayState)
    ensures r.(outbox := st.outbox) == st
    ensures userId !in st.userToSocket ==> r == st
    ensures r.outbox == st.outbox || r.outbox == st.outbox + [Delivery(Targets(st, s, userId), CallAccepted(ans))]
  {
    st.(outbox := Emit(st.outbox, Targets(st, s, userId), CallAccepted(ans)))
  }

  /** Room `t` holds no socket but `t` itself: nobody called `join-room` with a room id
      equal to that socket id. */
  predicate OwnRoomOnly(st: RelayState, t: SocketId) {
    forall m | m in st.rooms && m.0 == t :: m.1 == t
  }

  /** `call-user` to a joined participant on another socket delivers exactly one
      `incoming-call {from, offer}`, to that participant's socket alone, when neither
      socket's own room was joined by anyone else. */
  lemma CallUserReachesTarget(st: RelayState, s: SocketId, userId: UserId, offer: Jsep.Description)
    requires Valid(st) && userId in st.userToSocket
    requires st.userToSocket[userId] != s && OwnRoomOnly(st, st.userToSocket[userId]) && OwnRoomOnly(st, s)
    ensures CallUserStep(st, s, userId, offer).outbox
            == st.outbox + [Delivery({st.userToSocket[userId]}, IncomingCall(SenderId(st, s), offer))]
  {
    var t := st.userToSocket[userId];
    assert (t, t) in st.rooms;
    assert Targets(st, s, userId) == {t};
  }

  /** `call-accepted` to a joined participant on another socket delivers exactly one
      `call-accepted {ans}`, to that participant's socket alone. */
  lemma CallAcceptedReachesTarget(st: RelayState, s: SocketId, userId: UserId, ans: Jsep.Description)
    requires Valid(st) && userId in st.userToSocket
    requires st.userToSocket[userId] != s && OwnRoomOnly(st, st.userToSocket[userId]) && OwnRoomOnly(st, s)
    ensures CallAcceptedStep(st, s, userId, ans).outbox
            == st.outbox + [Delivery({st.userToSocket[userId]}, CallAccepted(ans))]
  {
    var t := st.userToSocket[userId];
    assert (t, t) in st.rooms;
    assert Targets(st, s, userId) == {t};
  }

  /** The two maps are mutual inverses. */
  predicate Inverse(st: RelayState) {
    && (forall s | s in st.socketToUser :: st.socketToUser[s] in st.userToSocket && st.userToSocket[st.socketToUser[s]] == s)
    && (forall u | u in st.userToSocket :: st.userToSocket[u] in st.socketToUser && st.socketToUser[st.userToSocket[u]] == u)
  }

  /** A second join of the same participant from another socket overwrites the forward
      entry but leaves the old socket's reverse entry behind: the maps drift apart. */
  lemma RejoinBreaksInverse(st: RelayState, s1: SocketId, s2: SocketId, r1: RoomId, r2: RoomId, userId: UserId)
    requires s1 != s2
    ensures var st2 := JoinRoomStep(JoinRoomStep(st, s1, r1, userId), s2, r2, userId);
            && st2.userToSocket[userId] == s2
            && st2.socketToUser[s1] == userId
            && !Inverse(st2)
  {
    var st2 := JoinRoomStep(JoinRoomStep(st, s1, r1, userId), s2, r2, userId);
    assert st2.socketToUser[s1] == userId && st2.userToSocket[userId] != s1;
  }

  /** A message the relay process receives: a new connection, or one of the three events
      with handlers, on socket `socket`. */
  datatype Message =
    | Connected(socket: SocketId)
    | JoinRoomMsg(socket: SocketId, roomId: RoomId, userId: UserId)
    | CallUserMsg(socket: SocketId, userId: UserId, offer: Jsep.Description)
    | CallAcceptedMsg(socket: SocketId, userId: UserId, ans: Jsep.Description)

  /** One message; events only arrive on connected sockets. */
  function Handle(st: RelayState, m: Message): RelayState {
    match m
    case Connected(s) => ConnectStep(st, s)
    case JoinRoomMsg(s, roomId, userId) => if s in st.sockets then JoinRoomStep(st, s, roomId, userId) else st
    case CallUserMsg(s, userId, offer) => if s in st.sockets then CallUserStep(st, s, userId, offer) else st
    case CallAcceptedMsg(s, userId, ans) => if s in st.sockets then CallAcceptedStep(st, s, userId, ans) else st
  }

  /** The messages processed one at a time, in arrival order. */
  function Run(st: RelayState, ms: seq<Message>): RelayState
    decreases |ms|
  {
    if ms == [] then st else Run(Handle(st, ms[0]), ms[1..])
  }

  /** Whatever arrives, no entry of either map is ever removed and no emitted message is
      taken back. */
  lemma {:induction false} RunOnlyGrows(st: RelayState, ms: seq<Message>)
    ensures st.userToSocket.Keys <= Run(st, ms).userToSocket.Keys
    ensures st.socketToUser.Keys <= Run(st, ms).socketToUser.Keys
    ensures st.outbox <= Run(st, ms).outbox
    decreases |ms|
  {
    if ms != [] {
      RunOnlyGrows(Handle(st, ms[0]), ms[1..]);
    }
  }

  /** Every handler keeps the room membership and the maps about connected sockets. */
  lemma HandleKeepsValid(st: RelayState, m: Message)
    requires Valid(st)
    ensures Valid(Handle(st, m))
  {
  }

  lemma {:induction false} RunKeepsValid(st: RelayState, ms: seq<Message>)
    requires Valid(st)
    ensures Valid(Run(st, ms))
    decreases |ms|
  {
    if ms != [] {
      HandleKeepsValid(st, ms[0]);
      RunKeepsValid(Handle(st, ms[0]), ms[1..]);
    }
  }

  /** The relay process: the two module-level maps and the transport state it drives. */
  class Server {
    var userToSocket: map<UserId, SocketId>
    var socketToUser: map<SocketId, UserId>
    var sockets: set<SocketId>
    var rooms: set<(RoomId, SocketId)>
    var outbox: seq<Delivery>

    function State(): RelayState
      reads this
    {
      RelayState(userToSocket, socketToUser, sockets, rooms, outbox)
    }

    constructor ()
      ensures State() == Empty
    {
      userToSocket, socketToUser, sockets, rooms, outbox := map[], map[], {}, {}, [];
    }

    /** `io.on("connection")`. */
    method OnConnection(s: SocketId)
      requires Valid(State())
      modifies this
      ensures State() == ConnectStep(old(State()), s) && Valid(State())
    {
      sockets := sockets + {s};
      rooms := rooms + {(s, s)};
    }

    /** The `join-room` handler. */
    method OnJoinRoom(s: SocketId, roomId: RoomId, userId: UserId)
      requires Valid(State()) && s in sockets
      modifies this
      ensures State() == JoinRoomStep(old(State()), s, roomId, userId) && Valid(State())
    {
      userToSocket := userToSocket[userId := s];
      socketToUser := socketToUser[s := userId];
      rooms := rooms + {(roomId, s)};
      outbox := outbox + [Delivery({s}, JoinedRoom(roomId))];
      var others := (set m | m in rooms && m.0 == roomId :: m.1) - (set m | m in rooms && m.0 == s :: m.1);
      if others != {} {
        outbox := outbox + [Delivery(others, UserJoined(userId))];
      }
    }

    /** The `call-user` handler. */
    method OnCallUser(s: SocketId, userId: UserId, offer: Jsep.Description)
      requires Valid(State()) && s in sockets
      modifies this
      ensures State() == CallUserStep(old(State()), s, userId, offer) && Valid(State())
    {
      var from := if s in socketToUser then Some(socketToUser[s]) else None;
      if userId in userToSocket {
        var to := (set m | m in rooms && m.0 == userToSocket[userId] :: m.1) - (set m | m in rooms && m.0 == s :: m.1);
        if to != {} {
          outbox := outbox + [Delivery(to, IncomingCall(from, offer))];
        }
      }
    }

    /** The `call-accepted` handler. */
    method OnCallAccepted(s: SocketId, userId: UserId, ans: Jsep.Description)
      requires Valid(State()) && s in sockets
      modifies this
      ensures State() == CallAcceptedStep(old(State()), s, userId, ans) && Valid(State())
    {
      if userId in userToSocket {
        var to := (set m | m in rooms && m.0 == userToSocket[userId] :: m.1) - (set m | m in rooms && m.0 == s :: m.1);
        if to != {} {
          outbox := outbox + [Delivery(to, CallAccepted(ans))];
        }
      }
    }
  }
}
