/** The consultation call end to end: the room handlers of both participants
    (module ConsultationRoom) exchanging offer and answer through the relay (module
    Relay), in the order the two pages and the server drive them. */
module CallFlow {
  import opened Wrappers
  import opened Jsep
  import Relay
  import opened ConsultationRoom

  /** The messages of two participants joining room `room` from sockets `docSocket` and
      `patSocket`, the doctor first. */
  function JoinMessages(docSocket: Relay.SocketId, patSocket: Relay.SocketId, room: Relay.RoomId,
                        docId: UserId, patId: UserId): (ms: seq<Relay.Message>)
    ensures |ms| == 4
  {
    [Relay.Connected(docSocket), Relay.Connected(patSocket),
     Relay.JoinRoomMsg(docSocket, room, docId), Relay.JoinRoomMsg(patSocket, room, patId)]
  }

  /** The doctor joins first: acknowledged, and nobody else is told. */
  lemma FirstJoin(docSocket: Relay.SocketId, patSocket: Relay.SocketId, room: Relay.RoomId, docId: UserId)
    requires docSocket != patSocket && room != docSocket && room != patSocket
    ensures var st := Relay.JoinRoomStep(Relay.ConnectStep(Relay.ConnectStep(Relay.Empty, docSocket), patSocket),
                                         docSocket, room, docId);
            && st.rooms == {(docSocket, docSocket), (patSocket, patSocket), (room, docSocket)}
            && st.outbox == [Relay.Delivery({docSocket}, Relay.JoinedRoom(room))]
  {
    var s1 := Relay.ConnectStep(Relay.ConnectStep(Relay.Empty, docSocket), patSocket);
    assert s1.rooms == {(docSocket, docSocket), (patSocket, patSocket)};
    assert Relay.Members(s1.rooms, room) == {};
  }

  /** Then the patient: acknowledged, and the doctor alone is told. */
  lemma SecondJoin(st: Relay.RelayState, docSocket: Relay.SocketId, patSocket: Relay.SocketId, room: Relay.RoomId, patId: UserId)
    requires docSocket != patSocket && room != docSocket && room != patSocket
    requires st.rooms == {(docSocket, docSocket), (patSocket, patSocket), (room, docSocket)}
    ensures var st1 := Relay.JoinRoomStep(st, patSocket, room, patId);
            && st1.rooms == {(docSocket, docSocket), (patSocket, patSocket), (room, docSocket), (room, patSocket)}
            && st1.outbox == st.outbox + [Relay.Delivery({patSocket}, Relay.JoinedRoom(room)),
                                          Relay.Delivery({docSocket}, Relay.UserJoined(patId))]
  {
    assert Relay.Members(st.rooms, patSocket) == {patSocket};
    assert Relay.Members(st.rooms, room) - Relay.Members(st.rooms, patSocket) == {docSocket};
  }

  /** With both participants in the consultation room, each socket's own room still holds
      that socket alone. */
  lemma OwnRoomsAfterJoin(st: Relay.RelayState, docSocket: Relay.SocketId, patSocket: Relay.SocketId, room: Relay.RoomId)
    requires docSocket != patSocket && room != docSocket && room != patSocket
    requires st.rooms == {(docSocket, docSocket), (patSocket, patSocket), (room, docSocket), (room, patSocket)}
    ensures Relay.OwnRoomOnly(st, docSocket) && Relay.OwnRoomOnly(st, patSocket)
  {
    forall m | m in st.rooms && (m.0 == docSocket || m.0 == patSocket)
      ensures m.1 == m.0
    {
      assert m == (docSocket, docSocket) || m == (patSocket, patSocket) || m == (room, docSocket) || m == (room, patSocket);
    }
  }

  /** Joining: each participant is acknowledged, and only the doctor, who was already in
      the room, hears that the patient joined; the patient never hears about the doctor.
      Afterwards each id routes to its socket and back, and each socket's own room holds
      that socket alone, as the handshake below requires. */
  lemma JoinOrder(docSocket: Relay.SocketId, patSocket: Relay.SocketId, room: Relay.RoomId,
                  docId: UserId, patId: UserId)
    requires docSocket != patSocket && room != docSocket && room != patSocket && docId != patId
    ensures var st := Relay.Run(Relay.Empty, JoinMessages(docSocket, patSocket, room, docId, patId));
            && Relay.Valid(st)
            && st.outbox == [Relay.Delivery({docSocket}, Relay.JoinedRoom(room)),
                             Relay.Delivery({patSocket}, Relay.JoinedRoom(room)),
                             Relay.Delivery({docSocket}, Relay.UserJoined(patId))]
            && st.userToSocket == map[docId := docSocket, patId := patSocket]
            && st.socketToUser == map[docSocket := docId, patSocket := patId]
            && Relay.OwnRoomOnly(st, docSocket) && Relay.OwnRoomOnly(st, patSocket)
  {
    var ms := JoinMessages(docSocket, patSocket, room, docId, patId);
    Relay.RunKeepsValid(Relay.Empty, ms);
    var s1 := Relay.ConnectStep(Relay.ConnectStep(Relay.Empty, docSocket), patSocket);
    assert Relay.Run(Relay.Empty, ms) == Relay.Run(s1, ms[2..]);
    var s2 := Relay.JoinRoomStep(s1, docSocket, room, docId);
    assert Relay.Run(s1, ms[2..]) == Relay.Run(s2, ms[3..]);
    var s3 := Relay.JoinRoomStep(s2, patSocket, room, patId);
    assert Relay.Run(s2, ms[3..]) == s3;
    FirstJoin(docSocket, patSocket, room, docId);
    SecondJoin(s2, docSocket, patSocket, room, patId);
    OwnRoomsAfterJoin(s3, docSocket, patSocket, room);
  }

  /** The handshake between two joined participants on different sockets, both peers
      stable: the doctor's `user-joined` handler offers, the relay forwards the offer to the
      patient's socket alone with the doctor's id as `from`, the patient answers to that id,
      the relay forwards the answer to the doctor's socket alone, and the doctor applies it.
      Both peers end stable, each holding the other's description. */
  lemma {:induction false} Handshake(st: Relay.RelayState, docSocket: Relay.SocketId, patSocket: Relay.SocketId,
                                     docId: UserId, patId: UserId, doc: PeerState, pat: PeerState,
                                     offerSdp: string, answerSdp: string)
    requires Relay.Valid(st) && docSocket != patSocket
    requires docId in st.userToSocket && st.userToSocket[docId] == docSocket
    requires patId in st.userToSocket && st.userToSocket[patId] == patSocket
    requires docSocket in st.socketToUser && st.socketToUser[docSocket] == docId
    requires patSocket in st.socketToUser && st.socketToUser[patSocket] == patId
    requires Relay.OwnRoomOnly(st, docSocket) && Relay.OwnRoomOnly(st, patSocket)
    requires doc.signaling == Stable && pat.signaling == Stable
    ensures var (doc1, call) := UserJoinedStep(doc, patId, offerSdp);
            && call == Some(CallUser(Some(patId), Some(Description(Offer, offerSdp))))
            && var st1 := Relay.CallUserStep(st, docSocket, patId, Description(Offer, offerSdp));
            && st1.outbox == st.outbox + [Relay.Delivery({patSocket}, Relay.IncomingCall(Some(docId), Description(Offer, offerSdp)))]
            && var (pat1, reply) := IncomingCallStep(pat, Some(docId), Description(Offer, offerSdp), answerSdp);
            && reply == Some(ConsultationRoom.CallAccepted(Some(docId), Description(Answer, answerSdp)))
            && var st2 := Relay.CallAcceptedStep(st1, patSocket, docId, Description(Answer, answerSdp));
            && st2.outbox == st1.outbox + [Relay.Delivery({docSocket}, Relay.CallAccepted(Description(Answer, answerSdp)))]
            && var (doc2, log) := ConsultationRoom.CallAcceptedStep(doc1, Description(Answer, answerSdp));
            && log == Some(Applied)
            && doc2.signaling == Stable && pat1.signaling == Stable
            && doc2.local == pat1.remote == Some(Description(Offer, offerSdp))
            && doc2.remote == pat1.local == Some(Description(Answer, answerSdp))
  {
    var offer := Description(Offer, offerSdp);
    var ans := Description(Answer, answerSdp);
    var (doc1, call) := UserJoinedStep(doc, patId, offerSdp);
    Relay.CallUserReachesTarget(st, docSocket, patId, offer);
    var st1 := Relay.CallUserStep(st, docSocket, patId, offer);
    assert Relay.SenderId(st, docSocket) == Some(docId);
    assert Relay.Valid(st1) && st1.userToSocket == st.userToSocket && st1.rooms == st.rooms;
    Relay.CallAcceptedReachesTarget(st1, patSocket, docId, ans);
  }
}
