/** The call handlers of client/src/patient/ConsultationRoom.jsx. They drive the shared
    peer wrapper (module PeerProvider), remember who the other participant is and emit
    signalling messages on the socket. The three socket handlers are specified by pure
    step functions over the peer's JSEP state; the class `Room` holds the component state
    and is proved against them. */
module ConsultationRoom {
  import opened Wrappers
  import opened Jsep
  import opened PeerProvider

  type UserId = string

  /** A message the room emits on its socket. A `userId` of None is JavaScript's
      undefined. An `offer` of None is null, the `localDescription` of a connection that
      has none yet. */
  datatype Outgoing =
    | CallUser(userId: Option<UserId>, offer: Option<Description>)
    | CallAccepted(userId: Option<UserId>, ans: Description)

  datatype Handler = OnUserJoined | OnIncomingCall | OnCallAccepted | OnNegotiationNeeded

  datatype Listener = Listener(event: string, handler: Handler)

  /** What the first effect registers on the socket and its cleanup unregisters. */
  const SocketHandlers: multiset<Listener> := multiset{
    Listener("user-joined", OnUserJoined),
    Listener("incoming-call", OnIncomingCall),
    Listener("call-accepted", OnCallAccepted)}

  /** What the second effect registers on the peer connection. */
  const PeerHandlers: multiset<Listener> := multiset{Listener("negotiationneeded", OnNegotiationNeeded)}

  const PermissionDenied := "Permissions denied. Please allow access to camera and microphone."
  const NoDevice := "No camera or microphone found on this device."
  const DeviceError := "Error accessing camera or microphone. Please check your device settings."

  /** The alert shown when `getUserMedia` rejects with an error named `name`. */
  function MediaErrorAlert(name: string): (m: string)
    ensures m == PermissionDenied <==> name == "NotAllowedError"
    ensures m == NoDevice <==> name == "NotFoundError"
    ensures m == DeviceError <==> name != "NotAllowedError" && name != "NotFoundError"
  {
    if name == "NotAllowedError" then PermissionDenied
    else if name == "NotFoundError" then NoDevice
    else DeviceError
  }

  /** The outcome of `navigator.mediaDevices.getUserMedia` and, after a grant, of the
      `enumerateDevices` call awaited in the same `try`: `enumerateError` names the error it
      rejected with, None when it resolved. */
  datatype MediaResult = Granted(stream: MediaStream, enumerateError: Option<string>) | Rejected(errorName: string)

  /** `handleUserJoined {userId}`: the member already in the room makes the offer and
      sends it to the newcomer; a rejected `createOffer` ends the handler before the emit. */
  function UserJoinedStep(p: PeerState, userId: UserId, sdp: string): (r: (PeerState, Option<Outgoing>))
    ensures r.1.Some? <==> p.signaling != HaveRemoteOffer
    ensures r.1.Some? ==> (r.0.signaling == HaveLocalOffer && r.0.local.Some?
                           && r.1.value == CallUser(Some(userId), r.0.local))
    ensures r.1.None? ==> r.0 == p
  {
    var (q, offer) := CreateOfferStep(p, sdp);
    if offer.Ok? then (q, Some(CallUser(Some(userId), Some(offer.value)))) else (q, None)
  }

  /** `handleIncomngCall {from, offer}`: the newcomer answers and sends the answer back to
      `from`; a rejected `createAnswer` ends the handler before the emit. */
  function IncomingCallStep(p: PeerState, from: Option<UserId>, offer: Description, sdp: string): (r: (PeerState, Option<Outgoing>))
    ensures r.1.Some? <==> offer.kind == Offer && p.signaling != HaveLocalOffer
    ensures r.1.Some? ==> (r.0.signaling == Stable && r.0.remote == Some(offer) && r.0.local.Some?
                           && r.1.value == CallAccepted(from, r.0.local.value))
    ensures r.0 == CreateAnswerStep(p, offer, sdp).0
  {
    var (q, ans) := CreateAnswerStep(p, offer, sdp);
    if ans.Ok? then (q, Some(CallAccepted(from, ans.value))) else (q, None)
  }

  /** `handleCallAccepted {ans}`: the handler repeats the wrapper's guard, so the wrapper is
      only called in have-local-offer; None means the handler skipped it. */
  function CallAcceptedStep(p: PeerState, ans: Description): (r: (PeerState, Option<AnswerLog>))
    ensures r.1.Some? <==> p.signaling == HaveLocalOffer
    ensures r.1.Some? ==> r.1.value in {Applied, ApplyFailed}
    ensures r.1 == Some(Applied) <==> p.signaling == HaveLocalOffer && ans.kind == Answer
    ensures r.1 == Some(Applied) ==> r.0 == PeerState(Stable, p.local, Some(ans))
    ensures r.1 != Some(Applied) ==> r.0 == p
  {
    if p.signaling == HaveLocalOffer then
      var (q, log) := SetRemoteAnswerStep(p, ans);
      (q, Some(log))
    else (p, None)
  }

  class Room {
    /** The peer wrapper from the provider (`usePeer()`). */
    const peer: Peer
    /** The `remoteuserId` state. */
    var remoteUserId: Option<UserId>
    /** The `remoteuserId` that the memoised `handleNegotiation` closed over: its value at
        the first render, because the callback has no dependencies. */
    const negotiationUserId: Option<UserId>
    /** The `myStream` state. */
    var myStream: Option<MediaStream>
    /** Everything emitted on the socket, in order. */
    var emitted: seq<Outgoing>
    var socketListeners: multiset<Listener>
    var peerListeners: multiset<Listener>
    /** The alerts shown to the user, in order. */
    var alerts: seq<string>

    /** The first render. */
    constructor (p: Peer)
      ensures peer == p && remoteUserId == None && negotiationUserId == None && myStream == None
      ensures emitted == [] && socketListeners == multiset{} && peerListeners == multiset{} && alerts == []
    {
      peer := p;
      remoteUserId, negotiationUserId, myStream := None, None, None;
      emitted, socketListeners, peerListeners, alerts := [], multiset{}, multiset{}, [];
    }

    /** The two listener effects run on mount. */
    method Mount()
      modifies this
      ensures socketListeners == old(socketListeners) + SocketHandlers
      ensures peerListeners == old(peerListeners) + PeerHandlers
      ensures emitted == old(emitted) && remoteUserId == old(remoteUserId) && myStream == old(myStream) && alerts == old(alerts)
    {
      socketListeners := socketListeners + SocketHandlers;
      peerListeners := peerListeners + PeerHandlers;
    }

    /** Their cleanups, run on unmount: after a mount, exactly what it added goes away. */
    method Unmount()
      requires SocketHandlers <= socketListeners && PeerHandlers <= peerListeners
      modifies this
      ensures socketListeners + SocketHandlers == old(socketListeners)
      ensures peerListeners + PeerHandlers == old(peerListeners)
      ensures emitted == old(emitted) && remoteUserId == old(remoteUserId) && myStream == old(myStream) && alerts == old(alerts)
    {
      socketListeners := socketListeners - SocketHandlers;
      peerListeners := peerListeners - PeerHandlers;
    }

    method HandleUserJoined(userId: UserId, offerSdp: string)
      modifies this, peer
      ensures var (q, out) := UserJoinedStep(old(peer.State()), userId, offerSdp);
              && peer.State() == q
              && emitted == (if out.Some? then old(emitted) + [out.value] else old(emitted))
              && remoteUserId == (if out.Some? then Some(userId) else old(remoteUserId))
      ensures peer.senders == old(peer.senders) && peer.remoteStream == old(peer.remoteStream)
      ensures myStream == old(myStream) && alerts == old(alerts)
      ensures socketListeners == old(socketListeners) && peerListeners == old(peerListeners)
    {
      var offer := peer.CreateOffer(offerSdp);
      if offer.Err? {
        return;
      }
      emitted := emitted + [CallUser(Some(userId), Some(offer.value))];
      remoteUserId := Some(userId);
    }

    method HandleIncomingCall(from: Option<UserId>, offer: Description, answerSdp: string)
      modifies this, peer
      ensures var (q, out) := IncomingCallStep(old(peer.State()), from, offer, answerSdp);
              && peer.State() == q
              && emitted == (if out.Some? then old(emitted) + [out.value] else old(emitted))
              && remoteUserId == (if out.Some? then from else old(remoteUserId))
      ensures peer.senders == old(peer.senders) && peer.remoteStream == old(peer.remoteStream)
      ensures myStream == old(myStream) && alerts == old(alerts)
      ensures socketListeners == old(socketListeners) && peerListeners == old(peerListeners)
    {
      var ans := peer.CreateAnswer(offer, answerSdp);
      if ans.Err? {
        return;
      }
      emitted := emitted + [CallAccepted(from, ans.value)];
      remoteUserId := from;
    }

    method HandleCallAccepted(ans: Description) returns (log: Option<AnswerLog>)
      modifies peer
      ensures (peer.State(), log) == CallAcceptedStep(old(peer.State()), ans)
      ensures peer.senders == old(peer.senders) && peer.remoteStream == old(peer.remoteStream)
    {
      if peer.signaling == HaveLocalOffer {
        var l := peer.SetRemoteAnswer(ans);
        log := Some(l);
      } else {
        log := None;
      }
    }

    /** `handleNegotiation` as written: it re-sends the current local description, without
        creating a new offer, to the participant id captured at first render. */
    method HandleNegotiation()
      modifies this
      ensures emitted == old(emitted) + [CallUser(negotiationUserId, peer.localDescription)]
      ensures remoteUserId == old(remoteUserId) && myStream == old(myStream) && alerts == old(alerts)
      ensures socketListeners == old(socketListeners) && peerListeners == old(peerListeners)
    {
      emitted := emitted + [CallUser(negotiationUserId, peer.localDescription)];
    }

    /** The renegotiation the handler is evidently meant to perform: a new offer, sent to the
        participant the room is currently connected to, and nothing when there is none. */
    method HandleNegotiationCorrected(offerSdp: string)
      modifies this, peer
      ensures remoteUserId.None? ==> emitted == old(emitted) && peer.State() == old(peer.State())
      ensures remoteUserId.Some? ==>
                var (q, offer) := CreateOfferStep(old(peer.State()), offerSdp);
                && peer.State() == q
                && emitted == (if offer.Ok? then old(emitted) + [CallUser(remoteUserId, Some(offer.value))] else old(emitted))
      ensures remoteUserId == old(remoteUserId) && myStream == old(myStream) && alerts == old(alerts)
      ensures peer.senders == old(peer.senders) && peer.remoteStream == old(peer.remoteStream)
      ensures socketListeners == old(socketListeners) && peerListeners == old(peerListeners)
    {
      if remoteUserId.None? {
        return;
      }
      var offer := peer.CreateOffer(offerSdp);
      if offer.Ok? {
        emitted := emitted + [CallUser(remoteUserId, Some(offer.value))];
      }
    }

    /** `getUserMediaStream`: on a grant the stream's tracks go to the peer and the stream
        becomes `myStream`; a rejection of either awaited call shows one alert naming the
        cause, so a failing `enumerateDevices` alerts after the tracks were already sent. A
        rejected `getUserMedia` adds no track. */
    method GetUserMediaStream(media: MediaResult)
      modifies this, peer
      ensures media.Granted? ==> (peer.senders == AddTracks(old(peer.senders), media.stream.tracks).0
                                  && myStream == Some(media.stream))
      ensures media.Granted? && media.enumerateError.None? ==> alerts == old(alerts)
      ensures media.Granted? && media.enumerateError.Some? ==> alerts == old(alerts) + [MediaErrorAlert(media.enumerateError.value)]
      ensures media.Rejected? ==> (peer.senders == old(peer.senders) && myStream == old(myStream)
                                   && alerts == old(alerts) + [MediaErrorAlert(media.errorName)])
      ensures peer.State() == old(peer.State()) && peer.remoteStream == old(peer.remoteStream)
      ensures emitted == old(emitted) && remoteUserId == old(remoteUserId)
      ensures socketListeners == old(socketListeners) && peerListeners == old(peerListeners)
    {
      match media
      case Granted(stream, enumerateError) =>
        var _ := peer.SendStream(stream);
        myStream := Some(stream);
        if enumerateError.Some? {
          alerts := alerts + [MediaErrorAlert(enumerateError.value)];
        }
      case Rejected(name) =>
        alerts := alerts + [MediaErrorAlert(name)];
    }
  }

  /** The stale closure at work: once the room has offered to "pat1", a renegotiation is
      still addressed to nobody, and re-sends the old offer. */
  method StaleNegotiationWitness() returns (connectedTo: Option<UserId>, addressedTo: Option<UserId>)
    ensures connectedTo == Some("pat1") && addressedTo == None
  {
    var p := new Peer();
    var room := new Room(p);
    room.Mount();
    room.HandleUserJoined("pat1", "v=0 offer");
    assert room.emitted == [CallUser(Some("pat1"), Some(Description(Offer, "v=0 offer")))];
    room.HandleNegotiation();
    connectedTo := room.remoteUserId;
    addressedTo := room.emitted[|room.emitted| - 1].userId;
  }

  /** The corrected handler in the same situation addresses "pat1" with a new offer. */
  method CorrectedNegotiationWitness() returns (connectedTo: Option<UserId>, addressedTo: Option<UserId>, resent: Option<Description>)
    ensures connectedTo == Some("pat1") && addressedTo == Some("pat1")
    ensures resent == Some(Description(Offer, "v=0 renegotiation"))
  {
    var p := new Peer();
    var room := new Room(p);
    room.Mount();
    room.HandleUserJoined("pat1", "v=0 offer");
    room.HandleNegotiationCorrected("v=0 renegotiation");
    connectedTo := room.remoteUserId;
    addressedTo := room.emitted[|room.emitted| - 1].userId;
    resent := room.emitted[|room.emitted| - 1].offer;
  }
}
