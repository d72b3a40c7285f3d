/** The offer/answer signalling-state machine of a WebRTC peer connection, following the
    state machine of section 3.2 of RFC 8829 (JSEP), restricted to the three states the call
    code can reach (no provisional answers, no rollback, no closed connection).

    The functions ending in `Step` specify the three negotiation operations of the peer
    wrapper in client/src/providers/Peer.jsx; the class `PeerProvider.Peer` implements
    them step by step and is proved against them. */
module Jsep {
  import opened Wrappers

  datatype SignalingState = Stable | HaveLocalOffer | HaveRemoteOffer

  datatype SdpType = Offer | Answer

  /** A session description: its type tag and its SDP text, which the code passes through. */
  datatype Description = Description(kind: SdpType, sdp: string)

  /** The part of an RTCPeerConnection that negotiation reads and changes:
      `signalingState`, `localDescription` and `remoteDescription`. */
  datatype PeerState = PeerState(signaling: SignalingState, local: Option<Description>, remote: Option<Description>)

  /** A description applied in a state that does not admit it. */
  datatype ConnectionError = InvalidStateError

  /** What `setRemoteAnswer` logs; it never throws. */
  datatype AnswerLog = Applied | ApplyFailed | SkippedStable | UnexpectedState

  /** A fresh RTCPeerConnection. */
  const Initial := PeerState(Stable, None, None)

  /** The JSEP transition taken when a description of type `kind` is applied locally
      (`local` true) or remotely; None where the state machine has no such edge. */
  function Transition(s: SignalingState, local: bool, kind: SdpType): Option<SignalingState>
  {
    match (s, local, kind)
    case (Stable, true, Offer) => Some(HaveLocalOffer)
    case (HaveLocalOffer, true, Offer) => Some(HaveLocalOffer)
    case (HaveLocalOffer, false, Answer) => Some(Stable)
    case (Stable, false, Offer) => Some(HaveRemoteOffer)
    case (HaveRemoteOffer, false, Offer) => Some(HaveRemoteOffer)
    case (HaveRemoteOffer, true, Answer) => Some(Stable)
    case _ => None
  }

  /** Every edge of the machine ends where the description type says: an offer leaves the
      connection waiting for an answer, an answer completes the cycle in `stable`. */
  lemma TransitionTargets(s: SignalingState, local: bool, kind: SdpType)
    requires Transition(s, local, kind).Some?
    ensures kind == Answer <==> Transition(s, local, kind).value == Stable
    ensures kind == Offer && local <==> Transition(s, local, kind).value == HaveLocalOffer
    ensures s != Stable && kind == Answer ==> (s == HaveLocalOffer <==> !local)
  {
  }

  /** `setLocalDescription(d)`: on success the local description becomes `d`. */
  function SetLocal(p: PeerState, d: Description): (r: Result<PeerState, ConnectionError>)
    ensures r.Ok? <==> Transition(p.signaling, true, d.kind).Some?
    ensures r.Ok? ==> r.value.local == Some(d) && r.value.remote == p.remote
  {
    match Transition(p.signaling, true, d.kind)
    case Some(next) => Ok(PeerState(next, Some(d), p.remote))
    case None => Err(InvalidStateError)
  }

  /** `setRemoteDescription(d)`: on success the remote description becomes `d`. */
  function SetRemote(p: PeerState, d: Description): (r: Result<PeerState, ConnectionError>)
    ensures r.Ok? <==> Transition(p.signaling, false, d.kind).Some?
    ensures r.Ok? ==> r.value.remote == Some(d) && r.value.local == p.local
  {
    match Transition(p.signaling, false, d.kind)
    case Some(next) => Ok(PeerState(next, p.local, Some(d)))
    case None => Err(InvalidStateError)
  }

  /** `createOffer` of the wrapper: the connection generates an offer (its text is `sdp`),
      the wrapper sets it as local description and returns it; a rejection propagates. */
  function CreateOfferStep(p: PeerState, sdp: string): (r: (PeerState, Result<Description, ConnectionError>))
    ensures r.1.Ok? <==> p.signaling != HaveRemoteOffer
    ensures r.1.Ok? ==> (r.1.value == Description(Offer, sdp)
                         && r.0 == PeerState(HaveLocalOffer, Some(r.1.value), p.remote))
    ensures r.1.Err? ==> r.0 == p
  {
    var offer := Description(Offer, sdp);
    match SetLocal(p, offer)
    case Ok(q) => (q, Ok(offer))
    case Err(e) => (p, Err(e))
  }

  /** `createAnswer(offer)` of the wrapper, which has no guard of its own: it sets `offer`
      as remote description, asks the connection for an answer (text `sdp`; the
      connection refuses unless it is in have-remote-offer) and sets that answer as local
      description. A rejection at any of the three awaits propagates and leaves whatever
      the earlier awaits did. */
  function CreateAnswerStep(p: PeerState, offer: Description, sdp: string): (r: (PeerState, Result<Description, ConnectionError>))
    ensures r.1.Ok? <==> offer.kind == Offer && p.signaling != HaveLocalOffer
    ensures r.1.Ok? ==> (r.1.value == Description(Answer, sdp)
                         && r.0 == PeerState(Stable, Some(r.1.value), Some(offer)))
    ensures r.1.Err? && r.0 != p ==> (p.signaling == HaveLocalOffer && offer.kind == Answer
                                      && r.0 == PeerState(Stable, p.local, Some(offer)))
  {
    match SetRemote(p, offer)
    case Err(e) => (p, Err(e))
    case Ok(q) =>
      if q.signaling != HaveRemoteOffer then (q, Err(InvalidStateError))
      else
        var answer := Description(Answer, sdp);
        match SetLocal(q, answer)
        case Ok(q') => (q', Ok(answer))
        case Err(e) => (q, Err(e))
  }

  /** `setRemoteAnswer(ans)` of the wrapper: applies `ans` only in have-local-offer, catches
      and logs a failure, and otherwise logs and changes nothing. */
  function SetRemoteAnswerStep(p: PeerState, ans: Description): (r: (PeerState, AnswerLog))
    ensures r.1 == Applied <==> p.signaling == HaveLocalOffer && ans.kind == Answer
    ensures r.1 == Applied ==> r.0 == PeerState(Stable, p.local, Some(ans))
    ensures r.1 != Applied ==> r.0 == p
    ensures r.1 == SkippedStable <==> p.signaling == Stable
    ensures r.1 == UnexpectedState <==> p.signaling == HaveRemoteOffer
  {
    match p.signaling
    case HaveLocalOffer =>
      (match SetRemote(p, ans)
       case Ok(q) => (q, Applied)
       case Err(_) => (p, ApplyFailed))
    case Stable => (p, SkippedStable)
    case HaveRemoteOffer => (p, UnexpectedState)
  }

  /** A duplicate delivery of an answer changes nothing: after a successful
      `setRemoteAnswer` the connection is stable and a second call, with any payload,
      is skipped. */
  lemma SetRemoteAnswerIdempotent(p: PeerState, ans: Description, again: Description)
    requires SetRemoteAnswerStep(p, ans).1 == Applied
    ensures SetRemoteAnswerStep(SetRemoteAnswerStep(p, ans).0, again)
            == (SetRemoteAnswerStep(p, ans).0, SkippedStable)
  {
  }

  /** The offer/answer round trip: A creates an offer, B answers it, A applies the answer.
      Both end stable, A's local description and B's remote description are the offer that
      travelled, and A's remote description is B's answer. */
  lemma RoundTrip(a: PeerState, b: PeerState, offerSdp: string, answerSdp: string)
    requires a.signaling == Stable && b.signaling == Stable
    ensures var (a1, offer) := CreateOfferStep(a, offerSdp);
            offer.Ok? &&
            var (b1, ans) := CreateAnswerStep(b, offer.value, answerSdp);
            ans.Ok? &&
            var (a2, log) := SetRemoteAnswerStep(a1, ans.value);
            && log == Applied
            && a2.signaling == Stable && b1.signaling == Stable
            && a2.local == Some(offer.value) && b1.remote == Some(offer.value)
            && a2.remote == b1.local == Some(ans.value)
  {
  }

  /** Glare: in the state machine of section 3.2 of RFC 8829, which has no implicit
      rollback, an offer reaching a connection that has an outstanding offer of its own is
      refused and leaves that connection as it was; no answer is produced. */
  lemma GlareIsRefused(p: PeerState, offer: Description, sdp: string)
    requires p.signaling == HaveLocalOffer && offer.kind == Offer
    ensures CreateAnswerStep(p, offer, sdp) == (p, Err(InvalidStateError))
  {
  }
}
