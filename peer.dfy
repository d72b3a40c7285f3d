/** The peer wrapper of client/src/providers/Peer.jsx: one RTCPeerConnection per participant
    and the five operations the consultation room uses. The connection itself is abstracted
    to its JSEP signalling state and descriptions (module Jsep), the media tracks that have
    senders, and the remote stream the UI renders. */
module PeerProvider {
  import opened Wrappers
  import opened Jsep

  datatype Track = Track(id: string)

  datatype MediaStream = MediaStream(id: string, tracks: seq<Track>)

  /** No track occurs twice in `tracks`. */
  predicate Distinct(tracks: seq<Track>) {
    forall i, j :: 0 <= i < j < |tracks| ==> tracks[i] != tracks[j]
  }

  /** The senders after `addTrack` is called on each of `tracks` in order, and whether every
      call succeeded. `addTrack` throws InvalidAccessError for a track that already has a
      sender; the throw ends the loop, so later tracks are not added. */
  function AddTracks(senders: seq<Track>, tracks: seq<Track>): (r: (seq<Track>, bool))
    ensures senders <= r.0 && |r.0| <= |senders| + |tracks|
    ensures r.0 == senders + tracks[..|r.0| - |senders|]
    ensures r.1 <==> r.0 == senders + tracks
    decreases |tracks|
  {
    if tracks == [] then (senders, true)
    else if tracks[0] in senders then (senders, false)
    else
      var r := AddTracks(senders + [tracks[0]], tracks[1..]);
      assert senders + [tracks[0]] + tracks[1..][..|r.0| - |senders| - 1]
          == senders + tracks[..|r.0| - |senders|];
      assert r.0 == senders + tracks ==> r.1 by {
        if r.0 == senders + tracks {
          assert tracks == [tracks[0]] + tracks[1..];
          assert r.0 == senders + [tracks[0]] + tracks[1..];
        }
      }
      r
  }

  /** A stream whose tracks are distinct and none of which is sent yet is added completely:
      every track exactly once, in stream order. */
  lemma {:induction false} AddTracksFresh(senders: seq<Track>, tracks: seq<Track>)
    requires Distinct(tracks)
    requires forall i :: 0 <= i < |tracks| ==> tracks[i] !in senders
    ensures AddTracks(senders, tracks) == (senders + tracks, true)
    decreases |tracks|
  {
    if tracks != [] {
      assert forall i :: 0 <= i < |tracks[1..]| ==> tracks[1..][i] !in senders + [tracks[0]] by {
        forall i | 0 <= i < |tracks[1..]| ensures tracks[1..][i] !in senders + [tracks[0]] {
          assert tracks[1..][i] == tracks[i + 1];
        }
      }
      AddTracksFresh(senders + [tracks[0]], tracks[1..]);
      assert tracks == [tracks[0]] + tracks[1..];
    }
  }

  /** The remote stream after a `track` event carrying `streams`: the event's first stream,
      or undefined when the event carries none. */
  function LatestStream(streams: seq<MediaStream>): (r: Option<MediaStream>)
    ensures r.Some? <==> |streams| > 0
    ensures r.Some? ==> r.value == streams[0]
  {
    if |streams| > 0 then Some(streams[0]) else None
  }

  class Peer {
    var signaling: SignalingState
    var localDescription: Option<Description>
    var remoteDescription: Option<Description>
    /** The tracks that have an RTCRtpSender, in the order they were added. */
    var senders: seq<Track>
    /** The `remoteStream` state of the provider. */
    var remoteStream: Option<MediaStream>

    function State(): PeerState
      reads this
    {
      PeerState(signaling, localDescription, remoteDescription)
    }

    constructor ()
      ensures State() == Initial && senders == [] && remoteStream == None
    {
      signaling, localDescription, remoteDescription := Stable, None, None;
      senders, remoteStream := [], None;
    }

    // The RTCPeerConnection operations the wrapper awaits.

    method SetLocalDescription(d: Description) returns (r: Result<(), ConnectionError>)
      modifies this
      ensures r.Ok? <==> SetLocal(old(State()), d).Ok?
      ensures State() == if r.Ok? then SetLocal(old(State()), d).value else old(State())
      ensures senders == old(senders) && remoteStream == old(remoteStream)
    {
      var next := Transition(signaling, true, d.kind);
      if next.None? {
        return Err(InvalidStateError);
      }
      signaling, localDescription := next.value, Some(d);
      r := Ok(());
    }

    method SetRemoteDescription(d: Description) returns (r: Result<(), ConnectionError>)
      modifies this
      ensures r.Ok? <==> SetRemote(old(State()), d).Ok?
      ensures State() == if r.Ok? then SetRemote(old(State()), d).value else old(State())
      ensures senders == old(senders) && remoteStream == old(remoteStream)
    {
      var next := Transition(signaling, false, d.kind);
      if next.None? {
        return Err(InvalidStateError);
      }
      signaling, remoteDescription := next.value, Some(d);
      r := Ok(());
    }

    /** `peer.createAnswer()`: the connection generates an answer with text `sdp`; it
        refuses outside have-remote-offer. */
    method GenerateAnswer(sdp: string) returns (r: Result<Description, ConnectionError>)
      ensures r.Ok? <==> signaling == HaveRemoteOffer
      ensures r.Ok? ==> r.value == Description(Answer, sdp)
    {
      if signaling != HaveRemoteOffer {
        return Err(InvalidStateError);
      }
      r := Ok(Description(Answer, sdp));
    }

    /** `peer.addTrack(track, stream)`: fails for a track that already has a sender. */
    method AddTrack(track: Track) returns (ok: bool)
      modifies this
      ensures ok <==> track !in old(senders)
      ensures senders == if ok then old(senders) + [track] else old(senders)
      ensures State() == old(State()) && remoteStream == old(remoteStream)
    {
      ok := track !in senders;
      if ok {
        senders := senders + [track];
      }
    }

    // The wrapper's own operations.

    /** `createOffer`; `sdp` is the text the connection generates. */
    method CreateOffer(sdp: string) returns (r: Result<Description, ConnectionError>)
      modifies this
      ensures (State(), r) == CreateOfferStep(old(State()), sdp)
      ensures senders == old(senders) && remoteStream == old(remoteStream)
    {
      var offer := Description(Offer, sdp);
      var local := SetLocalDescription(offer);
      if local.Err? {
        return Err(InvalidStateError);
      }
      r := Ok(offer);
    }

    /** `createAnswer(offer)`; `sdp` is the text the connection generates. */
    method CreateAnswer(offer: Description, sdp: string) returns (r: Result<Description, ConnectionError>)
      modifies this
      ensures (State(), r) == CreateAnswerStep(old(State()), offer, sdp)
      ensures senders == old(senders) && remoteStream == old(remoteStream)
    {
      var remote := SetRemoteDescription(offer);
      if remote.Err? {
        return Err(InvalidStateError);
      }
      var answer := GenerateAnswer(sdp);
      if answer.Err? {
        return Err(InvalidStateError);
      }
      var local := SetLocalDescription(answer.value);
      if local.Err? {
        return Err(InvalidStateError);
      }
      r := Ok(answer.value);
    }

    /** `setRemoteAnswer(ans)`: the returned log says which branch ran; nothing is thrown. */
    method SetRemoteAnswer(ans: Description) returns (log: AnswerLog)
      modifies this
      ensures (State(), log) == SetRemoteAnswerStep(old(State()), ans)
      ensures senders == old(senders) && remoteStream == old(remoteStream)
    {
      if signaling == HaveLocalOffer {
        var applied := SetRemoteDescription(ans);
        log := if applied.Ok? then Applied else ApplyFailed;
      } else if signaling == Stable {
        log := SkippedStable;
      } else {
        log := UnexpectedState;
      }
    }

    /** `sendStream(stream)`: `addTrack` for every track of the stream, in order. `ok` is
        false when a throwing `addTrack` rejected the returned promise. */
    method SendStream(stream: MediaStream) returns (ok: bool)
      modifies this
      ensures (senders, ok) == AddTracks(old(senders), stream.tracks)
      ensures State() == old(State()) && remoteStream == old(remoteStream)
    {
      var tracks := stream.tracks;
      var i := 0;
      while i < |tracks|
        invariant 0 <= i <= |tracks|
        invariant AddTracks(old(senders), tracks) == AddTracks(senders, tracks[i..])
        invariant State() == old(State()) && remoteStream == old(remoteStream)
      {
        var added := AddTrack(tracks[i]);
        if !added {
          return false;
        }
        assert tracks[i..] == [tracks[i]] + tracks[i + 1..];
        i := i + 1;
      }
      ok := true;
    }

    /** `handleTrackEvent`: the latest `track` event's first stream replaces the remote one. */
    method HandleTrackEvent(streams: seq<MediaStream>)
      modifies this
      ensures remoteStream == LatestStream(streams)
      ensures State() == old(State()) && senders == old(senders)
    {
      remoteStream := if |streams| > 0 then Some(streams[0]) else None;
    }
  }
}
