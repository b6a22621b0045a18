/**
 * The peer connection as the session sees it: its signaling state (the
 * offer/answer state machine of section 3.2 of RFC 8829), its remote
 * description and the ICE candidates it has accepted. Every operation is a
 * pure transition that the browser may reject; rejections are `Err`.
 */
module Negotiation {
  import opened Wrappers

  datatype SignalingState = Stable | HaveLocalOffer | HaveRemoteOffer | Closed

  /** A session description; the SDP body is an opaque blob. */
  datatype Description = Offer(sdp: string) | Answer(sdp: string)

  /**
   * A session description received from the relay; `wellFormed` is false
   * when `setRemoteDescription` would reject its SDP body.
   */
  datatype RemoteSdp = RemoteSdp(text: string, wellFormed: bool)

  /** An ICE candidate; `wellFormed` is false when `addIceCandidate` would throw on it. */
  datatype Candidate = Candidate(line: string, wellFormed: bool)

  datatype PeerConnection = PeerConnection(
    signaling: SignalingState,
    current: Option<Description>,   // currentRemoteDescription
    pending: Option<Description>,   // pendingRemoteDescription
    applied: seq<Candidate>)        // candidates accepted, in the order accepted
  {
    predicate IsClosed() { signaling == Closed }

    /** The `remoteDescription` attribute: the pending one if any, else the current one. */
    function RemoteDescription(): Option<Description> {
      if pending.Some? then pending else current
    }

    /** What the candidate-queue drain requires of the peer (src/App.js:82-83). */
    predicate AcceptsCandidates() { !IsClosed() && RemoteDescription().Some? }
  }

  /** A freshly constructed `RTCPeerConnection`. */
  function NewPeer(): (p: PeerConnection)
    ensures p.signaling == Stable && p.RemoteDescription().None? && p.applied == []
  {
    PeerConnection(Stable, None, None, [])
  }

  /** `setLocalDescription(offer)`. */
  function SetLocalOffer(p: PeerConnection): Result<PeerConnection> {
    if p.signaling == Stable || p.signaling == HaveLocalOffer
    then Ok(p.(signaling := HaveLocalOffer))
    else Err(InvalidState)
  }

  /** `setRemoteDescription(offer)`: refused in the wrong state or for a malformed body. */
  function SetRemoteOffer(p: PeerConnection, sdp: RemoteSdp): Result<PeerConnection> {
    if !(p.signaling == Stable || p.signaling == HaveRemoteOffer) then Err(InvalidState)
    else if !sdp.wellFormed then Err(InvalidDescription)
    else Ok(p.(signaling := HaveRemoteOffer, pending := Some(Offer(sdp.text))))
  }

  /** `setLocalDescription(answer)`: the pending remote offer becomes current. */
  function SetLocalAnswer(p: PeerConnection): Result<PeerConnection> {
    if p.signaling == HaveRemoteOffer
    then Ok(p.(signaling := Stable, current := p.pending, pending := None))
    else Err(InvalidState)
  }

  /** `setRemoteDescription(answer)`: refused in the wrong state or for a malformed body. */
  function SetRemoteAnswer(p: PeerConnection, sdp: RemoteSdp): Result<PeerConnection> {
    if p.signaling != HaveLocalOffer then Err(InvalidState)
    else if !sdp.wellFormed then Err(InvalidDescription)
    else Ok(p.(signaling := Stable, current := Some(Answer(sdp.text)), pending := None))
  }

  /** `setLocalDescription({type: "rollback"})` (section 4.1.10.2 of RFC 8829). */
  function Rollback(p: PeerConnection): Result<PeerConnection> {
    if p.signaling == HaveLocalOffer then Ok(p.(signaling := Stable))
    else if p.signaling == HaveRemoteOffer then Ok(p.(signaling := Stable, pending := None))
    else Err(InvalidState)
  }

  /** `addIceCandidate`: needs an open peer with a remote description and a well-formed candidate. */
  function AddCandidate(p: PeerConnection, c: Candidate): Result<PeerConnection> {
    if !p.AcceptsCandidates() then Err(InvalidState)
    else if !c.wellFormed then Err(InvalidCandidate)
    else Ok(p.(applied := p.applied + [c]))
  }

  /** `addIceCandidate` inside a `try` whose `catch` only logs: a rejection leaves the peer as it was. */
  function TryAddCandidate(p: PeerConnection, c: Candidate): PeerConnection {
    match AddCandidate(p, c)
    case Ok(q) => q
    case Err(_) => p
  }

  /**
   * The first half of the incoming-offer step of src/App.js:101-102: outside
   * `stable` (glare) the local offer is rolled back. The rollback is issued
   * alongside the remote offer and takes effect even when the offer is then
   * refused. Every open peer ends `stable` with its candidates and its current
   * remote description kept.
   */
  function YieldToOffer(p: PeerConnection): (r: Result<PeerConnection>)
    ensures r.Ok? <==> !p.IsClosed()
    ensures r.Ok? ==> r.value.signaling == Stable && r.value.current == p.current && r.value.applied == p.applied
  {
    if p.signaling != Stable then Rollback(p) else Ok(p)
  }

  /**
   * The incoming-offer step of src/App.js:101-103: yield to the offer, then
   * apply it. It succeeds exactly for an open peer and a well-formed offer,
   * and leaves the peer in `have-remote-offer` with the offer as remote
   * description and its current description and candidates kept.
   */
  function ApplyOffer(p: PeerConnection, sdp: RemoteSdp): (r: Result<PeerConnection>)
    ensures r.Ok? <==> !p.IsClosed() && sdp.wellFormed
    ensures r.Ok? ==>
      r.value.signaling == HaveRemoteOffer && r.value.RemoteDescription() == Some(Offer(sdp.text))
      && r.value.current == p.current && r.value.applied == p.applied
  {
    match YieldToOffer(p)
    case Ok(q) => SetRemoteOffer(q, sdp)
    case Err(e) => Err(e)
  }

  /**
   * src/App.js:101-105: take the incoming offer, then set the local answer.
   * This succeeds exactly for an open peer and a well-formed offer, and the
   * peer is then `stable` with the offer as its current remote description,
   * no pending one, the same candidates, and it accepts candidates.
   */
  function AnswerOffer(p: PeerConnection, sdp: RemoteSdp): (r: Result<PeerConnection>)
    ensures r.Ok? <==> !p.IsClosed() && sdp.wellFormed
    ensures r.Ok? ==>
      r.value.signaling == Stable && r.value.current == Some(Offer(sdp.text)) && r.value.pending.None?
      && r.value.applied == p.applied && r.value.AcceptsCandidates()
  {
    match ApplyOffer(p, sdp)
    case Ok(q) => SetLocalAnswer(q)
    case Err(e) => Err(e)
  }

  /** The candidates of `q` that the peer accepts, in queue order. */
  function Accepted(q: seq<Candidate>): (r: seq<Candidate>)
    ensures |r| <= |q|
    ensures forall c :: c in r ==> c in q && c.wellFormed
  {
    if q == [] then [] else (if q[0].wellFormed then [q[0]] else []) + Accepted(q[1..])
  }

  /** Applies the candidates of `q` one by one from the head, continuing past rejections. */
  function ApplyAll(p: PeerConnection, q: seq<Candidate>): (r: PeerConnection)
    ensures r.signaling == p.signaling && r.current == p.current && r.pending == p.pending
    ensures |p.applied| <= |r.applied| <= |p.applied| + |q| && r.applied[..|p.applied|] == p.applied
    decreases |q|
  {
    if q == [] then p else ApplyAll(TryAddCandidate(p, q[0]), q[1..])
  }

  /**
   * Draining into a peer that accepts candidates adds exactly the well-formed
   * queued candidates, each once, in arrival order, and changes nothing else.
   */
  lemma {:induction false} ApplyAllInOrder(p: PeerConnection, q: seq<Candidate>)
    requires p.AcceptsCandidates()
    ensures ApplyAll(p, q) == p.(applied := p.applied + Accepted(q))
    decreases |q|
  {
    if q != [] {
      var h := if q[0].wellFormed then [q[0]] else [];
      var p' := TryAddCandidate(p, q[0]);
      assert p' == p.(applied := p.applied + h);
      ApplyAllInOrder(p', q[1..]);
      assert Accepted(q) == h + Accepted(q[1..]);
      assert p.applied + h + Accepted(q[1..]) == p.applied + Accepted(q);
    }
  }

  /** A peer that does not accept candidates is left exactly as it was. */
  lemma {:induction false} ApplyAllRejected(p: PeerConnection, q: seq<Candidate>)
    requires !p.AcceptsCandidates()
    ensures ApplyAll(p, q) == p
    decreases |q|
  {
    if q != [] {
      ApplyAllRejected(p, q[1..]);
    }
  }

  /** Every well-formed candidate in the queue is among the accepted ones, so none is lost. */
  lemma {:induction false} AcceptedKeepsWellFormed(q: seq<Candidate>, i: nat)
    requires i < |q| && q[i].wellFormed
    ensures q[i] in Accepted(q)
    decreases |q|
  {
    if i > 0 {
      AcceptedKeepsWellFormed(q[1..], i - 1);
    }
  }

  /** `Accepted` distributes over concatenation: a queue can be drained in pieces. */
  lemma {:induction false} AcceptedAppend(a: seq<Candidate>, b: seq<Candidate>)
    ensures Accepted(a + b) == Accepted(a) + Accepted(b)
    decreases |a|
  {
    if a == [] {
      assert a + b == b;
    } else {
      assert (a + b)[0] == a[0] && (a + b)[1..] == a[1..] + b;
      AcceptedAppend(a[1..], b);
      var h := if a[0].wellFormed then [a[0]] else [];
      calc {
        Accepted(a + b);
        h + Accepted(a[1..] + b);
        h + (Accepted(a[1..]) + Accepted(b));
        (h + Accepted(a[1..])) + Accepted(b);
      }
    }
  }

  /**
   * An answer is only ever taken in `have-local-offer` (stale or duplicate
   * answers are rejected), and only when well-formed; a refused answer
   * leaves the local offer outstanding.
   */
  lemma AnswerOnlyAfterLocalOffer(p: PeerConnection, sdp: RemoteSdp)
    ensures SetRemoteAnswer(p, sdp).Ok? <==> p.signaling == HaveLocalOffer && sdp.wellFormed
    ensures SetRemoteAnswer(p, sdp).Ok? ==>
      SetRemoteAnswer(p, sdp).value.signaling == Stable
      && SetRemoteAnswer(p, sdp).value.RemoteDescription() == Some(Answer(sdp.text))
  {
  }

  /**
   * One complete offer/answer exchange between two stable peers: both end
   * `stable`, each holding the other's description as its remote one.
   */
  lemma {:induction false} ExchangeCompletes(offerer: PeerConnection, answerer: PeerConnection, o: RemoteSdp, a: RemoteSdp)
    requires offerer.signaling == Stable && answerer.signaling == Stable
    requires o.wellFormed && a.wellFormed
    ensures SetLocalOffer(offerer).Ok?
    ensures ApplyOffer(answerer, o).Ok? && SetLocalAnswer(ApplyOffer(answerer, o).value).Ok?
    ensures SetRemoteAnswer(SetLocalOffer(offerer).value, a).Ok?
    ensures
      var done := SetLocalAnswer(ApplyOffer(answerer, o).value).value;
      done.signaling == Stable && done.RemoteDescription() == Some(Offer(o.text))
    ensures
      var done := SetRemoteAnswer(SetLocalOffer(offerer).value, a).value;
      done.signaling == Stable && done.RemoteDescription() == Some(Answer(a.text))
  {
  }

  /**
   * Glare: a peer that has an offer outstanding and receives the other
   * side's offer yields to it; after answering it is `stable` with the
   * incoming offer as its remote description, and any answer that arrives
   * afterwards is rejected as stale.
   */
  lemma {:induction false} GlareYields(p: PeerConnection, theirs: RemoteSdp, lateAnswer: RemoteSdp)
    requires p.signaling == HaveLocalOffer && theirs.wellFormed
    ensures ApplyOffer(p, theirs).Ok?
    ensures SetLocalAnswer(ApplyOffer(p, theirs).value).Ok?
    ensures
      var done := SetLocalAnswer(ApplyOffer(p, theirs).value).value;
      done.signaling == Stable && done.current == Some(Offer(theirs.text))
      && SetRemoteAnswer(done, lateAnswer).Err?
  {
  }

  /**
   * Glare with a malformed incoming offer: the offer is refused, but the
   * local offer has been rolled back all the same, so the peer is `stable`
   * with nothing outstanding and a later answer to the abandoned offer is
   * rejected.
   */
  lemma {:induction false} GlareWithBadOfferAbandonsLocalOffer(p: PeerConnection, theirs: RemoteSdp, lateAnswer: RemoteSdp)
    requires p.signaling == HaveLocalOffer && !theirs.wellFormed
    ensures ApplyOffer(p, theirs).Err? && YieldToOffer(p).Ok?
    ensures
      var q := YieldToOffer(p).value;
      q.signaling == Stable && q.RemoteDescription() == p.RemoteDescription()
      && SetRemoteAnswer(q, lateAnswer).Err?
  {
  }
}
