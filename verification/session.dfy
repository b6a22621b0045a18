/**
 * The client/host session of src/App.js: the component's refs and state
 * held in one object, and the handlers for the relay's events, the user's
 * actions and the peer connection's callbacks, each processed against the
 * current state one at a time.
 */
module Session {
  import opened Wrappers
  import opened Negotiation
  import opened Control
  import RoomCode

  datatype View = Dashboard | SourceSelect | Waiting | EnterCode | Active

  datatype ReadyState = Connecting | Open | Closing | ChannelClosed

  /** The `control` data channel, as far as the session inspects it. */
  datatype DataChannel = DataChannel(readyState: ReadyState)

  /** What the session emits to the signaling relay. */
  datatype RelayMessage =
    | JoinRoom(room: string)
    | LeaveRoom(room: string)
    | OfferMsg(room: string, offer: Description)
    | AnswerMsg(room: string, answer: Description)
    | CandidateMsg(room: string, candidate: Candidate)

  /** A snapshot of every field of a `Session`. */
  datatype SessionState = SessionState(
    view: View,
    role: Option<Role>,
    roomId: string,
    connectionCode: string,
    inputCode: string,
    queue: seq<Candidate>,
    peer: Option<PeerConnection>,
    channel: Option<DataChannel>,
    timer: bool,
    offerRoom: Option<string>,
    outbox: seq<RelayMessage>)

  const Initial := SessionState(Dashboard, None, "", "", "", [], None, None, false, None, [])

  /** The drain's guard (src/App.js:82-83): a peer exists, is open and has a remote description. */
  predicate Drainable(peer: Option<PeerConnection>) {
    peer.Some? && peer.value.AcceptsCandidates()
  }

  /** No candidate is left waiting once the peer could take it. */
  predicate QueueSettled(s: SessionState) {
    Drainable(s.peer) ==> s.queue == []
  }

  /** `processCandidateQueue` (src/App.js:81-89) as a transition of the snapshot. */
  function Drained(s: SessionState): (t: SessionState)
    ensures QueueSettled(t)
    ensures t == s.(peer := t.peer, queue := t.queue) && t.peer.Some? == s.peer.Some?
    ensures |t.queue| <= |s.queue|
  {
    if Drainable(s.peer) then s.(peer := Some(ApplyAll(s.peer.value, s.queue)), queue := [])
    else s
  }

  /**
   * The drain either leaves the state untouched (no open peer with a remote
   * description) or empties the queue, giving the peer exactly the
   * well-formed queued candidates once each in arrival order, and keeping
   * its negotiation state.
   */
  lemma {:induction false} DrainedEffect(s: SessionState)
    ensures !Drainable(s.peer) ==> Drained(s) == s
    ensures Drainable(s.peer) ==>
      var p := s.peer.value;
      Drained(s).queue == [] && Drained(s).peer == Some(p.(applied := p.applied + Accepted(s.queue)))
      && Drained(s) == s.(peer := Drained(s).peer, queue := [])
    ensures QueueSettled(Drained(s))
  {
    if Drainable(s.peer) {
      ApplyAllInOrder(s.peer.value, s.queue);
    }
  }

  /**
   * Candidates that arrived before the offer: once the offer is answered the
   * peer holds exactly the well-formed ones, each once and in arrival order,
   * after those it already had, and none remains queued.
   */
  lemma {:induction false} EarlyCandidatesReplayedAfterOffer(s: SessionState, offer: RemoteSdp)
    requires s.peer.None? || !s.peer.value.IsClosed()
    requires offer.wellFormed
    ensures
      var p := if s.peer.Some? then s.peer.value else NewPeer();
      AnswerOffer(p, offer).Ok?
      && var t := Drained(s.(peer := Some(AnswerOffer(p, offer).value)));
      t.queue == [] && t.peer.Some? && t.peer.value.applied == p.applied + Accepted(s.queue)
      && t.peer.value.signaling == Stable && t.peer.value.current == Some(Offer(offer.text))
  {
    var p := if s.peer.Some? then s.peer.value else NewPeer();
    DrainedEffect(s.(peer := Some(AnswerOffer(p, offer).value)));
  }

  /**
   * `createPeerConnection` (src/App.js:224-226) as a transition of the
   * snapshot. Closing the old peer also closes the data channel it carried.
   * The session still holds that channel, which no longer reads as open, so
   * nothing is sent over it. A fresh peer takes the old one's place.
   */
  function PeerReplaced(s: SessionState): (t: SessionState)
    ensures t.peer == Some(NewPeer()) && t.channel.Some? == s.channel.Some?
    ensures s.peer.Some? && s.channel.Some? ==> t.channel.value.readyState == ChannelClosed
    ensures s.peer.None? ==> t.channel == s.channel
    ensures t == s.(peer := t.peer, channel := t.channel)
  {
    var channel := if s.peer.Some? && s.channel.Some? then Some(DataChannel(ChannelClosed)) else s.channel;
    s.(peer := Some(NewPeer()), channel := channel)
  }

  /** `cleanupConnection` (src/App.js:59-79) as a transition of the snapshot. */
  function TornDown(s: SessionState): (t: SessionState)
    ensures !t.timer && t.channel.None? && t.peer.None? && t.queue == []
    ensures t.roomId == "" && t.role.None? && t.view == Dashboard
    ensures t.connectionCode == "" && t.inputCode == ""
    ensures t.outbox == s.outbox && t.offerRoom == s.offerRoom
    ensures QueueSettled(t)
  {
    s.(view := Dashboard, role := None, roomId := "", connectionCode := "", inputCode := "",
       queue := [], peer := None, channel := None, timer := false)
  }

  /** Tearing down twice leaves the same state as tearing down once. */
  lemma TearDownIdempotent(s: SessionState)
    ensures TornDown(TornDown(s)) == TornDown(s)
  {
  }

  class Session {
    var view: View
    var role: Option<Role>
    var roomId: string                 // roomIdRef
    var connectionCode: string
    var inputCode: string
    var queue: seq<Candidate>          // candidateQueueRef
    var peer: Option<PeerConnection>   // peerRef
    var channel: Option<DataChannel>   // dataChannelRef
    var timer: bool                    // loopRef holds an interval
    var offerRoom: Option<string>      // the room captured by the installed `user-connected` handler
    var outbox: seq<RelayMessage>      // everything emitted to the relay, oldest first

    function State(): SessionState
      reads this
    {
      SessionState(view, role, roomId, connectionCode, inputCode, queue, peer, channel, timer, offerRoom, outbox)
    }

    ghost predicate Valid()
      reads this
    {
      QueueSettled(State())
    }

    /** The initial `useState` / `useRef` values (src/App.js:25-41). */
    constructor ()
      ensures Valid() && State() == Initial
    {
      view, role, roomId, connectionCode, inputCode := Dashboard, None, "", "", "";
      queue, peer, channel, timer, offerRoom, outbox := [], None, None, false, None, [];
    }

    /** `createPeerConnection` (src/App.js:224-232): any previous peer is closed and replaced by a fresh one. */
    method CreatePeerConnection()
      requires Valid()
      modifies this
      ensures State() == PeerReplaced(old(State()))
      ensures Valid()
    {
      if peer.Some? && channel.Some? {
        channel := Some(DataChannel(ChannelClosed));
      }
      peer := Some(NewPeer());
    }

    /** The peer's `onicecandidate` (src/App.js:227-231): forwarded with the room id of the moment. */
    method OnLocalCandidate(c: Option<Candidate>)
      requires Valid()
      modifies this
      ensures c.None? ==> State() == old(State())
      ensures c.Some? ==> State() == old(State()).(outbox := old(outbox) + [CandidateMsg(old(roomId), c.value)])
      ensures Valid()
    {
      if c.Some? {
        outbox := outbox + [CandidateMsg(roomId, c.value)];
      }
    }

    /**
     * `processCandidateQueue` (src/App.js:81-89): shift candidates off the
     * head of the queue and apply each, ignoring individual failures.
     */
    method ProcessCandidateQueue()
      modifies this
      ensures State() == Drained(old(State()))
    {
      if peer.None? || peer.value.IsClosed() {
        return;
      }
      if peer.value.RemoteDescription().None? {
        return;
      }
      ghost var p0, q0 := peer.value, queue;
      while |queue| > 0
        invariant peer.Some? && ApplyAll(peer.value, queue) == ApplyAll(p0, q0)
        invariant State() == old(State()).(peer := peer, queue := queue)
        decreases |queue|
      {
        var candidate := queue[0];
        queue := queue[1..];
        peer := Some(TryAddCandidate(peer.value, candidate));
      }
    }

    /**
     * The relay's `ice-candidate` (src/App.js:94-99): ignored without an open
     * peer, applied at once when a remote description exists, queued at the
     * tail otherwise.
     */
    method OnIceCandidate(c: Candidate)
      requires Valid()
      modifies this
      ensures old(peer).None? || old(peer).value.IsClosed() ==> State() == old(State())
      ensures Drainable(old(peer)) ==> State() == old(State()).(peer := Some(TryAddCandidate(old(peer).value, c)))
      ensures old(peer).Some? && !old(peer).value.IsClosed() && old(peer).value.RemoteDescription().None?
        ==> State() == old(State()).(queue := old(queue) + [c])
      ensures Valid()
    {
      if peer.None? || peer.value.IsClosed() {
        return;
      }
      if peer.value.RemoteDescription().Some? {
        peer := Some(TryAddCandidate(peer.value, c));
      } else {
        queue := queue + [c];
      }
    }

    /**
     * The relay's `offer` (src/App.js:100-109): create a peer if there is
     * none, take the offer (rolling back a local offer on glare), answer it,
     * drain the queue and send the answer tagged with the current room id.
     * A closed peer rejects the offer and the handler stops there; a
     * malformed offer is refused after the rollback has taken effect, and
     * the handler stops without answering.
     */
    method OnOffer(offer: RemoteSdp, answerSdp: string)
      requires Valid()
      modifies this
      ensures old(peer).Some? && old(peer).value.IsClosed() ==> State() == old(State())
      ensures old(peer).None? || !old(peer).value.IsClosed() ==>
        var p := if old(peer).Some? then old(peer).value else NewPeer();
        YieldToOffer(p).Ok?
        && (!offer.wellFormed ==> State() == old(State()).(peer := Some(YieldToOffer(p).value)))
        && (offer.wellFormed ==>
              AnswerOffer(p, offer).Ok?
              && State() == Drained(old(State()).(peer := Some(AnswerOffer(p, offer).value)))
                              .(outbox := old(outbox) + [AnswerMsg(old(roomId), Answer(answerSdp))]))
      ensures Valid()
    {
      if peer.None? {
        CreatePeerConnection();
      }
      var p := peer.value;
      match YieldToOffer(p)
      case Err(_) =>
        return;
      case Ok(yielded) =>
        match SetRemoteOffer(yielded, offer)
        case Err(_) =>
          peer := Some(yielded);
        case Ok(q) =>
          peer := Some(SetLocalAnswer(q).value);
          ProcessCandidateQueue();
          outbox := outbox + [AnswerMsg(roomId, Answer(answerSdp))];
          DrainedEffect(old(State()).(peer := Some(AnswerOffer(p, offer).value)));
    }

    /**
     * The relay's `answer` (src/App.js:110-117): ignored without an open
     * peer; taken only in `have-local-offer`, then the queue is drained and
     * the view becomes active; a malformed answer there is refused and the
     * handler stops with nothing changed. In the other open states the view
     * becomes active without looking at the answer.
     */
    method OnAnswer(answer: RemoteSdp)
      requires Valid()
      modifies this
      ensures old(peer).None? || old(peer).value.IsClosed() ==> State() == old(State())
      ensures old(peer).Some? && old(peer).value.signaling == HaveLocalOffer && !answer.wellFormed ==>
        State() == old(State())
      ensures old(peer).Some? && old(peer).value.signaling == HaveLocalOffer && answer.wellFormed ==>
        SetRemoteAnswer(old(peer).value, answer).Ok?
        && State() == Drained(old(State()).(peer := Some(SetRemoteAnswer(old(peer).value, answer).value)))
                        .(view := Active)
      ensures old(peer).Some? && old(peer).value.signaling !in {HaveLocalOffer, Closed} ==>
        State() == old(State()).(view := Active)
      ensures Valid()
    {
      if peer.None? || peer.value.IsClosed() {
        return;
      }
      if peer.value.signaling == HaveLocalOffer {
        match SetRemoteAnswer(peer.value, answer)
        case Err(_) =>
          return;
        case Ok(q) =>
          peer := Some(q);
          ProcessCandidateQueue();
          DrainedEffect(old(State()).(peer := peer));
      }
      view := Active;
    }

    /**
     * The relay's `user-connected`, as installed by `selectSource`
     * (src/App.js:205-212): with a stable or closed peer (a closed one is
     * replaced first) a local offer is set and sent to the room captured
     * when the handler was installed.
     */
    method OnUserConnected(offerSdp: string)
      requires Valid()
      modifies this
      ensures old(offerRoom).None? || old(peer).None?
              || old(peer).value.signaling in {HaveLocalOffer, HaveRemoteOffer}
        ==> State() == old(State())
      ensures old(offerRoom).Some? && old(peer).Some? && old(peer).value.signaling in {Stable, Closed} ==>
        var before := if old(peer).value.IsClosed() then PeerReplaced(old(State())) else old(State());
        SetLocalOffer(before.peer.value).Ok?
        && State() == before.(peer := Some(SetLocalOffer(before.peer.value).value),
                              outbox := old(outbox) + [OfferMsg(old(offerRoom).value, Offer(offerSdp))])
      ensures Valid()
    {
      if offerRoom.None? {
        return;
      }
      if peer.Some? && (peer.value.signaling == Stable || peer.value.signaling == Closed) {
        if peer.value.signaling == Closed {
          CreatePeerConnection();
        }
        peer := Some(SetLocalOffer(peer.value).value);
        outbox := outbox + [OfferMsg(offerRoom.value, Offer(offerSdp))];
      }
    }

    /** `handleStartHost` (src/App.js:172-177): show the source picker once the source list arrives. */
    method StartHost(sourcesListed: bool)
      requires Valid()
      modifies this
      ensures State() == if sourcesListed then old(State()).(view := SourceSelect) else old(State())
      ensures Valid()
    {
      if sourcesListed {
        view := SourceSelect;
      }
    }

    /**
     * `selectSource` (src/App.js:178-214), with `draw` the value of
     * `Math.random()`: the room code is generated and the role set first;
     * if the capture fails nothing more happens. Otherwise a fresh peer and
     * a data channel are made, the room is joined, the view waits and the
     * `user-connected` handler is (re)installed for this room.
     */
    method SelectSource(draw: real, captured: bool)
      requires Valid()
      requires 0.0 <= draw < 1.0
      modifies this
      ensures var code := RoomCode.GenerateCode(draw);
        var chosen := old(State()).(connectionCode := code, roomId := code, role := Some(Host));
        !captured ==> State() == chosen
      ensures var code := RoomCode.GenerateCode(draw);
        var chosen := old(State()).(connectionCode := code, roomId := code, role := Some(Host));
        captured ==>
          State() == chosen.(peer := Some(NewPeer()), channel := Some(DataChannel(Connecting)),
                             outbox := old(outbox) + [JoinRoom(code)], view := Waiting,
                             offerRoom := Some(code))
      ensures captured ==> RoomCode.ValidCode(roomId)
      ensures Valid()
    {
      // The source's updates, in its order, are gathered into one new state
      // and stored at once: `setConnectionCode`, `roomIdRef`, `setRole`
      // (line 180); then, once capture succeeds, `createPeerConnection`
      // (197), `dataChannelRef` (201), `join-room` (202), `setView('waiting')`
      // (203) and the `user-connected` handler with its room (204-205).
      var code := RoomCode.GenerateCode(draw);
      assert RoomCode.ValidCode(code);
      var chosen := State().(connectionCode := code, roomId := code, role := Some(Host));
      if !captured {
        SetState(chosen);
      } else {
        var created := PeerReplaced(chosen);
        var joined := created.(channel := Some(DataChannel(Connecting)), outbox := created.outbox + [JoinRoom(code)]);
        SetState(joined.(view := Waiting, offerRoom := Some(code)));
      }
    }

    /** The close buttons of the source picker and the code form (src/App.js:313, 351). */
    method Dismiss()
      requires Valid()
      modifies this
      ensures State() == old(State()).(view := Dashboard)
      ensures Valid()
    {
      view := Dashboard;
    }

    /** `handleStartClient` (src/App.js:215). */
    method StartClient()
      requires Valid()
      modifies this
      ensures State() == old(State()).(role := Some(Client), view := EnterCode)
      ensures Valid()
    {
      role, view := Some(Client), EnterCode;
    }

    /** The code field's `onChange` (src/App.js:357). */
    method TypeCode(text: string)
      requires Valid()
      modifies this
      ensures State() == old(State()).(inputCode := text)
      ensures Valid()
    {
      inputCode := text;
    }

    /**
     * `connectToHost` (src/App.js:216-223): a code that is not six
     * characters long is refused with no change; otherwise the room is set,
     * a fresh peer made (closing the old one and any channel it carried)
     * and the room joined.
     */
    method ConnectToHost() returns (accepted: bool)
      requires Valid()
      modifies this
      ensures accepted <==> RoomCode.ValidCode(old(inputCode))
      ensures !accepted ==> State() == old(State())
      ensures accepted ==>
        State() == PeerReplaced(old(State()).(connectionCode := old(inputCode), roomId := old(inputCode)))
                     .(outbox := old(outbox) + [JoinRoom(old(inputCode))])
      ensures Valid()
    {
      if !RoomCode.ValidCode(inputCode) {
        return false;
      }
      connectionCode, roomId := inputCode, inputCode;
      CreatePeerConnection();
      outbox := outbox + [JoinRoom(inputCode)];
      accepted := true;
    }

    /** The client peer's `ontrack` (src/App.js:220): the remote stream arrived. */
    method OnTrack()
      requires Valid()
      modifies this
      ensures State() == old(State()).(view := Active)
      ensures Valid()
    {
      view := Active;
    }

    /** The client peer's `ondatachannel` (src/App.js:221). */
    method OnDataChannel(dc: DataChannel)
      requires Valid()
      modifies this
      ensures State() == old(State()).(channel := Some(dc))
      ensures Valid()
    {
      channel := Some(dc);
    }

    /** The active client's effect (src/App.js:155, 160, 166): start the pointer-sampling timer. */
    method StartSampling()
      requires Valid()
      modifies this
      ensures State() == if old(view) == Active && old(role) == Some(Client)
                         then old(State()).(timer := true) else old(State())
      ensures Valid()
    {
      if view == Active && role == Some(Client) {
        timer := true;
      }
    }

    /** `cleanupConnection` (src/App.js:59-79). */
    method Cleanup()
      modifies this
      ensures State() == TornDown(old(State()))
      ensures Valid()
    {
      // `TornDown` gathers the source's updates, stored here at once. In the
      // source's order: the timer is stopped (line 60), the channel closed and
      // dropped (66), the peer closed and dropped (67-70), the queue emptied
      // (71), the codes and role reset (72), the room id cleared (73) and the
      // view set to the dashboard (78). Closing the channel and the peer is
      // not observable beyond dropping them.
      SetState(TornDown(State()));
    }

    /** Makes `t` the session's state. */
    method SetState(t: SessionState)
      modifies this
      ensures State() == t
    {
      view, role, roomId, connectionCode, inputCode := t.view, t.role, t.roomId, t.connectionCode, t.inputCode;
      queue, peer, channel, timer, offerRoom, outbox := t.queue, t.peer, t.channel, t.timer, t.offerRoom, t.outbox;
    }

    /** The relay's `user-disconnected` (src/App.js:118). */
    method OnUserDisconnected()
      modifies this
      ensures State() == TornDown(old(State()))
      ensures Valid()
    {
      Cleanup();
    }

    /** `stopSharing` (src/App.js:285-288): leave the room, then tear down. */
    method StopSharing()
      modifies this
      ensures State() == TornDown(old(State()).(outbox := old(outbox) + [LeaveRoom(old(roomId))]))
      ensures Valid()
    {
      outbox := outbox + [LeaveRoom(roomId)];
      Cleanup();
    }
  }
}
