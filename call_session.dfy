/** The call session of the current client (video-client/src/hooks/useCall.js):
    the call status, the incoming offer, the backlog of ICE candidates that
    arrive before a peer exists, starting a call as caller or answerer,
    relaying the peer's signals to the server, cleanup, hangup and the
    mute / video-off toggles.

    React state setters take effect immediately here (each handler sees the
    state the previous one left). Socket emissions are recorded in `emitted`,
    and the messages handed to the optional `onStatus` / `onError` callbacks
    in `notices`. */
module CallSession {
  import opened Common
  import opened Media
  import opened PeerConnection

  /** What the session emits to the server. No sender id is sent: the server
      stamps it. */
  datatype ClientMsg =
    | CallUserMsg(toUserId: Option<UserId>, signalData: SignalData)
    | AnswerCallMsg(toUserId: Option<UserId>, signalData: SignalData)

  /** The `signal` listener `startCall` wires on the new peer: as caller, to the
      call target; as answerer, to the callee current when the call started. */
  datatype Route = ToCallUser(target: Option<UserId>) | ToAnswerCall(callee: Option<UserId>)

  /** One call of `onStatus` or `onError`. */
  datatype Notice = StatusNotice(status: string) | ErrorNotice(message: string)

  const InCallStatus: string := "in-call"
  const LocalStreamFailed: string := "Failed to get local stream"
  const NoLocalStreamAvailable: string := "No local stream available"

  /** What the caller-supplied `getLocalStream` does: resolve with a stream,
      resolve with nothing, or reject. */
  datatype LocalOutcome = Supplied(stream: MediaStream) | NoStream | Threw

  /** How `startCall` ends: a peer was built, it returned early for want of a
      stream, or it rejected (the audio-only fallback failed, or there was
      no local element to attach it to). */
  datatype StartResult = Started(peer: Peer) | NoLocalStream | Rejected

  /** The value part of the session's state. */
  datatype SessionState = SessionState(
    status: Status,
    callee: Option<UserId>,
    offer: Option<SignalData>,
    muted: bool,
    videoOff: bool,
    original: MediaStream?,
    backlog: seq<SignalData>,
    route: Option<Route>,
    emitted: seq<ClientMsg>,
    notices: seq<Notice>,
    link: LinkState)

  /** The descriptions that make an incoming call ring; candidates do not. */
  predicate IsSessionDescription(d: SignalData)
  {
    Truthy(d.sdpType) && (d.sdpType == Some("offer") || d.sdpType == Some("answer"))
  }

  /** `handleIncomingCall`: the sender always becomes the callee; the payload is
      held as the offer, and the session rings, only when no offer is held
      and the payload is a session description. The current status plays no
      part. */
  function AfterIncomingCall(c: SessionState, from: Option<UserId>, data: SignalData): (r: SessionState)
    ensures r.callee == from
    ensures c.offer.None? && IsSessionDescription(data) ==> r.offer == Some(data) && r.status == Ringing
    ensures c.offer.Some? || !IsSessionDescription(data) ==> r.offer == c.offer && r.status == c.status
    ensures r.(callee := c.callee, offer := c.offer, status := c.status) == c
  {
    var withCallee := c.(callee := from);
    if c.offer.None? && IsSessionDescription(data) then withCallee.(offer := Some(data), status := Ringing)
    else withCallee
  }

  /** `handleCallAnswered`: handed to the peer when there is one, dropped
      otherwise (answers are not buffered). */
  function AfterCallAnswered(c: SessionState, data: SignalData): (r: SessionState)
    ensures c.link.current.None? ==> r == c
    ensures c.link.current.Some? ==>
              r == c.(link := c.link.(ops := c.link.ops + [Signal(c.link.current.value.id, data)]))
  {
    match c.link.current
    case None => c
    case Some(p) => c.(link := c.link.(ops := c.link.ops + [Signal(p.id, data)]))
  }

  /** `handleIceCandidate`: handed to the peer when there is one, otherwise
      appended to the backlog; never dropped. */
  function AfterIceCandidate(c: SessionState, cand: SignalData): (r: SessionState)
    ensures c.link.current.None? ==> r == c.(backlog := c.backlog + [cand])
    ensures c.link.current.Some? ==>
              r == c.(link := c.link.(ops := c.link.ops + [Signal(c.link.current.value.id, cand)]))
  {
    match c.link.current
    case None => c.(backlog := c.backlog + [cand])
    case Some(p) => c.(link := c.link.(ops := c.link.ops + [Signal(p.id, cand)]))
  }

  /** The `signal` listener of a started call. Before any call started there
      is no listener, and nothing is emitted. */
  function AfterPeerSignal(c: SessionState, data: SignalData): (r: SessionState)
    ensures c.route.None? ==> r == c
    ensures c.route.Some? ==> |r.emitted| == |c.emitted| + 1 && r.emitted[..|c.emitted|] == c.emitted
    ensures c.route.Some? ==> r.emitted[|c.emitted|].signalData == data
    ensures c.route.Some? && c.route.value.ToCallUser? ==>
              r.emitted[|c.emitted|] == CallUserMsg(c.route.value.target, data)
    ensures c.route.Some? && c.route.value.ToAnswerCall? ==>
              r.emitted[|c.emitted|] == AnswerCallMsg(c.route.value.callee, data)
    ensures r.(emitted := c.emitted) == c
  {
    match c.route
    case None => c
    case Some(ToCallUser(target)) => c.(emitted := c.emitted + [CallUserMsg(target, data)])
    case Some(ToAnswerCall(callee)) => c.(emitted := c.emitted + [AnswerCallMsg(callee, data)])
  }

  /** `onRemoteStream`: with a remote element present, the call is up. */
  function AfterRemoteStream(c: SessionState, hasRemote: bool): (r: SessionState)
    ensures !hasRemote ==> r == c
    ensures hasRemote ==> r.status == InCall && r.notices == c.notices + [StatusNotice(InCallStatus)]
    ensures r.(status := c.status, notices := c.notices) == c
  {
    if hasRemote then c.(status := InCall, notices := c.notices + [StatusNotice(InCallStatus)]) else c
  }

  /** The state part of `cleanup`: back to idle with no callee, offer or
      toggles. The backlog, the peer slot, the route and the original stream
      are left as they are. */
  function AfterCleanup(c: SessionState): (r: SessionState)
    ensures r.status == Idle && r.callee == None && r.offer == None && !r.muted && !r.videoOff
    ensures r.(status := c.status, callee := c.callee, offer := c.offer, muted := c.muted, videoOff := c.videoOff) == c
  {
    c.(status := Idle, callee := None, offer := None, muted := false, videoOff := false)
  }

  /** `hangup`: destroy the peer, then clean up. Nothing is sent to the other
      side. */
  function AfterHangup(c: SessionState): (r: SessionState)
    ensures r == AfterCleanup(c.(link := AfterDestroy(c.link)))
    ensures r.link.current == None && r.emitted == c.emitted
  {
    AfterCleanup(c.(link := AfterDestroy(c.link)))
  }

  /** `startCall` before its first `await`, or after it gave up: only the
      status and the notices change. */
  function AfterStartAborted(c: SessionState, initiator: bool, notes: seq<Notice>): (r: SessionState)
    ensures r.status == (if initiator then Calling else Answering)
    ensures r.notices == c.notices + notes
    ensures r.(status := c.status, notices := c.notices) == c
  {
    c.(status := if initiator then Calling else Answering, notices := c.notices + notes)
  }

  /** Whether this `startCall` hands an offer to the new peer. */
  predicate FeedsOffer(initiator: bool, incomingOffer: Option<SignalData>)
  {
    !initiator && incomingOffer.Some?
  }

  /** `startCall` with a local stream: build a peer on it, flush the backlog
      into the peer in arrival order, wire the `signal` route, and, as
      answerer with an offer, hand the offer to the peer and forget it. */
  function AfterStart(c: SessionState, initiator: bool, target: Option<UserId>, incomingOffer: Option<SignalData>,
                      stream: MediaStream, env: Env): (r: SessionState)
    ensures r.status == (if initiator then Calling else Answering)
    ensures r.original == stream && r.backlog == []
    ensures r.link.current == Some(Peer(c.link.created, initiator, stream)) && r.link.created == c.link.created + 1
    ensures r.route == Some(if initiator then ToCallUser(target) else ToAnswerCall(c.callee))
    ensures r.offer == if FeedsOffer(initiator, incomingOffer) then None else c.offer
    ensures r.callee == c.callee && r.muted == c.muted && r.videoOff == c.videoOff
    ensures r.emitted == c.emitted && r.notices == c.notices
  {
    var p := Peer(c.link.created, initiator, stream);
    var fed := SignalOps(p.id, c.backlog) +
               (if FeedsOffer(initiator, incomingOffer) then [Signal(p.id, incomingOffer.value)] else []);
    c.(status := if initiator then Calling else Answering,
       original := stream,
       backlog := [],
       route := Some(if initiator then ToCallUser(target) else ToAnswerCall(c.callee)),
       offer := if FeedsOffer(initiator, incomingOffer) then None else c.offer,
       link := LinkState(Some(p), c.link.created + 1,
                         c.link.ops + [Construct(p, Some(IceServers(env)))] + fed))
  }

  /** The peer trace of a started call: the earlier trace is kept, the peer is
      constructed with the configured ICE servers, and what it is then fed is
      exactly the backlog in arrival order followed by the offer (when
      answering with one), all on that peer. The backlog reaches the peer
      before the offer. */
  lemma {:induction false} StartFeedsBacklogThenOffer(c: SessionState, initiator: bool, target: Option<UserId>,
                                                       incomingOffer: Option<SignalData>,
                                                       stream: MediaStream, env: Env)
    ensures var r := AfterStart(c, initiator, target, incomingOffer, stream, env);
            var n := |c.link.ops|;
            && |r.link.ops| > n
            && r.link.ops[..n] == c.link.ops
            && r.link.ops[n] == Construct(Peer(c.link.created, initiator, stream), Some(IceServers(env)))
            && Payloads(r.link.ops[n + 1..]) ==
                 c.backlog + (if FeedsOffer(initiator, incomingOffer) then [incomingOffer.value] else [])
            && (forall op :: op in r.link.ops[n + 1..] ==> op.Signal? && op.target == c.link.created)
  {
    var r := AfterStart(c, initiator, target, incomingOffer, stream, env);
    var n := |c.link.ops|;
    var p := Peer(c.link.created, initiator, stream);
    var tail := if FeedsOffer(initiator, incomingOffer) then [Signal(p.id, incomingOffer.value)] else [];
    var fed := SignalOps(p.id, c.backlog) + tail;
    assert r.link.ops == c.link.ops + [Construct(p, Some(IceServers(env)))] + fed;
    assert r.link.ops[n + 1..] == fed;
    SignalOpsDeliverInOrder(p.id, c.backlog);
    PayloadsAppend(SignalOps(p.id, c.backlog), tail);
    if FeedsOffer(initiator, incomingOffer) {
      assert Payloads(tail) == [incomingOffer.value] by {
        assert tail[1..] == [];
      }
    }
  }

  /** A candidate that arrives while there is no peer is not lost: the next
      call started hands it to its peer. */
  lemma EarlyCandidateReachesNextPeer(c: SessionState, cand: SignalData, initiator: bool, target: Option<UserId>,
                                      incomingOffer: Option<SignalData>, stream: MediaStream, env: Env)
    requires c.link.current.None?
    ensures var r := AfterStart(AfterIceCandidate(c, cand), initiator, target, incomingOffer, stream, env);
            cand in Payloads(r.link.ops[|c.link.ops| + 1..])
  {
    var b := AfterIceCandidate(c, cand);
    StartFeedsBacklogThenOffer(b, initiator, target, incomingOffer, stream, env);
    assert cand == b.backlog[|b.backlog| - 1];
  }

  /** The session never holds a backlog while it has a peer. */
  predicate NoStrayBacklog(c: SessionState)
  {
    c.link.current.Some? ==> c.backlog == []
  }

  /** Every transition keeps `NoStrayBacklog`, so a candidate that arrives
      while a peer exists is always handed to it straight away and never
      queued behind older ones. */
  lemma TransitionsKeepNoStrayBacklog(c: SessionState, from: Option<UserId>, data: SignalData, hasRemote: bool,
                                      initiator: bool, target: Option<UserId>, incomingOffer: Option<SignalData>,
                                      stream: MediaStream, env: Env, notes: seq<Notice>)
    requires NoStrayBacklog(c)
    ensures NoStrayBacklog(AfterIncomingCall(c, from, data))
    ensures NoStrayBacklog(AfterCallAnswered(c, data))
    ensures NoStrayBacklog(AfterIceCandidate(c, data))
    ensures NoStrayBacklog(AfterPeerSignal(c, data))
    ensures NoStrayBacklog(AfterRemoteStream(c, hasRemote))
    ensures NoStrayBacklog(AfterCleanup(c))
    ensures NoStrayBacklog(AfterHangup(c))
    ensures NoStrayBacklog(AfterStartAborted(c, initiator, notes))
    ensures NoStrayBacklog(AfterStart(c, initiator, target, incomingOffer, stream, env))
  {
  }

  /** `cleanup` and `hangup` are idempotent: the peer's own `close` event,
      which runs `cleanup` once more after a hangup, changes nothing. */
  lemma HangupIdempotent(c: SessionState)
    ensures AfterCleanup(AfterCleanup(c)) == AfterCleanup(c)
    ensures AfterHangup(AfterHangup(c)) == AfterHangup(c)
    ensures AfterCleanup(AfterHangup(c)) == AfterHangup(c)
  {
  }

  /** An offer that arrives while no offer is held makes the session ring
      whatever its status, even in the middle of a call once the first offer
      was consumed by answering. */
  lemma LateOfferRingsDuringCall(c: SessionState, from: Option<UserId>, data: SignalData)
    requires c.status == InCall && c.offer.None? && data.sdpType == Some("offer")
    ensures AfterIncomingCall(c, from, data).status == Ringing
  {
  }

  /** A second caller whose payload is ignored still becomes the callee: the
      answer to the first caller's held offer is then routed to the second
      caller. */
  lemma SecondCallerTakesOverAnswer(c: SessionState, alice: UserId, offerA: SignalData, bob: UserId, dataB: SignalData,
                                    stream: MediaStream, env: Env)
    requires c.offer.None? && IsSessionDescription(offerA)
    ensures var rung := AfterIncomingCall(AfterIncomingCall(c, Some(alice), offerA), Some(bob), dataB);
            && rung.offer == Some(offerA) && rung.callee == Some(bob)
            && AfterStart(rung, false, None, rung.offer, stream, env).route == Some(ToAnswerCall(Some(bob)))
  {
  }

  /** One mounted `useCall` hook. `link` is its `usePeerConnection`, `local` and
      `remote` the elements behind `localRef` / `remoteRef`, `env` the TURN
      configuration. */
  class Session {
    var status: Status
    var callee: Option<UserId>
    var offer: Option<SignalData>
    var muted: bool
    var videoOff: bool
    var original: MediaStream?
    var backlog: seq<SignalData>
    var route: Option<Route>
    var emitted: seq<ClientMsg>
    var notices: seq<Notice>
    const link: PeerLink
    const local: VideoElement?
    const remote: VideoElement?
    const env: Env

    ghost function Core(): SessionState
      reads this, link
    {
      SessionState(status, callee, offer, muted, videoOff, original, backlog, route, emitted, notices, link.State())
    }

    constructor (link: PeerLink, local: VideoElement?, remote: VideoElement?, env: Env)
      ensures this.link == link && this.local == local && this.remote == remote && this.env == env
      ensures status == Idle && callee == None && offer == None && !muted && !videoOff
      ensures original == null && backlog == [] && route == None && emitted == [] && notices == []
    {
      this.link := link;
      this.local := local;
      this.remote := remote;
      this.env := env;
      status := Idle;
      callee := None;
      offer := None;
      muted := false;
      videoOff := false;
      original := null;
      backlog := [];
      route := None;
      emitted := [];
      notices := [];
    }

    /** The "incoming-call" listener. */
    method HandleIncomingCall(fromUserId: Option<UserId>, signalData: SignalData)
      modifies this
      ensures Core() == AfterIncomingCall(old(Core()), fromUserId, signalData)
    {
      callee := fromUserId;
      if offer.None? && Truthy(signalData.sdpType) &&
         (signalData.sdpType == Some("offer") || signalData.sdpType == Some("answer")) {
        offer := Some(signalData);
        status := Ringing;
      }
    }

    /** The "call-answered" listener. */
    method HandleCallAnswered(signalData: SignalData)
      modifies link
      ensures Core() == AfterCallAnswered(old(Core()), signalData)
    {
      if link.current.Some? {
        link.SignalPeer(signalData);
      }
    }

    /** The "ice-candidate" listener. */
    method HandleIceCandidate(candidate: SignalData)
      modifies this, link
      ensures Core() == AfterIceCandidate(old(Core()), candidate)
    {
      if link.current.Some? {
        link.SignalPeer(candidate);
      } else {
        backlog := backlog + [candidate];
      }
    }

    /** `startCall`. `supplied` is what `getLocalStream` does and `fallback` the
        outcome of the audio-only request made when it rejects. */
    method StartCall(initiator: bool, target: Option<UserId>, incomingOffer: Option<SignalData>,
                     supplied: LocalOutcome, fallback: Acquisition)
      returns (r: StartResult)
      modifies this, link, local
      ensures r.Rejected? <==> supplied.Threw? && (fallback.Failed? || local == null)
      ensures r.NoLocalStream? <==> supplied.NoStream?
      ensures r.Rejected? ==>
                Core() == AfterStartAborted(old(Core()), initiator, [ErrorNotice(LocalStreamFailed)])
      ensures r.NoLocalStream? ==>
                Core() == AfterStartAborted(old(Core()), initiator, [ErrorNotice(NoLocalStreamAvailable)])
      ensures r.Started? ==>
                var stream := if supplied.Supplied? then supplied.stream else fallback.stream;
                var warned := AfterStartAborted(old(Core()), initiator,
                                if supplied.Threw? then [ErrorNotice(LocalStreamFailed)] else []);
                && r.peer == Peer(old(link.created), initiator, stream)
                && Core() == AfterStart(warned, initiator, target, incomingOffer, stream, env)
      // the audio-only fallback is shown in the local element; otherwise it is left alone
      ensures local != null ==>
                local.srcObject == if supplied.Threw? && fallback.Opened? then fallback.stream
                                   else old(local.srcObject)
    {
      status := if initiator then Calling else Answering;
      var stream, rejected := AcquireLocal(supplied, fallback);
      if rejected {
        return Rejected;
      }
      if stream == null {
        notices := notices + [ErrorNotice(NoLocalStreamAvailable)];
        return NoLocalStream;
      }
      var peer := Launch(initiator, target, incomingOffer, stream);
      r := Started(peer);
    }

    /** The `try`/`catch` of `startCall`: the supplied stream, or, when
        `getLocalStream` rejects, an error notice and the audio-only fallback
        shown in the local element. `rejected` when the fallback fails or
        there is no element to show it in. */
    method AcquireLocal(supplied: LocalOutcome, fallback: Acquisition) returns (stream: MediaStream?, rejected: bool)
      modifies this, local
      ensures rejected <==> supplied.Threw? && (fallback.Failed? || local == null)
      ensures !rejected ==> (stream == null <==> supplied.NoStream?)
      ensures !rejected && stream != null ==>
                stream == if supplied.Supplied? then supplied.stream else fallback.stream
      ensures Core() == old(Core()).(notices := old(notices) +
                          (if supplied.Threw? then [ErrorNotice(LocalStreamFailed)] else []))
      ensures local != null ==>
                local.srcObject == if supplied.Threw? && fallback.Opened? then fallback.stream
                                   else old(local.srcObject)
    {
      rejected := false;
      stream := null;
      match supplied {
        case NoStream =>
        case Supplied(s) =>
          stream := s;
        case Threw =>
          notices := notices + [ErrorNotice(LocalStreamFailed)];
          match fallback {
            case Failed(_) =>
              rejected := true;
            case Opened(s) =>
              if local == null {
                rejected := true;
              } else {
                local.srcObject := s;
                stream := s;
              }
          }
      }
    }

    /** The second half of `startCall`, once a local stream is in hand. */
    method Launch(initiator: bool, target: Option<UserId>, incomingOffer: Option<SignalData>, stream: MediaStream)
      returns (peer: Peer)
      requires status == if initiator then Calling else Answering
      modifies this, link
      ensures peer == Peer(old(link.created), initiator, stream)
      ensures Core() == AfterStart(old(Core()), initiator, target, incomingOffer, stream, env)
    {
      original := stream;
      peer := link.CreatePeer(initiator, stream, env);
      link.SignalEach(backlog);
      backlog := [];
      route := Some(if initiator then ToCallUser(target) else ToAnswerCall(callee));
      if !initiator && incomingOffer.Some? {
        link.SignalPeer(incomingOffer.value);
        offer := None;
      }
    }

    /** A `signal` event of the peer the last `startCall` built. */
    method OnPeerSignal(data: SignalData)
      modifies this
      ensures Core() == AfterPeerSignal(old(Core()), data)
    {
      match route
      case None =>
      case Some(ToCallUser(target)) =>
        emitted := emitted + [CallUserMsg(target, data)];
      case Some(ToAnswerCall(to)) =>
        emitted := emitted + [AnswerCallMsg(to, data)];
    }

    /** The `onRemoteStream` callback. */
    method OnRemoteStream(stream: MediaStream)
      modifies this, remote
      ensures remote != null ==> remote.srcObject == stream
      ensures Core() == AfterRemoteStream(old(Core()), remote != null)
    {
      if remote != null {
        remote.srcObject := stream;
        status := InCall;
        notices := notices + [StatusNotice(InCallStatus)];
      }
    }

    /** `cleanup`: release both elements, then reset the call state. */
    method Cleanup()
      modifies this, local, remote, Shown(local), Shown(remote)
      ensures local != null ==> local.srcObject == null
      ensures remote != null ==> remote.srcObject == null
      ensures forall t :: t in old(Shown(local)) || t in old(Shown(remote)) ==> t.stopped
      ensures forall t :: t in old(Shown(local)) || t in old(Shown(remote)) ==> t.enabled == old(t.enabled)
      ensures Core() == AfterCleanup(old(Core()))
    {
      Release(local);
      Release(remote);
      status := Idle;
      callee := None;
      offer := None;
      muted := false;
      videoOff := false;
    }

    /** `hangup`. */
    method Hangup()
      modifies this, link, local, remote, Shown(local), Shown(remote)
      ensures local != null ==> local.srcObject == null
      ensures remote != null ==> remote.srcObject == null
      ensures forall t :: t in old(Shown(local)) || t in old(Shown(remote)) ==> t.stopped
      ensures forall t :: t in old(Shown(local)) || t in old(Shown(remote)) ==> t.enabled == old(t.enabled)
      ensures Core() == AfterHangup(old(Core()))
    {
      link.DestroyPeer();
      Cleanup();
    }

    /** An event of the peer, through the listeners `createPeer` attached (no
        `onConnectionFailed` is passed here) and the `signal` listener of
        `startCall`. */
    method OnPeerEvent(ev: PeerEvent)
      modifies this, link, local, remote, Shown(local), Shown(remote)
      ensures ev.SignalEvent? ==> Core() == AfterPeerSignal(old(Core()), ev.data)
      ensures ev.StreamEvent? ==> Core() == AfterRemoteStream(old(Core()), remote != null)
      ensures ev == CloseEvent ==> Core() == AfterCleanup(old(Core()))
      ensures ev.ErrorEvent? || ev.ConnectionStateEvent? ==> Core() == old(Core())
      // a stream is shown on the remote element; close releases both elements
      ensures ev.StreamEvent? && remote != null ==> remote.srcObject == ev.stream
      ensures ev == CloseEvent ==>
                && (local != null ==> local.srcObject == null)
                && (remote != null ==> remote.srcObject == null)
                && (forall t :: t in old(Shown(local)) || t in old(Shown(remote)) ==> t.stopped)
      ensures forall t :: t in old(Shown(local)) || t in old(Shown(remote)) ==> t.enabled == old(t.enabled)
      // every other event leaves the elements and their tracks alone
      ensures ev != CloseEvent ==>
                forall t :: t in old(Shown(local)) || t in old(Shown(remote)) ==> t.stopped == old(t.stopped)
      ensures ev != CloseEvent && local != null && !(ev.StreamEvent? && local == remote) ==>
                local.srcObject == old(local.srcObject)
      ensures ev != CloseEvent && !ev.StreamEvent? && remote != null ==> remote.srcObject == old(remote.srcObject)
    {
      if ev.SignalEvent? {
        OnPeerSignal(ev.data);
      } else {
        match Dispatch(ev, NoFailedCallback)
        case RemoteStream(s) =>
          OnRemoteStream(s);
        case Ended =>
          Cleanup();
        case _ =>
      }
    }

    /** `toggleMute`: the first audio track of the local element's stream is
        gated by the current flag, and the flag flips, so afterwards the track
        is enabled exactly when the session is not muted. Without a local
        stream or an audio track the call throws and changes nothing. */
    method ToggleMute() returns (ok: bool)
      modifies this, Shown(local)
      ensures ok <==> local != null && local.srcObject != null && local.srcObject.AudioTracks() != []
      ensures ok ==> muted == !old(muted) && local.srcObject.AudioTracks()[0].enabled == !muted
      ensures Core() == old(Core()).(muted := muted)
      ensures !ok ==> muted == old(muted)
      ensures forall t :: t in old(Shown(local)) ==> t.stopped == old(t.stopped)
      ensures forall t :: t in old(Shown(local)) && (!ok || t != local.srcObject.AudioTracks()[0]) ==>
                t.enabled == old(t.enabled)
    {
      if local == null || local.srcObject == null {
        return false;
      }
      var tracks := local.srcObject.AudioTracks();
      if tracks == [] {
        return false;
      }
      var t := tracks[0];
      t.enabled := muted;
      muted := !muted;
      ok := true;
    }

    /** `toggleVideo`: the same lockstep for the first video track and the
        video-off flag. */
    method ToggleVideo() returns (ok: bool)
      modifies this, Shown(local)
      ensures ok <==> local != null && local.srcObject != null && local.srcObject.VideoTracks() != []
      ensures ok ==> videoOff == !old(videoOff) && local.srcObject.VideoTracks()[0].enabled == !videoOff
      ensures Core() == old(Core()).(videoOff := videoOff)
      ensures !ok ==> videoOff == old(videoOff)
      ensures forall t :: t in old(Shown(local)) ==> t.stopped == old(t.stopped)
      ensures forall t :: t in old(Shown(local)) && (!ok || t != local.srcObject.VideoTracks()[0]) ==>
                t.enabled == old(t.enabled)
    {
      if local == null || local.srcObject == null {
        return false;
      }
      var tracks := local.srcObject.VideoTracks();
      if tracks == [] {
        return false;
      }
      var t := tracks[0];
      t.enabled := videoOff;
      videoOff := !videoOff;
      ok := true;
    }
  }
}
