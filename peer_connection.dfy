/** The peer-session adapter (video-client/src/hooks/usePeerConnection.js): the
    `peerRef` slot, peer construction with its ICE-server configuration, the
    listeners the hook attaches, and `destroyPeer`. The peer library itself is
    opaque: every call made on a peer is recorded in a trace of `PeerOp`s. */
module PeerConnection {
  import opened Common
  import opened Media

  /** One entry of `config.iceServers`. */
  datatype IceServer = IceServer(urls: string, username: Option<string>, credential: Option<string>)

  const StunUrl: string := "stun:stun.l.google.com:19302"

  /** The three build-time variables REACT_APP_TURN_URL, REACT_APP_TURN_USER and
      REACT_APP_TURN_PASS (None when unset, or when `process` is unavailable). */
  datatype Env = Env(turnUrl: Option<string>, turnUser: Option<string>, turnPass: Option<string>)

  /** The ICE configuration the hook hands to every peer it builds: the public
      STUN server first, then a TURN server exactly when a (non-empty) TURN url
      is configured, carrying the configured user name and credential. */
  function IceServers(env: Env): (ice: seq<IceServer>)
    ensures |ice| == 1 || |ice| == 2
    ensures ice[0] == IceServer(StunUrl, None, None)
    ensures |ice| == 2 <==> Truthy(env.turnUrl)
    ensures |ice| == 2 ==> ice[1].urls == env.turnUrl.value &&
                           ice[1].username == env.turnUser && ice[1].credential == env.turnPass
  {
    [IceServer(StunUrl, None, None)] +
    (if Truthy(env.turnUrl) then [IceServer(env.turnUrl.value, env.turnUser, env.turnPass)] else [])
  }

  /** The `config` closure of `createPeer`, which builds the list by `push`. */
  method BuildIceServers(env: Env) returns (ice: seq<IceServer>)
    ensures ice == IceServers(env)
  {
    ice := [IceServer(StunUrl, None, None)];
    var turnUrl := env.turnUrl;
    if Truthy(turnUrl) {
      ice := ice + [IceServer(turnUrl.value, env.turnUser, env.turnPass)];
    }
  }

  /** A handle on one constructed peer. `id` is its construction index, so two
      handles are equal only when they denote the same peer object. */
  datatype Peer = Peer(id: nat, initiator: bool, stream: MediaStream)

  /** A call made into the peer library. `iceServers` is None when the caller
      leaves the library's default configuration in place. */
  datatype PeerOp =
    | Construct(peer: Peer, iceServers: Option<seq<IceServer>>)
    | Signal(target: nat, data: SignalData)
    | ReplaceTrack(target: nat, oldTrack: MediaTrack, newTrack: MediaTrack, stream: MediaStream)
    | Destroy(target: nat)

  /** One `signal` call per payload, in order, all on peer `id`. */
  function SignalOps(id: nat, batch: seq<SignalData>): seq<PeerOp>
  {
    seq(|batch|, i requires 0 <= i < |batch| => Signal(id, batch[i]))
  }

  /** The payloads handed to `signal`, in the order of the trace. */
  function Payloads(ops: seq<PeerOp>): seq<SignalData>
  {
    if ops == [] then []
    else (if ops[0].Signal? then [ops[0].data] else []) + Payloads(ops[1..])
  }

  lemma {:induction false} PayloadsAppend(a: seq<PeerOp>, b: seq<PeerOp>)
    ensures Payloads(a + b) == Payloads(a) + Payloads(b)
  {
    if a == [] {
      assert a + b == b;
    } else {
      assert (a + b)[1..] == a[1..] + b;
      PayloadsAppend(a[1..], b);
    }
  }

  /** Signalling a batch hands the peer exactly that batch, in order, and
      nothing to any other peer. */
  lemma {:induction false} SignalOpsDeliverInOrder(id: nat, batch: seq<SignalData>)
    ensures Payloads(SignalOps(id, batch)) == batch
    ensures forall op :: op in SignalOps(id, batch) ==> op.Signal? && op.target == id
  {
    if batch != [] {
      assert SignalOps(id, batch) == [Signal(id, batch[0])] + SignalOps(id, batch[1..]);
      SignalOpsDeliverInOrder(id, batch[1..]);
    }
  }

  /** The value part of the hook's state. */
  datatype LinkState = LinkState(current: Option<Peer>, created: nat, ops: seq<PeerOp>)

  /** `destroyPeer`: destroy and clear a present peer (errors from `destroy`
      are swallowed, so the call always completes); no peer, no effect. */
  function AfterDestroy(st: LinkState): (r: LinkState)
    ensures r.current == None && r.created == st.created
    ensures st.current.None? ==> r == st
    ensures st.current.Some? ==> r.ops == st.ops + [Destroy(st.current.value.id)]
  {
    match st.current
    case None => st
    case Some(p) => LinkState(None, st.created, st.ops + [Destroy(p.id)])
  }

  /** `destroyPeer` is idempotent: a second call does nothing. */
  lemma DestroyIdempotent(st: LinkState)
    ensures AfterDestroy(AfterDestroy(st)) == AfterDestroy(st)
    ensures |AfterDestroy(AfterDestroy(st)).ops| <= |st.ops| + 1
  {
  }

  /** The hook: `peerRef`, plus the trace of everything done to peers. */
  class PeerLink {
    var current: Option<Peer>
    var created: nat
    var ops: seq<PeerOp>

    ghost function State(): LinkState
      reads this
    {
      LinkState(current, created, ops)
    }

    constructor ()
      ensures current == None && created == 0 && ops == []
    {
      current := None;
      created := 0;
      ops := [];
    }

    /** `createPeer`: construct a fresh peer, store it in `peerRef` (replacing,
        without destroying, any previous one) and return that same peer. */
    method CreatePeer(initiator: bool, stream: MediaStream, env: Env) returns (p: Peer)
      modifies this
      ensures p == Peer(old(created), initiator, stream)
      ensures current == Some(p) && created == old(created) + 1
      ensures ops == old(ops) + [Construct(p, Some(IceServers(env)))]
    {
      var ice := BuildIceServers(env);
      p := Peer(created, initiator, stream);
      ops := ops + [Construct(p, Some(ice))];
      created := created + 1;
      current := Some(p);
    }

    /** `peerRef.current.signal(data)`. */
    method SignalPeer(data: SignalData)
      requires current.Some?
      modifies this
      ensures current == old(current) && created == old(created)
      ensures ops == old(ops) + [Signal(current.value.id, data)]
    {
      ops := ops + [Signal(current.value.id, data)];
    }

    /** `batch.forEach(d => peerRef.current.signal(d))`. */
    method SignalEach(batch: seq<SignalData>)
      requires current.Some?
      modifies this
      ensures current == old(current) && created == old(created)
      ensures ops == old(ops) + SignalOps(current.value.id, batch)
    {
      var i := 0;
      while i < |batch|
        invariant 0 <= i <= |batch|
        invariant current == old(current) && created == old(created)
        invariant ops == old(ops) + SignalOps(current.value.id, batch[..i])
      {
        assert SignalOps(current.value.id, batch[..i + 1]) ==
               SignalOps(current.value.id, batch[..i]) + [Signal(current.value.id, batch[i])];
        SignalPeer(batch[i]);
        i := i + 1;
      }
      assert batch[..i] == batch;
    }

    /** `peerRef.current.replaceTrack(oldTrack, newTrack, stream)`. */
    method ReplaceTrackOnPeer(oldTrack: MediaTrack, newTrack: MediaTrack, stream: MediaStream)
      requires current.Some?
      modifies this
      ensures current == old(current) && created == old(created)
      ensures ops == old(ops) + [ReplaceTrack(current.value.id, oldTrack, newTrack, stream)]
    {
      ops := ops + [ReplaceTrack(current.value.id, oldTrack, newTrack, stream)];
    }

    /** `destroyPeer`. */
    method DestroyPeer()
      modifies this
      ensures State() == AfterDestroy(old(State()))
    {
      if current.Some? {
        ops := ops + [Destroy(current.value.id)];
        current := None;
      }
    }
  }

  /** What a peer can report to the listeners the hook attaches. */
  datatype PeerEvent =
    | StreamEvent(stream: MediaStream)
    | CloseEvent
    | ErrorEvent
    | SignalEvent(data: SignalData)
    | ConnectionStateEvent(state: string)

  /** The optional `onConnectionFailed` option: absent (or not a function), or a
      function. Whether that function returns or throws is not represented:
      the listener calls it inside `try`/`catch` and only logs an error. */
  datatype FailedCallback = NoFailedCallback | FailedCallback

  /** Which of the hook's callbacks an event runs. */
  datatype Reaction = RemoteStream(stream: MediaStream) | Ended | ConnectionFailed | NoReaction

  /** The listeners of `createPeer`: `stream` runs `onRemoteStream` with that
      stream, `close` runs `onEnded`, a "failed" connection state runs
      `onConnectionFailed` when it is a function; errors and signals are only
      logged. A throwing `onConnectionFailed` is caught and logged, so what
      follows is the same whether it returns or throws, and the reaction has
      no error case. */
  function Dispatch(ev: PeerEvent, onFailed: FailedCallback): (r: Reaction)
    ensures r == Ended <==> ev == CloseEvent
    ensures r.RemoteStream? <==> ev.StreamEvent?
    ensures r.RemoteStream? ==> r.stream == ev.stream
    ensures r == ConnectionFailed <==> ev == ConnectionStateEvent("failed") && onFailed.FailedCallback?
  {
    match ev
    case StreamEvent(s) => RemoteStream(s)
    case CloseEvent => Ended
    case ConnectionStateEvent(state) =>
      if state == "failed" && onFailed.FailedCallback? then ConnectionFailed else NoReaction
    case _ => NoReaction
  }
}
