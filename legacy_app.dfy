/** The first-generation client (video-client/src/App.js): one component that
    speaks the stateless relay's protocol (`call-request`, `call-accept`,
    `call-decline`, `signal`), builds its peer directly with the library's
    default configuration, and never clears its peer slot.

    React state setters take effect immediately; the messages the client
    emits are recorded in `emitted` as the relay's inbound messages, and the
    calls it makes on peers in `ops`. Both video elements are mounted for the
    component's whole life. */
module LegacyApp {
  import opened Common
  import opened Media
  import opened PeerConnection
  import opened LocalStream
  import LegacyRelay

  /** The value part of the component's state. `route` is the `remoteId` the
      latest peer's `signal` listener captured when it was built. */
  datatype AppState = AppState(
    status: Status,
    remoteId: Option<SocketId>,
    muted: bool,
    videoOff: bool,
    selectedVideo: string,
    selectedAudio: string,
    peer: Option<Peer>,
    created: nat,
    ops: seq<PeerOp>,
    route: Option<Option<SocketId>>,
    emitted: seq<LegacyRelay.Inbound>)

  /** `reset`. The peer slot is not part of it. */
  function AfterReset(c: AppState): (r: AppState)
    ensures r.status == Idle && r.remoteId == None && !r.muted && !r.videoOff
    ensures r.(status := c.status, remoteId := c.remoteId, muted := c.muted, videoOff := c.videoOff) == c
  {
    c.(status := Idle, remoteId := None, muted := false, videoOff := false)
  }

  /** `callUser(id)`: remember the callee, show "calling", send one request. */
  function AfterCallUser(c: AppState, id: Option<SocketId>): (r: AppState)
    ensures r.remoteId == id && r.status == Calling
    ensures r.emitted == c.emitted + [LegacyRelay.CallRequest(id)]
    ensures r.(remoteId := c.remoteId, status := c.status, emitted := c.emitted) == c
  {
    c.(remoteId := id, status := Calling, emitted := c.emitted + [LegacyRelay.CallRequest(id)])
  }

  /** The "call-request" listener: ring for `from`, whatever the status. */
  function AfterCallRequest(c: AppState, from: SocketId): (r: AppState)
    ensures r.remoteId == Some(from) && r.status == Ringing
    ensures r.(remoteId := c.remoteId, status := c.status) == c
  {
    c.(remoteId := Some(from), status := Ringing)
  }

  /** The "signal" listener: hand the payload to the peer in the slot, if any
      (a destroyed one included), and drop it otherwise. */
  function AfterSignal(c: AppState, data: SignalData): (r: AppState)
    ensures c.peer.None? ==> r == c
    ensures c.peer.Some? ==> r == c.(ops := c.ops + [Signal(c.peer.value.id, data)])
  {
    match c.peer
    case None => c
    case Some(p) => c.(ops := c.ops + [Signal(p.id, data)])
  }

  /** The constraints of `getMedia`: both selectors go through the same
      "default"-or-exact mapping. */
  function MediaConstraints(c: AppState): (r: Constraints)
    ensures r.video == AnyDevice <==> c.selectedVideo == "default"
    ensures r.audio == AnyDevice <==> c.selectedAudio == "default"
    ensures c.selectedVideo != "default" ==> r.video == ExactDevice(c.selectedVideo)
    ensures c.selectedAudio != "default" ==> r.audio == ExactDevice(c.selectedAudio)
  {
    Constraints(DeviceConstraint(c.selectedVideo), DeviceConstraint(c.selectedAudio))
  }

  /** `startPeer` once `getMedia` resolved with `stream`: a new peer, with the
      library's default ICE configuration, replaces the slot, its `signal`
      listener captures the current `remoteId`, and the status is "in-call"
      at once, before any remote media arrives. */
  function AfterStartPeer(c: AppState, initiator: bool, stream: MediaStream): (r: AppState)
    ensures r.peer == Some(Peer(c.created, initiator, stream)) && r.created == c.created + 1
    ensures r.ops == c.ops + [Construct(Peer(c.created, initiator, stream), None)]
    ensures r.route == Some(c.remoteId) && r.status == InCall
    ensures r.(peer := c.peer, created := c.created, ops := c.ops, route := c.route, status := c.status) == c
  {
    var p := Peer(c.created, initiator, stream);
    c.(peer := Some(p), created := c.created + 1, ops := c.ops + [Construct(p, None)],
       route := Some(c.remoteId), status := InCall)
  }

  /** The state part of `hangUp`: destroy the peer in the slot, if any, but
      leave it there; then reset. Nothing is sent to the other side. */
  function AfterHangUp(c: AppState): (r: AppState)
    ensures r.peer == c.peer && r.emitted == c.emitted
    ensures r.ops == c.ops + (if c.peer.Some? then [Destroy(c.peer.value.id)] else [])
    ensures r == AfterReset(c.(ops := r.ops))
  {
    var destroyed := if c.peer.Some? then c.(ops := c.ops + [Destroy(c.peer.value.id)]) else c;
    AfterReset(destroyed)
  }

  /** `declineCall`: tell the caller "Busy", then reset. */
  function AfterDecline(c: AppState): (r: AppState)
    ensures r.emitted == c.emitted + [LegacyRelay.CallDecline(c.remoteId, Some("Busy"))]
    ensures r == AfterReset(c.(emitted := r.emitted))
  {
    AfterReset(c.(emitted := c.emitted + [LegacyRelay.CallDecline(c.remoteId, Some("Busy"))]))
  }

  /** The `signal` listener of the latest peer. */
  function AfterPeerSignal(c: AppState, data: SignalData): (r: AppState)
    ensures c.route.None? ==> r == c
    ensures c.route.Some? ==> r.emitted == c.emitted + [LegacyRelay.Signal(c.route.value, data)]
    ensures r.(emitted := c.emitted) == c
  {
    match c.route
    case None => c
    case Some(to) => c.(emitted := c.emitted + [LegacyRelay.Signal(to, data)])
  }

  /** Hanging up does not clear the peer slot: a signal that arrives after a
      hangup is handed to the peer that was just destroyed. */
  lemma SignalAfterHangUpReachesDestroyedPeer(c: AppState, data: SignalData)
    requires c.peer.Some?
    ensures var r := AfterSignal(AfterHangUp(c), data);
            r.ops == c.ops + [Destroy(c.peer.value.id), Signal(c.peer.value.id, data)]
  {
  }

  /** Unlike the hook's `hangup`, a second `hangUp` destroys the same peer once
      more. */
  lemma HangUpTwiceDestroysTwice(c: AppState)
    requires c.peer.Some?
    ensures AfterHangUp(AfterHangUp(c)).ops == c.ops + [Destroy(c.peer.value.id), Destroy(c.peer.value.id)]
    ensures AfterReset(AfterReset(c)) == AfterReset(c)
  {
  }

  /** A call request rings even in the middle of a call, and takes over
      `remoteId`, so the current peer's later signals still go to the old
      partner while accept / decline go to the new one. */
  lemma CallRequestHasNoBusyGuard(c: AppState, from: SocketId)
    requires c.status == InCall && c.route == Some(c.remoteId) && c.remoteId != Some(from)
    ensures var r := AfterCallRequest(c, from);
            r.status == Ringing && r.remoteId == Some(from) && r.route == c.route && r.route != Some(r.remoteId)
  {
  }

  /** Through the relay, a call request reaches the callee stamped with the
      caller's connection, and the callee's acceptance goes straight back to
      that connection. */
  lemma RequestThenAcceptRoundTrip(caller: AppState, callerSocket: SocketId,
                                   callee: AppState, calleeSocket: SocketId)
    ensures var sent := AfterCallUser(caller, Some(calleeSocket));
            var request := LegacyRelay.Relay(callerSocket, sent.emitted[|caller.emitted|]);
            && request == LegacyRelay.Delivery(Some(calleeSocket), LegacyRelay.CallRequestFrom(callerSocket))
            && var rung := AfterCallRequest(callee, callerSocket);
               LegacyRelay.Relay(calleeSocket, LegacyRelay.CallAccept(rung.remoteId)) ==
                 LegacyRelay.Delivery(Some(callerSocket), LegacyRelay.CallAcceptFrom(calleeSocket))
  {
  }

  /** How a run of `swapVideoDevice` ended. */
  datatype DeviceSwapOutcome =
    | NoLocalStream  // nothing shown locally yet
    | NoVideoTrack   // the shown stream has no video track (TypeError at `stop`)
    | OpenFailed     // the new camera did not open; the old video track stays stopped
    | Replaced

  /** The mounted component. */
  class App {
    var status: Status
    var remoteId: Option<SocketId>
    var muted: bool
    var videoOff: bool
    var selectedVideo: string
    var selectedAudio: string
    var peer: Option<Peer>
    var created: nat
    var ops: seq<PeerOp>
    var route: Option<Option<SocketId>>
    var emitted: seq<LegacyRelay.Inbound>
    const local: VideoElement
    const remote: VideoElement

    ghost function State(): AppState
      reads this
    {
      AppState(status, remoteId, muted, videoOff, selectedVideo, selectedAudio, peer, created, ops, route, emitted)
    }

    constructor (local: VideoElement, remote: VideoElement)
      ensures this.local == local && this.remote == remote
      ensures State() == AppState(Idle, None, false, false, "default", "default", None, 0, [], None, [])
    {
      this.local := local;
      this.remote := remote;
      status := Idle;
      remoteId := None;
      muted := false;
      videoOff := false;
      selectedVideo := "default";
      selectedAudio := "default";
      peer := None;
      created := 0;
      ops := [];
      route := None;
      emitted := [];
    }

    method Reset()
      modifies this
      ensures State() == AfterReset(old(State()))
    {
      status := Idle;
      remoteId := None;
      muted := false;
      videoOff := false;
    }

    method CallUser(id: Option<SocketId>)
      modifies this
      ensures State() == AfterCallUser(old(State()), id)
    {
      remoteId := id;
      status := Calling;
      emitted := emitted + [LegacyRelay.CallRequest(id)];
    }

    /** The "call-request" listener. */
    method OnCallRequest(from: SocketId)
      modifies this
      ensures State() == AfterCallRequest(old(State()), from)
    {
      remoteId := Some(from);
      status := Ringing;
    }

    /** The "call-decline" listener (the alert is not modelled). */
    method OnCallDecline(reason: Option<string>)
      modifies this
      ensures State() == AfterReset(old(State()))
    {
      Reset();
    }

    /** The "signal" listener. */
    method OnSignal(data: SignalData)
      modifies this
      ensures State() == AfterSignal(old(State()), data)
    {
      if peer.Some? {
        ops := ops + [Signal(peer.value.id, data)];
      }
    }

    /** `startPeer`. `acquired` is what `getUserMedia(request)` did; when it
        fails, `startPeer` rejects before building anything. On success the
        stream is shown locally first. */
    method StartPeer(initiator: bool, acquired: Acquisition) returns (request: Constraints)
      modifies this, local
      ensures request == MediaConstraints(old(State()))
      ensures acquired.Failed? ==> State() == old(State()) && local.srcObject == old(local.srcObject)
      ensures acquired.Opened? ==>
                State() == AfterStartPeer(old(State()), initiator, acquired.stream) &&
                local.srcObject == acquired.stream
    {
      request := Constraints(DeviceConstraint(selectedVideo), DeviceConstraint(selectedAudio));
      match acquired {
        case Failed(_) =>
          return;
        case Opened(stream) =>
          local.srcObject := stream;
          var p := Peer(created, initiator, stream);
          ops := ops + [Construct(p, None)];
          created := created + 1;
          route := Some(remoteId);
          peer := Some(p);
          status := InCall;
      }
    }

    /** The "call-accept" listener: the caller builds the initiating peer. */
    method OnCallAccept(acquired: Acquisition) returns (request: Constraints)
      modifies this, local
      ensures request == MediaConstraints(old(State()))
      ensures acquired.Failed? ==> State() == old(State()) && local.srcObject == old(local.srcObject)
      ensures acquired.Opened? ==>
                State() == AfterStartPeer(old(State()), true, acquired.stream) &&
                local.srcObject == acquired.stream
    {
      request := StartPeer(true, acquired);
    }

    /** `acceptCall`. `startPeer(false)` suspends at `getMedia` before its
        first effect, so "call-accept" is on the wire before the answering
        peer exists. */
    method AcceptCall(acquired: Acquisition) returns (request: Constraints)
      modifies this, local
      ensures var accepted := old(State()).(status := Calling,
                                emitted := old(emitted) + [LegacyRelay.CallAccept(old(remoteId))]);
              && request == MediaConstraints(old(State()))
              && (acquired.Failed? ==> State() == accepted && local.srcObject == old(local.srcObject))
              && (acquired.Opened? ==>
                    State() == AfterStartPeer(accepted, false, acquired.stream) &&
                    local.srcObject == acquired.stream)
    {
      status := Calling;
      emitted := emitted + [LegacyRelay.CallAccept(remoteId)];
      request := StartPeer(false, acquired);
    }

    method DeclineCall()
      modifies this
      ensures State() == AfterDecline(old(State()))
    {
      emitted := emitted + [LegacyRelay.CallDecline(remoteId, Some("Busy"))];
      Reset();
    }

    /** The `signal` listener of the latest peer. */
    method OnPeerSignal(data: SignalData)
      modifies this
      ensures State() == AfterPeerSignal(old(State()), data)
    {
      if route.Some? {
        emitted := emitted + [LegacyRelay.Signal(route.value, data)];
      }
    }

    /** The `stream` listener of the latest peer: show the remote media. The
        status is already "in-call". */
    method OnRemoteStream(stream: MediaStream)
      modifies remote
      ensures remote.srcObject == stream
    {
      remote.srcObject := stream;
    }

    /** The device pickers' `onSelectVideo`: `setSelectedVideo`. */
    method SelectVideo(deviceId: string)
      modifies this
      ensures State() == old(State()).(selectedVideo := deviceId)
      ensures MediaConstraints(State()).video == DeviceConstraint(deviceId)
      ensures MediaConstraints(State()).audio == MediaConstraints(old(State())).audio
    {
      selectedVideo := deviceId;
    }

    /** The device pickers' `onSelectAudio`: `setSelectedAudio`. */
    method SelectAudio(deviceId: string)
      modifies this
      ensures State() == old(State()).(selectedAudio := deviceId)
      ensures MediaConstraints(State()).audio == DeviceConstraint(deviceId)
      ensures MediaConstraints(State()).video == MediaConstraints(old(State())).video
    {
      selectedAudio := deviceId;
    }

    /** `hangUp`. */
    method HangUp()
      modifies this, local, remote, Shown(local), Shown(remote)
      ensures local.srcObject == null && remote.srcObject == null
      ensures forall t :: t in old(Shown(local)) || t in old(Shown(remote)) ==> t.stopped
      ensures forall t :: t in old(Shown(local)) || t in old(Shown(remote)) ==> t.enabled == old(t.enabled)
      ensures State() == AfterHangUp(old(State()))
    {
      if peer.Some? {
        ops := ops + [Destroy(peer.value.id)];
      }
      Release(local);
      Release(remote);
      Reset();
    }

    /** `toggleMute`: the first audio track follows `!muted`. Without a shown
        stream or an audio track the call throws and changes nothing. */
    method ToggleMute() returns (ok: bool)
      modifies this, Shown(local)
      ensures ok <==> local.srcObject != null && local.srcObject.AudioTracks() != []
      ensures ok ==> muted == !old(muted) && local.srcObject.AudioTracks()[0].enabled == !muted
      ensures State() == old(State()).(muted := muted)
      ensures !ok ==> muted == old(muted)
      ensures forall t :: t in old(Shown(local)) ==> t.stopped == old(t.stopped)
      ensures forall t :: t in old(Shown(local)) && (!ok || t != local.srcObject.AudioTracks()[0]) ==>
                t.enabled == old(t.enabled)
    {
      if local.srcObject == null {
        return false;
      }
      var tracks := local.srcObject.AudioTracks();
      if tracks == [] {
        return false;
      }
      tracks[0].enabled := muted;
      muted := !muted;
      ok := true;
    }

    /** `toggleVideo`: the first video track follows `!videoOff`. */
    method ToggleVideo() returns (ok: bool)
      modifies this, Shown(local)
      ensures ok <==> local.srcObject != null && local.srcObject.VideoTracks() != []
      ensures ok ==> videoOff == !old(videoOff) && local.srcObject.VideoTracks()[0].enabled == !videoOff
      ensures State() == old(State()).(videoOff := videoOff)
      ensures !ok ==> videoOff == old(videoOff)
      ensures forall t :: t in old(Shown(local)) ==> t.stopped == old(t.stopped)
      ensures forall t :: t in old(Shown(local)) && (!ok || t != local.srcObject.VideoTracks()[0]) ==>
                t.enabled == old(t.enabled)
    {
      if local.srcObject == null {
        return false;
      }
      var tracks := local.srcObject.VideoTracks();
      if tracks == [] {
        return false;
      }
      tracks[0].enabled := videoOff;
      videoOff := !videoOff;
      ok := true;
    }

    /** `swapVideoDevice(deviceId)` as written: stop the shown video track,
        open the new camera, hand its track to the peer, show a new stream of
        the new video track and the old audio tracks, then stop every track
        of the helper stream, the new video track included. `acquired` is
        what `getUserMedia(request)` did; an opened stream has a video track
        and shares no track with the shown one. */
    method SwapVideoDevice(deviceId: string, acquired: Acquisition)
      returns (outcome: DeviceSwapOutcome, request: Option<Constraint>)
      requires acquired.Opened? ==> acquired.stream.VideoTracks() != []
      requires acquired.Opened? && local.srcObject != null ==>
                 forall t :: t in acquired.stream.tracks ==> t !in local.srcObject.tracks
      modifies this, local, Shown(local), if acquired.Opened? then TrackSet(acquired.stream) else {}
      ensures outcome == NoLocalStream <==> old(local.srcObject) == null
      ensures outcome == NoVideoTrack <==> old(local.srcObject) != null && old(local.srcObject.VideoTracks()) == []
      ensures request.Some? <==> outcome in {OpenFailed, Replaced}
      ensures request.Some? ==> request.value == DeviceConstraint(deviceId)
      ensures outcome == OpenFailed <==> request.Some? && acquired.Failed?
      ensures outcome in {OpenFailed, Replaced} ==> old(local.srcObject.VideoTracks())[0].stopped
      ensures outcome != Replaced ==> State() == old(State()) && local.srcObject == old(local.srcObject)
      // the shown tracks: only the old video track is stopped, and no track's `enabled` changes
      ensures outcome == NoVideoTrack ==>
                forall t :: t in old(local.srcObject.tracks) ==> t.stopped == old(t.stopped)
      ensures outcome in {OpenFailed, Replaced} ==>
                var oldTrack := old(local.srcObject.VideoTracks())[0];
                forall t :: t in old(local.srcObject.tracks) && t != oldTrack ==> t.stopped == old(t.stopped)
      ensures old(local.srcObject) != null ==>
                forall t :: t in old(local.srcObject.tracks) ==> t.enabled == old(t.enabled)
      ensures acquired.Opened? ==> forall t :: t in acquired.stream.tracks ==> t.enabled == old(t.enabled)
      ensures acquired.Opened? && outcome != Replaced ==>
                forall t :: t in acquired.stream.tracks ==> t.stopped == old(t.stopped)
      ensures outcome == Replaced ==>
                var shown := old(local.srcObject);
                var oldTrack := old(shown.VideoTracks())[0];
                var newTrack := acquired.stream.VideoTracks()[0];
                && fresh(local.srcObject)
                && local.srcObject.tracks == [newTrack] + old(shown.AudioTracks())
                && State() == old(State()).(ops := old(ops) +
                     (if old(peer).Some? then [ReplaceTrack(old(peer).value.id, oldTrack, newTrack, shown)] else []))
                // the track now shown and sent to the peer is stopped
                && newTrack.stopped
                && (forall t :: t in acquired.stream.tracks ==> t.stopped)
    {
      request := None;
      var shown := local.srcObject;
      if shown == null {
        return NoLocalStream, request;
      }
      var videoTracks := shown.VideoTracks();
      if videoTracks == [] {
        return NoVideoTrack, request;
      }
      var oldTrack := videoTracks[0];
      oldTrack.Stop();
      request := Some(DeviceConstraint(deviceId));
      match acquired {
        case Failed(_) =>
          return OpenFailed, request;
        case Opened(helper) =>
          var newTrack := helper.VideoTracks()[0];
          if peer.Some? {
            ops := ops + [ReplaceTrack(peer.value.id, oldTrack, newTrack, shown)];
          }
          var combined := new MediaStream([newTrack] + shown.AudioTracks());
          local.srcObject := combined;
          StopAll(helper.tracks);
          outcome := Replaced;
      }
    }

    /** `swapVideoDevice` with the helper cleanup of the camera-swap hook
        (useSwapCamera.js): every helper track but the new video track is
        stopped, so the new camera keeps running. */
    method SwapVideoDeviceKeepingNewTrack(deviceId: string, acquired: Acquisition)
      returns (outcome: DeviceSwapOutcome, request: Option<Constraint>)
      requires acquired.Opened? ==> acquired.stream.VideoTracks() != []
      requires acquired.Opened? && local.srcObject != null ==>
                 forall t :: t in acquired.stream.tracks ==> t !in local.srcObject.tracks
      modifies this, local, Shown(local), if acquired.Opened? then TrackSet(acquired.stream) else {}
      ensures outcome == NoLocalStream <==> old(local.srcObject) == null
      ensures outcome == NoVideoTrack <==> old(local.srcObject) != null && old(local.srcObject.VideoTracks()) == []
      ensures request.Some? <==> outcome in {OpenFailed, Replaced}
      ensures request.Some? ==> request.value == DeviceConstraint(deviceId)
      ensures outcome == OpenFailed <==> request.Some? && acquired.Failed?
      ensures outcome in {OpenFailed, Replaced} ==> old(local.srcObject.VideoTracks())[0].stopped
      ensures outcome != Replaced ==> State() == old(State()) && local.srcObject == old(local.srcObject)
      // the shown tracks: only the old video track is stopped, and no track's `enabled` changes
      ensures outcome == NoVideoTrack ==>
                forall t :: t in old(local.srcObject.tracks) ==> t.stopped == old(t.stopped)
      ensures outcome in {OpenFailed, Replaced} ==>
                var oldTrack := old(local.srcObject.VideoTracks())[0];
                forall t :: t in old(local.srcObject.tracks) && t != oldTrack ==> t.stopped == old(t.stopped)
      ensures old(local.srcObject) != null ==>
                forall t :: t in old(local.srcObject.tracks) ==> t.enabled == old(t.enabled)
      ensures acquired.Opened? ==> forall t :: t in acquired.stream.tracks ==> t.enabled == old(t.enabled)
      ensures acquired.Opened? && outcome != Replaced ==>
                forall t :: t in acquired.stream.tracks ==> t.stopped == old(t.stopped)
      ensures outcome == Replaced ==>
                var shown := old(local.srcObject);
                var oldTrack := old(shown.VideoTracks())[0];
                var newTrack := acquired.stream.VideoTracks()[0];
                && fresh(local.srcObject)
                && local.srcObject.tracks == [newTrack] + old(shown.AudioTracks())
                && State() == old(State()).(ops := old(ops) +
                     (if old(peer).Some? then [ReplaceTrack(old(peer).value.id, oldTrack, newTrack, shown)] else []))
                // the track now shown and sent to the peer keeps running
                && newTrack.stopped == old(newTrack.stopped)
                && (forall t :: t in acquired.stream.tracks && t != newTrack ==> t.stopped)
    {
      request := None;
      var shown := local.srcObject;
      if shown == null {
        return NoLocalStream, request;
      }
      var videoTracks := shown.VideoTracks();
      if videoTracks == [] {
        return NoVideoTrack, request;
      }
      var oldTrack := videoTracks[0];
      oldTrack.Stop();
      request := Some(DeviceConstraint(deviceId));
      match acquired {
        case Failed(_) =>
          return OpenFailed, request;
        case Opened(helper) =>
          var newTrack := helper.VideoTracks()[0];
          if peer.Some? {
            ops := ops + [ReplaceTrack(peer.value.id, oldTrack, newTrack, shown)];
          }
          var combined := new MediaStream([newTrack] + shown.AudioTracks());
          local.srcObject := combined;
          StopAllExcept(helper.tracks, newTrack);
          outcome := Replaced;
      }
    }
  }
}
