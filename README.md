# Video calling control plane in Dafny

This project models the control plane of a browser-to-browser video calling
application: the signaling server that maps user ids to socket connections
and relays call set-up messages, and the client-side call session that turns
those messages into operations on a WebRTC peer. Media, sockets, the peer
library and React are opaque. Acquiring media is an input that may fail.
Every call made on a peer (`signal`, `replaceTrack`, `destroy`, construction)
is recorded in a trace, and so is every socket emission. React state setters
are immediate assignments, and each event handler is one atomic step.

Modules, one per source file, plus three shared modules (`CallFlow`,
`Common` and `Media`):

- `Presence` (`video-signaling-server/server.js`). The `userSockets`
  registry is a sequence of (user, socket) entries in property order. The
  `identify` and `disconnect` handlers are methods of `SignalingServer`, and
  `disconnect` keeps its loop with `break`. The three relay handlers route
  through pure functions.
- `LegacyRelay` (`video-signaling-server/index.js`). This is the stateless
  first-generation relay: one function from an inbound message to one
  delivery, and its inverse.
- `PeerConnection` (`video-client/src/hooks/usePeerConnection.js`). It
  covers:
  - the ICE-server list;
  - the `peerRef` slot and the peer trace (class `PeerLink`);
  - `destroyPeer`;
  - the listeners attached to each peer.
- `LocalStream` (`video-client/src/hooks/useLocalStream.js`). The selector-to-
  constraint mapping, and `getLocalStream`, which attaches the stream or
  rethrows.
- `SwapCamera` (`video-client/src/hooks/useSwapCamera.js`). The camera swap
  effect. It edits the original stream's track list in place, stops the old
  track, and stops the helper tracks other than the new one.
- `CallSession` (`video-client/src/hooks/useCall.js`). The call session as
  class `Session`: incoming call, answer and candidate handling, the
  candidate backlog, `startCall`, the peer's `signal` route, cleanup,
  hangup and the toggles. It has a value-level state `SessionState`, with
  one specification function per handler.
- `LegacyApp` (`video-client/src/App.js`). The first-generation client,
  written against the stateless relay's protocol.
- `CallFlow`. Lemmas that join `CallSession` and `Presence`: what one
  session emits, as routed by the server, does to the other session.
- `Common` and `Media`. Shared ids and payloads, plus the browser media
  objects: tracks and streams as objects, because the swap code depends on
  track identity and aliasing.

`Session`, `App` and `PeerLink` expose a ghost value of their state
(`Core()` or `State()`), and most of their handlers ensure that the new
state is a specification function applied to the old one; the properties
are proved about those functions. The server's state is its two fields,
and its handlers state the new fields through the registry functions. The
camera swaps, `AcquireLocal` and the toggles state their effects clause by
clause.

## Model

| member | source | states |
|---|---|---|
| Presence.Lookup | video-signaling-server/server.js:60 | absent exactly when the registry has no entry for the user; a found socket is that user's registered entry |
| Presence.LookupIsMembership | video-signaling-server/server.js:60 | with distinct user ids, the lookup of `u` yields `s` iff (u, s) is registered |
| Presence.Upsert | video-signaling-server/server.js:39 | afterwards `u` maps to `s`; every other user's lookup is unchanged; keys are kept, or `u` is appended when new; distinct user ids stay distinct |
| Presence.UpsertOthers | video-signaling-server/server.js:39 | overwriting or appending `u` changes no other user's lookup |
| Presence.Keys | video-signaling-server/server.js:41 | the key list has one key per entry, in entry order |
| Presence.OnlineListIsKeySet | video-signaling-server/server.js:41 | the broadcast list names each registered user exactly once and nothing else |
| Presence.SignalingServer.constructor | video-signaling-server/server.js:20 | the registry starts empty, with distinct user ids, and nothing has been sent |
| Presence.SignalingServer.Identify | video-signaling-server/server.js:38-42 | the registry becomes the upsert of (userId, sender); exactly one broadcast of the new key list follows; distinct user ids are kept |
| Presence.IdentifyAllKeys | video-signaling-server/server.js:38-41 | after any run of identifies, user ids are distinct and the keys are the old keys plus exactly the ids named |
| Presence.IdentifyAllUntouched | video-signaling-server/server.js:39 | identifies that never name `u` leave `u`'s mapping alone |
| Presence.IdentifyAllLastWins | video-signaling-server/server.js:39 | after any run of identifies, a user maps to the socket of its last identify |
| Presence.IdentifyAllAppend | video-signaling-server/server.js:38-39 | two batches of identifies equal their concatenation |
| Presence.FirstUserOf | video-signaling-server/server.js:64-66 | absent iff the registry has no entry with that socket; otherwise the user of the first entry with that socket |
| Presence.RemoveFirst | video-signaling-server/server.js:46-52 | with no entry for the socket the registry is unchanged; otherwise exactly one entry goes; nothing is added |
| Presence.RemoveFirstAtMostOne | video-signaling-server/server.js:46-52 | disconnect removes one entry iff the socket is registered, otherwise none; the entry removed is the first of that socket, and the others, later entries of the same socket included, keep their order; user ids stay distinct |
| Presence.SignalingServer.Disconnect | video-signaling-server/server.js:45-54 | the loop deletes exactly the first entry of the socket; the key list is broadcast whether or not anything was deleted |
| Presence.DisconnectLeavesSecondIdentity | video-signaling-server/server.js:46-52 | a socket registered under two ids keeps the second after it disconnects |
| Presence.RouteCallUser | video-signaling-server/server.js:59-72 | at most one delivery, none iff the target is unregistered; it goes to the target's registered socket with the payload untouched; the sender id is absent iff the registry has no entry with the sender's socket, and otherwise is the user of the first such entry |
| Presence.SignalingServer.CallUser | video-signaling-server/server.js:59-72 | the registry is unchanged; the outbox grows by the call-user routing |
| Presence.RouteVerbatim | video-signaling-server/server.js:74-86 | at most one delivery, none iff the target is unregistered; the event is forwarded exactly as given to the target's registered socket |
| Presence.SignalingServer.AnswerCall | video-signaling-server/server.js:74-79 | the registry is unchanged; `call-answered` carries the client-supplied sender id and payload |
| Presence.SignalingServer.IceCandidate | video-signaling-server/server.js:81-86 | the registry is unchanged; `ice-candidate` carries the client-supplied sender id and candidate |
| Presence.AliceCallsBob | video-signaling-server/server.js:38-72 | after alice and bob identify, alice's call to bob reaches bob's socket from "alice" with the offer untouched; a call to an unknown id reaches nobody |
| LegacyRelay.Relay | video-signaling-server/index.js:13-28 | each message goes verbatim to its `to`, stamped with the sender's socket id, with the same kind |
| LegacyRelay.RelayRoundTrip | video-signaling-server/index.js:13-28 | the original message, payload and reason included, can be recovered from the delivery |
| LegacyRelay.RelayInjective | video-signaling-server/index.js:13-28 | two deliveries are equal iff the senders and the messages are equal |
| PeerConnection.IceServers | video-client/src/hooks/usePeerConnection.js:29-52 | one or two servers; STUN comes first; a second entry exists iff a TURN url is set, and it carries the configured user name and credential |
| PeerConnection.BuildIceServers | video-client/src/hooks/usePeerConnection.js:28-53 | the push-built list equals that configuration |
| PeerConnection.PeerLink.constructor | video-client/src/hooks/usePeerConnection.js:21 | the peer slot starts empty, no peer has been built, and the trace is empty |
| PeerConnection.PeerLink.CreatePeer | video-client/src/hooks/usePeerConnection.js:23-113 | a new peer with a fresh id is stored in the slot and returned; its construction with the ICE configuration is recorded |
| PeerConnection.PeerLink.SignalPeer | video-client/src/hooks/useCall.js:50 | one signal on the current peer is appended; the slot is unchanged |
| PeerConnection.PeerLink.SignalEach | video-client/src/hooks/useCall.js:92-94 | the loop appends one signal per payload, in order, on the current peer |
| PeerConnection.SignalOpsDeliverInOrder | video-client/src/hooks/useCall.js:92-94 | such a batch hands the peer exactly the payloads, in order, and nothing to another peer |
| PeerConnection.PayloadsAppend | video-client/src/hooks/useCall.js:92-94 | the payloads of concatenated traces concatenate |
| PeerConnection.PeerLink.ReplaceTrackOnPeer | video-client/src/hooks/useSwapCamera.js:41 | one replaceTrack on the current peer is appended |
| PeerConnection.AfterDestroy | video-client/src/hooks/usePeerConnection.js:115-122 | the slot is empty afterwards; a present peer is destroyed once; no peer means no effect |
| PeerConnection.PeerLink.DestroyPeer | video-client/src/hooks/usePeerConnection.js:115-122 | the new state is that destroy function applied to the old state |
| PeerConnection.DestroyIdempotent | video-client/src/hooks/usePeerConnection.js:115-122 | a second destroy changes nothing |
| PeerConnection.Dispatch | video-client/src/hooks/usePeerConnection.js:56-105 | `close` runs `onEnded`, and only `close` does; `stream` runs `onRemoteStream` with that stream; a "failed" state runs `onConnectionFailed` iff it is a function, and a throw from it is caught, so the reaction has no error case; errors and signals are only logged |
| LocalStream.VideoConstraint | video-client/src/hooks/useLocalStream.js:9-15 | "default" maps to any device, "front" to ideal user, "back" to ideal environment, and anything else to that exact device, each iff |
| LocalStream.DeviceConstraint | video-client/src/hooks/useLocalStream.js:17-19 | "default" maps to any device; anything else maps to that exact device |
| LocalStream.VideoConstraintRoundTrip | video-client/src/hooks/useLocalStream.js:9-15 | the selector can be recovered from the video constraint |
| LocalStream.VideoConstraintInjective | video-client/src/hooks/useLocalStream.js:9-15 | distinct selectors request distinct video constraints |
| LocalStream.DeviceConstraintInjective | video-client/src/hooks/useLocalStream.js:17-19 | distinct selectors request distinct device constraints |
| LocalStream.GetLocalStream | video-client/src/hooks/useLocalStream.js:7-34 | the requested constraints are the mapping of both selectors; an opened stream is attached when a preview exists and returned; a failure is rethrown and nothing is attached |
| Media.StopAll | video-client/src/hooks/useCall.js:112 | every listed track is stopped; `enabled` is untouched |
| Media.StopAllExcept | video-client/src/hooks/useSwapCamera.js:53-55 | every listed track but `keep` is stopped; `keep` is untouched |
| Media.Release | video-client/src/hooks/useCall.js:111-114 | every track the element showed is stopped, and the element's source is null |
| SwapCamera.CameraSwap.constructor | video-client/src/hooks/useSwapCamera.js:10 | the remembered selection starts as "default" |
| SwapCamera.CameraSwap.OnSelect | video-client/src/hooks/useSwapCamera.js:12-57 | the selection is always recorded; each early exit is characterised and touches nothing. Once the camera opens: the original stream holds its tracks minus the old video plus the new video; the old track is stopped and the new one's stopped flag is untouched; the peer gets one replaceTrack iff it exists; the preview shows the original; the other helper tracks are stopped; no track's `enabled` changes, so the new camera's track is installed as the camera gave it |
| SwapCamera.Exchange | video-client/src/hooks/useSwapCamera.js:40-47 | replaceTrack iff a peer exists; in-place remove and add; the old track is stopped |
| SwapCamera.SwapKeepsAudio | video-client/src/hooks/useSwapCamera.js:44-46 | the swap leaves the audio tracks identical and in order; among the video tracks the new one replaces the old one |
| SwapCamera.OfKindAppend | video-client/src/hooks/useSwapCamera.js:46 | filtering by kind distributes over an append |
| SwapCamera.WithoutOtherKind | video-client/src/hooks/useSwapCamera.js:45 | removing a video track leaves the tracks of other kinds alone |
| SwapCamera.WithoutCommutes | video-client/src/hooks/useSwapCamera.js:45 | removing a track commutes with filtering by kind |
| CallSession.Session.constructor | video-client/src/hooks/useCall.js:15-21 | idle, with no callee, no offer, both toggles off, no original stream and an empty backlog; no route, emission or notice yet |
| CallSession.AfterIncomingCall | video-client/src/hooks/useCall.js:38-48 | the sender always becomes the callee; the payload is held and the session rings iff no offer is held and the type is "offer" or "answer"; nothing else changes |
| CallSession.Session.HandleIncomingCall | video-client/src/hooks/useCall.js:38-48 | the new state is that function applied to the old state |
| CallSession.AfterCallAnswered | video-client/src/hooks/useCall.js:49-51 | with a peer, the answer is signalled to it; without one, it is dropped and not buffered |
| CallSession.Session.HandleCallAnswered | video-client/src/hooks/useCall.js:49-51 | the new state is that function applied to the old state |
| CallSession.AfterIceCandidate | video-client/src/hooks/useCall.js:52-58 | with a peer, the candidate is signalled to it; without one, it is appended to the backlog; it is never dropped |
| CallSession.Session.HandleIceCandidate | video-client/src/hooks/useCall.js:52-58 | the new state is that function applied to the old state |
| CallSession.AfterStart | video-client/src/hooks/useCall.js:71-107 | status is "calling" or "answering"; the stream becomes the original; the backlog is empty; the slot holds a new peer on the stream; the route depends on the role; an answerer with an offer clears the offer; callee, toggles and emissions are kept |
| CallSession.StartFeedsBacklogThenOffer | video-client/src/hooks/useCall.js:88-107 | the earlier trace is kept; the peer is built with the ICE configuration; then it is fed exactly the backlog in arrival order, followed by the offer when answering with one, all on that peer |
| CallSession.EarlyCandidateReachesNextPeer | video-client/src/hooks/useCall.js:52-58 | a candidate that arrives with no peer is handed to the next peer started |
| CallSession.AfterStartAborted | video-client/src/hooks/useCall.js:72-87 | only the status and the notices change |
| CallSession.Session.AcquireLocal | video-client/src/hooks/useCall.js:73-83 | a supplied stream is used as is; if the supply rejects, an error notice and the audio-only fallback, shown locally; it rejects iff the fallback fails or the local element is missing |
| CallSession.Session.Launch | video-client/src/hooks/useCall.js:88-107 | the new state is the start function applied to the old state; the returned peer is the new one |
| CallSession.Session.StartCall | video-client/src/hooks/useCall.js:71-108 | it rejects iff the supply throws and the fallback cannot be shown, and stops early iff no stream is supplied, each with its notice; otherwise it starts on the chosen stream |
| CallSession.AfterPeerSignal | video-client/src/hooks/useCall.js:97-103 | with no started call, nothing is emitted; otherwise exactly one emission with the payload untouched: call-user to the target as caller, answer-call to the start-time callee as answerer |
| CallSession.Session.OnPeerSignal | video-client/src/hooks/useCall.js:97-103 | the new state is that function applied to the old state |
| CallSession.AfterRemoteStream | video-client/src/hooks/useCall.js:26-31 | "in-call" and its notice iff a remote element exists; nothing else changes |
| CallSession.Session.OnRemoteStream | video-client/src/hooks/useCall.js:26-31 | the remote element shows the stream; the state follows that function |
| CallSession.Session.OnPeerEvent | video-client/src/hooks/useCall.js:23-34 | a signal follows the route; a stream is the remote-stream callback and is shown on the remote element; close is a cleanup that releases both elements; errors and connection states change nothing; only close stops or detaches anything, and no event changes a track's `enabled` |
| CallSession.AfterCleanup | video-client/src/hooks/useCall.js:115-119 | idle, with no callee, no offer and both toggles off; backlog, peer slot, route and original stream are kept |
| CallSession.Session.Cleanup | video-client/src/hooks/useCall.js:110-120 | both elements are released, so every shown track is stopped with `enabled` untouched and the sources are null; the state follows that function |
| CallSession.AfterHangup | video-client/src/hooks/useCall.js:124-127 | destroy, then cleanup: the slot is empty and nothing is emitted |
| CallSession.Session.Hangup | video-client/src/hooks/useCall.js:124-127 | both elements are released, every shown track stopped with `enabled` untouched; the state follows that function |
| CallSession.HangupIdempotent | video-client/src/hooks/useCall.js:110-127 | a second hangup, or the close event's cleanup after a hangup, changes nothing |
| CallSession.TransitionsKeepNoStrayBacklog | video-client/src/hooks/useCall.js:52-107 | no transition leaves a backlog while a peer exists |
| CallSession.LateOfferRingsDuringCall | video-client/src/hooks/useCall.js:40-47 | mid-call, once the held offer has been consumed, a new offer rings again |
| CallSession.SecondCallerTakesOverAnswer | video-client/src/hooks/useCall.js:39-47 | a second caller's ignored payload still takes over the callee, so the answer to the first caller's offer is routed to the second caller |
| CallSession.Session.ToggleMute | video-client/src/hooks/useCall.js:128-132 | the flag flips and the first audio track's `enabled` becomes `!muted`; with no stream or track, nothing changes |
| CallSession.Session.ToggleVideo | video-client/src/hooks/useCall.js:133-137 | the flag flips and the first video track's `enabled` becomes `!videoOff`; with no stream or track, nothing changes |
| CallFlow.OfferRingsCallee | video-client/src/hooks/useCall.js:97-99 | the caller's offer leaves as call-user; the server delivers it to the registered callee from the caller's registered id; an idle callee rings holding it |
| CallFlow.AnswerReachesCallerPeer | video-signaling-server/server.js:74-79 | the answerer's signal leaves as answer-call to the start-time callee; it arrives without a sender id and is signalled to the caller's peer |
| CallFlow.CallerCandidatesNotDelivered | video-signaling-server/server.js:59-72 | the caller's candidates travel as call-user and arrive as incoming-call; the callee neither buffers nor signals them |
| LegacyApp.App.constructor | video-client/src/App.js:12-24 | idle, with no remote id, both toggles off, both selections "default", an empty peer slot and no peer built; no route, peer call or emission yet |
| LegacyApp.AfterReset | video-client/src/App.js:204-209 | idle, no remote id, toggles off; everything else, the peer slot included, is kept |
| LegacyApp.App.Reset | video-client/src/App.js:204-209 | the new state is that function applied to the old state |
| LegacyApp.AfterCallUser | video-client/src/App.js:160-164 | the remote id is the callee; "calling"; exactly one call-request to it |
| LegacyApp.App.CallUser | video-client/src/App.js:160-164 | the new state is that function applied to the old state |
| LegacyApp.AfterCallRequest | video-client/src/App.js:78-81 | rings for the requester with no busy guard |
| LegacyApp.App.OnCallRequest | video-client/src/App.js:78-81 | the new state is that function applied to the old state |
| LegacyApp.CallRequestHasNoBusyGuard | video-client/src/App.js:78-81 | mid-call requests ring and take over the remote id, while the peer's signals still go to the old partner |
| LegacyApp.AfterSignal | video-client/src/App.js:87-89 | handed to the peer in the slot if there is one, dropped otherwise |
| LegacyApp.App.OnSignal | video-client/src/App.js:87-89 | the new state is that function applied to the old state |
| LegacyApp.MediaConstraints | video-client/src/App.js:143-153 | each selector maps to any device iff it is "default", and otherwise to that exact device |
| LegacyApp.AfterStartPeer | video-client/src/App.js:167-177 | a new default-configured peer fills the slot; the route captures the remote id; "in-call" at once |
| LegacyApp.App.StartPeer | video-client/src/App.js:143-177 | requests the mapped constraints; a failed acquisition changes nothing; an opened stream is shown locally and the peer is started |
| LegacyApp.App.OnCallAccept | video-client/src/App.js:82 | the caller starts an initiating peer and shows the opened stream locally; a failed acquisition changes nothing |
| LegacyApp.App.AcceptCall | video-client/src/App.js:180-184 | "calling" and call-accept to the remote id, then a non-initiating peer with the opened stream shown locally; a failed acquisition leaves the preview as it was |
| LegacyApp.AfterDecline | video-client/src/App.js:187-190 | call-decline to the remote id with reason "Busy", then reset |
| LegacyApp.App.DeclineCall | video-client/src/App.js:187-190 | the new state is that function applied to the old state |
| LegacyApp.App.OnCallDecline | video-client/src/App.js:83-86 | reset |
| LegacyApp.AfterPeerSignal | video-client/src/App.js:170 | one signal emission to the captured remote id, payload untouched |
| LegacyApp.App.OnPeerSignal | video-client/src/App.js:170 | the new state is that function applied to the old state |
| LegacyApp.App.OnRemoteStream | video-client/src/App.js:171-174 | the remote element shows the stream |
| LegacyApp.AfterHangUp | video-client/src/App.js:193-202 | the peer in the slot is destroyed but left there; reset; nothing emitted |
| LegacyApp.App.HangUp | video-client/src/App.js:193-202 | every track of both elements is stopped with `enabled` untouched and both sources are null; the state follows that function |
| LegacyApp.SignalAfterHangUpReachesDestroyedPeer | video-client/src/App.js:87-89 | a signal after hangup is handed to the destroyed peer |
| LegacyApp.HangUpTwiceDestroysTwice | video-client/src/App.js:193-209 | a second hangUp destroys the same peer again; reset is idempotent |
| LegacyApp.RequestThenAcceptRoundTrip | video-client/src/App.js:160-184 | a request through the relay reaches the callee stamped with the caller's socket, and the acceptance goes straight back to that socket |
| LegacyApp.App.ToggleMute | video-client/src/App.js:212-216 | the flag flips and the first audio track's `enabled` becomes `!muted` |
| LegacyApp.App.ToggleVideo | video-client/src/App.js:217-221 | the flag flips and the first video track's `enabled` becomes `!videoOff` |
| LegacyApp.App.SwapVideoDevice | video-client/src/App.js:41-73 | as written: the old track is stopped even when the open fails, and it is the only shown track stopped; without an opened camera the preview keeps its stream; a new stream of the new video track plus the old audio is shown; replaceTrack iff a peer exists; every helper track, the new video track included, ends stopped; no track's `enabled` changes |
| LegacyApp.App.SwapVideoDeviceKeepingNewTrack | video-client/src/App.js:41-73 | corrected: the same, except that the swap does not stop the new video track and stops only the helper tracks other than the new video track |
| LegacyApp.App.SelectVideo | video-client/src/App.js:287 | the video selection becomes the picked device, so the next request asks for it; the audio request is unchanged |
| LegacyApp.App.SelectAudio | video-client/src/App.js:288 | the audio selection becomes the picked device, so the next request asks for it; the video request is unchanged |

## Left out

- The HTTP user directory, server start-up, CORS, `listen`, and the client
  socket configuration are I/O plumbing.
- User and socket ids are strings. JavaScript coerces other keys to
  property names, and enumerates array-index-like keys first. The registry
  keeps plain insertion order.
- Presence.Upsert: a user id spelt `__proto__` is stored as an ordinary
  entry. In the source, assigning a string to `userSockets["__proto__"]`
  changes nothing, and the id never shows up in `Object.keys`. User ids are
  assumed not to name `Object.prototype` members.
- Presence.Lookup: an unregistered id that names an inherited
  `Object.prototype` member (`constructor`, `toString`, `__proto__`) looks
  up as absent here. In the source it reads a truthy inherited value, passes
  the `if (!targetSocket)` and `if (targetSid)` guards, and is passed to
  `io.to`. So RouteCallUser and RouteVerbatim deliver nothing for such ids,
  where the source emits to a room that no connection has joined.
- Presence.SignalingServer.CallUser: `toUserId` is a string, so a missing
  id (looked up as the key "undefined") is not modelled.
- Presence.SignalingServer.AnswerCall: the same holds for its `toUserId`.
  An answerer whose caller never identified sends `toUserId: undefined`,
  and the server looks up the key "undefined"; the model has no such case.
- Presence.SignalingServer.IceCandidate: the same holds for its `toUserId`.
- SimplePeer, RTCPeerConnection and `getUserMedia` are opaque. Peers are
  value handles plus a trace of calls. Acquisition is an input. Opened
  streams are assumed to carry a video track when video was requested, and
  to share no track with the stream they replace.
- The 500 ms observer attachment is reduced to its failed-state rule, and
  `useCall` passes no `onConnectionFailed`. Console logging, `alert` and
  `prompt` are left out.
- Async interleaving, stale closures and effect re-subscription are left
  out: each handler runs as one atomic step on the latest state. The one
  captured value that matters, the callee or remote id seen by a peer's
  `signal` listener, is kept as the route.
- CallSession.Session.StartCall: the state changes of the `await`s are
  applied in source order within the one step, so another event cannot
  land between the status change and the peer's construction.
- LegacyApp.App.AcceptCall: every effect of `startPeer` is placed after the
  emission of call-accept, matching the first suspension of `startPeer`.
- The optional `onStatus` and `onError` callbacks are assumed present;
  `notices` lists what they receive.
- In App.js, `swapDevices` (lines 98-140), `switchCamera` (lines 222-245)
  and the selection-change guard of `swapVideoDevice` (lines 33-38) are not
  modelled. The guard and `swapDevices` run on the same selection change and
  interleave across `await`s, which the atomic-step model does not capture.
- CallSession.Session.ToggleVideo: `videoOff` and the first video track's
  `enabled` agree right after a toggle, but no invariant keeps them
  together. A camera swap (SwapCamera.CameraSwap.OnSelect) installs the new
  camera's track with `enabled` as the camera gave it, whatever `videoOff`
  says. So with video off, a swap can send video again while the flag still
  says it is off. The model proves the swap leaves `enabled` untouched, and
  leaves the flag-to-track relation unstated.
- LegacyApp.App.ToggleVideo: the same holds for the first-generation
  client. LegacyApp.App.SwapVideoDevice shows the new track without looking
  at `videoOff`.
- Device enumeration (`useMediaDevices.js`) and the UI components only
  render.
- The code has no hangup relay, no retry budget and no call timeout, so
  none is modelled.

Behaviours of the code worth noting:

- Candidates buffered before the peer exists reach it ahead of the
  remembered offer (StartFeedsBacklogThenOffer).
- `hangup` emits nothing; the protocol has no hangup message.
- A second offer mid-call can ring: once answering has consumed the held
  offer, a new one rings again (LateOfferRingsDuringCall).
- The audio-only fallback runs whenever the supplied `getLocalStream`
  rejects, whatever the reason.
- The first-generation client reports "in-call" as soon as its peer is
  built, before any remote media arrives.

## Findings

| source | as written | input that shows it | evidently intended | confidence | as-written member | corrected member |
|---|---|---|---|---|---|---|
| video-client/src/App.js:72 | `newVidStream.getTracks().forEach((t) => t.stop())` stops every helper track, including the new video track that line 68 put in the preview stream and line 63 handed to `replaceTrack` | any swap whose camera opens: `SwapVideoDevice(d, Opened(s))` ends with `s`'s first video track stopped while that track is the shown stream's video track | stop only the helper tracks other than the new video track, as useSwapCamera.js:53-55 does | not executed | LegacyApp.App.SwapVideoDevice | LegacyApp.App.SwapVideoDeviceKeepingNewTrack |
