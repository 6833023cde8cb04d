/** How the current client and the current server fit together: what one
    session emits, routed by the server, does to the other session. */
module CallFlow {
  import opened Common
  import opened Presence
  import opened PeerConnection
  import opened CallSession

  /** A caller's offer reaches a registered callee as `incoming-call` from the
      caller's registered user id, payload untouched, and makes an idle
      callee ring with that offer held and the caller as its callee. */
  lemma {:induction false} OfferRingsCallee(caller: SessionState, e: seq<Entry>, callerSocket: SocketId,
                                            calleeId: UserId, calleeSocket: SocketId,
                                            offer: SignalData, receiver: SessionState)
    requires DistinctUsers(e) && Entry(calleeId, calleeSocket) in e && calleeSocket != ""
    requires caller.route == Some(ToCallUser(Some(calleeId)))
    requires receiver.offer.None? && offer.sdpType == Some("offer")
    ensures var sent := AfterPeerSignal(caller, offer).emitted;
            sent == caller.emitted + [CallUserMsg(Some(calleeId), offer)]
    ensures RouteCallUser(e, callerSocket, calleeId, offer) ==
              [SendTo(calleeSocket, IncomingCall(FirstUserOf(e, callerSocket), offer))]
    ensures var rung := AfterIncomingCall(receiver, FirstUserOf(e, callerSocket), offer);
            rung.status == Ringing && rung.offer == Some(offer) && rung.callee == FirstUserOf(e, callerSocket)
  {
    LookupIsMembership(e, calleeId, calleeSocket);
  }

  /** The answerer's signals go back as `answer-call` to the callee it had
      when it started; the server forwards them without a sender id, and the
      caller hands each to its peer. */
  lemma {:induction false} AnswerReachesCallerPeer(answerer: SessionState, e: seq<Entry>,
                                                   callerId: UserId, callerSocket: SocketId,
                                                   answer: SignalData, caller: SessionState)
    requires DistinctUsers(e) && Entry(callerId, callerSocket) in e && callerSocket != ""
    requires answerer.route == Some(ToAnswerCall(Some(callerId)))
    requires caller.link.current.Some?
    ensures AfterPeerSignal(answerer, answer).emitted == answerer.emitted + [AnswerCallMsg(Some(callerId), answer)]
    ensures RouteVerbatim(e, callerId, CallAnswered(None, answer)) ==
              [SendTo(callerSocket, CallAnswered(None, answer))]
    ensures AfterCallAnswered(caller, answer).link.ops ==
              caller.link.ops + [Signal(caller.link.current.value.id, answer)]
  {
    LookupIsMembership(e, callerId, callerSocket);
  }

  /** Every signal of the calling peer travels as `call-user`, so the caller's
      trickled ICE candidates arrive at the callee as `incoming-call`, which
      neither buffers them nor hands them to a peer: apart from the callee
      field, the callee's state is untouched. */
  lemma {:induction false} CallerCandidatesNotDelivered(caller: SessionState, e: seq<Entry>, callerSocket: SocketId,
                                                        calleeId: UserId, calleeSocket: SocketId,
                                                        cand: SignalData, receiver: SessionState)
    requires DistinctUsers(e) && Entry(calleeId, calleeSocket) in e && calleeSocket != ""
    requires caller.route == Some(ToCallUser(Some(calleeId)))
    requires !IsSessionDescription(cand)
    ensures AfterPeerSignal(caller, cand).emitted == caller.emitted + [CallUserMsg(Some(calleeId), cand)]
    ensures RouteCallUser(e, callerSocket, calleeId, cand) ==
              [SendTo(calleeSocket, IncomingCall(FirstUserOf(e, callerSocket), cand))]
    ensures var after := AfterIncomingCall(receiver, FirstUserOf(e, callerSocket), cand);
            after.(callee := receiver.callee) == receiver &&
            after.backlog == receiver.backlog && after.link == receiver.link
  {
    LookupIsMembership(e, calleeId, calleeSocket);
  }
}
