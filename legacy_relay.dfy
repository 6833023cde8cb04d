/** The first-generation signaling server (video-signaling-server/index.js): a
    stateless relay that addresses connections directly by socket id and
    stamps each forwarded message with the sender's socket id. */
module LegacyRelay {
  import opened Common

  /** Client-to-server messages. `to` is whatever the client sent (it may be
      null when the client has no peer id yet); `reason` may be absent. */
  datatype Inbound =
    | CallRequest(to: Option<SocketId>)
    | CallAccept(to: Option<SocketId>)
    | CallDecline(to: Option<SocketId>, reason: Option<string>)
    | Signal(to: Option<SocketId>, data: SignalData)

  /** Server-to-client messages; `from` is the sender's socket id. */
  datatype Outbound =
    | CallRequestFrom(from: SocketId)
    | CallAcceptFrom(from: SocketId)
    | CallDeclineFrom(from: SocketId, reason: Option<string>)
    | SignalFrom(from: SocketId, data: SignalData)

  /** `io.to(to).emit(...)`: the room named by `to`, used verbatim. */
  datatype Delivery = Delivery(to: Option<SocketId>, msg: Outbound)

  /** The one delivery each inbound message causes. */
  function Relay(sender: SocketId, m: Inbound): (d: Delivery)
    ensures d.to == m.to
    ensures d.msg.from == sender
    ensures m.CallRequest? <==> d.msg.CallRequestFrom?
    ensures m.CallAccept? <==> d.msg.CallAcceptFrom?
    ensures m.CallDecline? <==> d.msg.CallDeclineFrom?
    ensures m.Signal? <==> d.msg.SignalFrom?
  {
    match m
    case CallRequest(to) => Delivery(to, CallRequestFrom(sender))
    case CallAccept(to) => Delivery(to, CallAcceptFrom(sender))
    case CallDecline(to, reason) => Delivery(to, CallDeclineFrom(sender, reason))
    case Signal(to, data) => Delivery(to, SignalFrom(sender, data))
  }

  /** The message a client would have had to send to cause delivery `d`. */
  function Origin(d: Delivery): (m: Inbound)
  {
    match d.msg
    case CallRequestFrom(_) => CallRequest(d.to)
    case CallAcceptFrom(_) => CallAccept(d.to)
    case CallDeclineFrom(_, reason) => CallDecline(d.to, reason)
    case SignalFrom(_, data) => Signal(d.to, data)
  }

  /** Nothing but the sender stamp is added: the original message, payload and
      reason included, is recoverable from what is delivered. */
  lemma RelayRoundTrip(sender: SocketId, m: Inbound)
    ensures Origin(Relay(sender, m)) == m
    ensures Relay(sender, Origin(Relay(sender, m))) == Relay(sender, m)
  {
    match m
    case CallRequest(_) =>
    case CallAccept(_) =>
    case CallDecline(_, _) =>
    case Signal(_, _) =>
  }

  /** Distinct messages from one sender are delivered as distinct messages, and
      deliveries from distinct senders are told apart by `from`. */
  lemma RelayInjective(s1: SocketId, m1: Inbound, s2: SocketId, m2: Inbound)
    ensures Relay(s1, m1) == Relay(s2, m2) <==> s1 == s2 && m1 == m2
  {
    if Relay(s1, m1) == Relay(s2, m2) {
      RelayRoundTrip(s1, m1);
      RelayRoundTrip(s2, m2);
    }
  }
}
