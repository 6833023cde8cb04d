/** Shared vocabulary of the signaling server and the two client generations. */
module Common {

  datatype Option<+T> = None | Some(value: T)

  /** A logical user identifier, as chosen at login and sent with `identify`. */
  type UserId = string

  /** A transport connection identifier (a socket id handed out by the server). */
  type SocketId = string

  /** An opaque negotiation payload produced and consumed by the peer library.
      `sdpType` is its `type` property when it has one ("offer", "answer",
      "candidate", ...); `body` stands for everything else in it. */
  datatype SignalData = SignalData(sdpType: Option<string>, body: string)

  /** The client call status shown by both client generations. */
  datatype Status = Idle | Calling | Ringing | Answering | InCall

  /** JavaScript truthiness of an optional (possibly undefined) string. */
  predicate Truthy(s: Option<string>)
  {
    s.Some? && s.value != ""
  }
}
