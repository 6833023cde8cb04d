/** The signaling server of the current generation (video-signaling-server/server.js):
    an in-memory presence registry from user id to socket id, and three relay
    handlers that resolve a target user id through it. */
module Presence {
  import opened Common

  /** One own property of the `userSockets` object. */
  datatype Entry = Entry(user: UserId, socket: SocketId)

  /** Server-to-client events. */
  datatype Event =
    | OnlineList(users: seq<UserId>)
    | IncomingCall(fromUserId: Option<UserId>, signalData: SignalData)
    | CallAnswered(fromUserId: Option<UserId>, signalData: SignalData)
    | IceCandidateEvent(fromUserId: Option<UserId>, candidate: SignalData)

  /** `io.emit` reaches every connection; `io.to(sid).emit` reaches one. */
  datatype Delivery = Broadcast(event: Event) | SendTo(target: SocketId, event: Event)

  /** The registry as the object stores it: its own properties in enumeration
      order, each user id at most once. */
  predicate DistinctUsers(e: seq<Entry>)
  {
    forall i, j :: 0 <= i < j < |e| ==> e[i].user != e[j].user
  }

  predicate HasUser(e: seq<Entry>, u: UserId)
  {
    exists i :: 0 <= i < |e| && e[i].user == u
  }

  predicate HasSocket(e: seq<Entry>, s: SocketId)
  {
    exists i :: 0 <= i < |e| && e[i].socket == s
  }

  /** `Object.keys(userSockets)`. */
  function Keys(e: seq<Entry>): (r: seq<UserId>)
    ensures |r| == |e|
    ensures forall i :: 0 <= i < |e| ==> r[i] == e[i].user
  {
    if e == [] then [] else [e[0].user] + Keys(e[1..])
  }

  /** Position of the first property named `u`. */
  function IndexOfUser(e: seq<Entry>, u: UserId): (r: Option<nat>)
    ensures r.Some? ==> r.value < |e| && e[r.value].user == u &&
                        forall j :: 0 <= j < r.value ==> e[j].user != u
    ensures r.None? ==> forall j :: 0 <= j < |e| ==> e[j].user != u
  {
    if e == [] then None
    else if e[0].user == u then Some(0)
    else match IndexOfUser(e[1..], u)
      case None => None
      case Some(k) => Some(k + 1)
  }

  /** Position of the first property whose value is socket `s`: the entry the
      disconnect loop and the caller lookup of `call-user` both stop at. */
  function IndexOfSocket(e: seq<Entry>, s: SocketId): (r: Option<nat>)
    ensures r.Some? ==> r.value < |e| && e[r.value].socket == s &&
                        forall j :: 0 <= j < r.value ==> e[j].socket != s
    ensures r.None? ==> forall j :: 0 <= j < |e| ==> e[j].socket != s
  {
    if e == [] then None
    else if e[0].socket == s then Some(0)
    else match IndexOfSocket(e[1..], s)
      case None => None
      case Some(k) => Some(k + 1)
  }

  /** A first index is unique: any index with no earlier match is it. */
  lemma IndexOfUserAt(e: seq<Entry>, u: UserId, i: nat)
    requires i < |e| && e[i].user == u
    requires forall j :: 0 <= j < i ==> e[j].user != u
    ensures IndexOfUser(e, u) == Some(i)
  {
  }

  lemma IndexOfSocketAt(e: seq<Entry>, s: SocketId, i: nat)
    requires i < |e| && e[i].socket == s
    requires forall j :: 0 <= j < i ==> e[j].socket != s
    ensures IndexOfSocket(e, s) == Some(i)
  {
  }

  /** `userSockets[u]`: the socket registered for `u`, if any. */
  function Lookup(e: seq<Entry>, u: UserId): (r: Option<SocketId>)
    ensures r.None? <==> !HasUser(e, u)
    ensures r.Some? ==> Entry(u, r.value) in e
  {
    match IndexOfUser(e, u)
    case None => None
    case Some(i) => Some(e[i].socket)
  }

  /** `userSockets[u] = s`: an existing property keeps its position and gets the
      new value; a new one is appended. */
  function Upsert(e: seq<Entry>, u: UserId, s: SocketId): (r: seq<Entry>)
    ensures Lookup(r, u) == Some(s)
    ensures forall v :: v != u ==> Lookup(r, v) == Lookup(e, v)
    ensures HasUser(e, u) ==> Keys(r) == Keys(e)
    ensures !HasUser(e, u) ==> Keys(r) == Keys(e) + [u]
    ensures DistinctUsers(e) ==> DistinctUsers(r)
  {
    match IndexOfUser(e, u)
    case Some(i) =>
      var r := e[i := Entry(u, s)];
      IndexOfUserAt(r, u, i);
      UpsertOthers(e, u, r);
      r
    case None =>
      var r := e + [Entry(u, s)];
      IndexOfUserAt(r, u, |e|);
      UpsertOthers(e, u, r);
      r
  }

  /** An upsert of `u` does not move or retarget any other user's entry. */
  lemma UpsertOthers(e: seq<Entry>, u: UserId, r: seq<Entry>)
    requires |e| <= |r|
    requires forall j :: 0 <= j < |e| ==> r[j] == e[j] || (e[j].user == u && r[j].user == u)
    requires forall j :: |e| <= j < |r| ==> r[j].user == u
    ensures forall v :: v != u ==> Lookup(r, v) == Lookup(e, v)
  {
    forall v | v != u ensures Lookup(r, v) == Lookup(e, v) {
      match IndexOfUser(e, v)
      case Some(k) => IndexOfUserAt(r, v, k);
      case None =>
    }
  }

  /** `Object.entries(userSockets).find(([uid, sid]) => sid === s)?.[0]`: the
      first user id registered for socket `s`, absent when the registry has no
      entry with that socket. */
  function FirstUserOf(e: seq<Entry>, s: SocketId): (r: Option<UserId>)
    ensures r.None? <==> !HasSocket(e, s)
    ensures r.Some? ==> exists i :: 0 <= i < |e| && e[i] == Entry(r.value, s) &&
                                   forall j :: 0 <= j < i ==> e[j].socket != s
  {
    match IndexOfSocket(e, s)
    case None => None
    case Some(k) => assert e[k] == Entry(e[k].user, s); Some(e[k].user)
  }

  /** The registry left by the disconnect loop: the first entry whose socket is
      `s` deleted, everything else in place. */
  function RemoveFirst(e: seq<Entry>, s: SocketId): (r: seq<Entry>)
    ensures !HasSocket(e, s) ==> r == e
    ensures HasSocket(e, s) ==> |r| == |e| - 1
    ensures forall x :: x in r ==> x in e
  {
    match IndexOfSocket(e, s)
    case None => e
    case Some(k) => e[..k] + e[k + 1..]
  }

  /** Removing the first entry of a socket removes at most one entry, the
      first of that socket, keeps the order of the others (later entries of
      the same socket included), and keeps the user ids distinct. */
  lemma RemoveFirstAtMostOne(e: seq<Entry>, s: SocketId)
    requires DistinctUsers(e)
    ensures var r := RemoveFirst(e, s);
            HasSocket(e, s) ==>
              exists k :: 0 <= k < |e| && e[k].socket == s && r == e[..k] + e[k + 1..] &&
                          forall j :: 0 <= j < k ==> e[j].socket != s
    ensures var r := RemoveFirst(e, s);
            && (|r| == |e| - 1 <==> HasSocket(e, s))
            && (!HasSocket(e, s) ==> r == e)
            && DistinctUsers(r)
            && (forall x :: x in r ==> x in e)
            && (forall x :: x in e && x.socket != s ==> x in r)
  {
    var r := RemoveFirst(e, s);
    match IndexOfSocket(e, s)
    case None =>
    case Some(k) =>
      forall i, j | 0 <= i < j < |r| ensures r[i].user != r[j].user {
        var i' := if i < k then i else i + 1;
        var j' := if j < k then j else j + 1;
        assert r[i] == e[i'] && r[j] == e[j'];
      }
      forall x | x in r ensures x in e {
        var i :| 0 <= i < |r| && r[i] == x;
        assert r[i] == e[if i < k then i else i + 1];
      }
      forall x | x in e && x.socket != s ensures x in r {
        var i :| 0 <= i < |e| && e[i] == x;
        assert i != k;
        assert x == r[if i < k then i else i - 1];
      }
  }

  /** The server process: the registry plus everything it has sent. */
  class SignalingServer {
    var entries: seq<Entry>
    var outbox: seq<Delivery>

    ghost predicate Valid()
      reads this
    {
      DistinctUsers(entries)
    }

    constructor ()
      ensures Valid() && entries == [] && outbox == []
    {
      entries := [];
      outbox := [];
    }

    /** `identify`: last registration wins, then the key set is broadcast. */
    method Identify(sender: SocketId, userId: UserId)
      requires Valid()
      modifies this
      ensures Valid()
      ensures entries == Upsert(old(entries), userId, sender)
      ensures outbox == old(outbox) + [Broadcast(OnlineList(Keys(entries)))]
    {
      entries := Upsert(entries, userId, sender);
      outbox := outbox + [Broadcast(OnlineList(Keys(entries)))];
    }

    /** `disconnect`: delete the first entry of the socket (at most one) and
        broadcast the key set whether or not anything was deleted. */
    method Disconnect(sender: SocketId)
      requires Valid()
      modifies this
      ensures Valid()
      ensures entries == RemoveFirst(old(entries), sender)
      ensures outbox == old(outbox) + [Broadcast(OnlineList(Keys(entries)))]
    {
      ghost var e0 := entries;
      var i := 0;
      while i < |entries|
        invariant 0 <= i <= |entries|
        invariant entries == e0
        invariant forall j :: 0 <= j < i ==> entries[j].socket != sender
      {
        if entries[i].socket == sender {
          IndexOfSocketAt(entries, sender, i);
          entries := entries[..i] + entries[i + 1..];
          break;
        }
        i := i + 1;
      }
      RemoveFirstAtMostOne(e0, sender);
      outbox := outbox + [Broadcast(OnlineList(Keys(entries)))];
    }

    /** `call-user`: forwarded to the registered socket of `toUserId` with the
        caller's user id taken from the registry; dropped when the target is
        not registered. */
    method CallUser(sender: SocketId, toUserId: UserId, signalData: SignalData)
      modifies this
      ensures entries == old(entries)
      ensures outbox == old(outbox) + RouteCallUser(entries, sender, toUserId, signalData)
    {
      var target := Lookup(entries, toUserId);
      if !Truthy(target) {
        return;
      }
      var fromUserId := FirstUserOf(entries, sender);
      outbox := outbox + [SendTo(target.value, IncomingCall(fromUserId, signalData))];
    }

    /** `answer-call`: forwarded with the client-supplied `fromUserId`. */
    method AnswerCall(toUserId: UserId, signalData: SignalData, fromUserId: Option<UserId>)
      modifies this
      ensures entries == old(entries)
      ensures outbox == old(outbox) + RouteVerbatim(entries, toUserId, CallAnswered(fromUserId, signalData))
    {
      var targetSid := Lookup(entries, toUserId);
      if Truthy(targetSid) {
        outbox := outbox + [SendTo(targetSid.value, CallAnswered(fromUserId, signalData))];
      }
    }

    /** `ice-candidate`: forwarded with the client-supplied `fromUserId`. */
    method IceCandidate(toUserId: UserId, candidate: SignalData, fromUserId: Option<UserId>)
      modifies this
      ensures entries == old(entries)
      ensures outbox == old(outbox) + RouteVerbatim(entries, toUserId, IceCandidateEvent(fromUserId, candidate))
    {
      var targetSid := Lookup(entries, toUserId);
      if Truthy(targetSid) {
        outbox := outbox + [SendTo(targetSid.value, IceCandidateEvent(fromUserId, candidate))];
      }
    }
  }

  /** The deliveries one `call-user` causes (none or one). */
  function RouteCallUser(e: seq<Entry>, sender: SocketId, to: UserId, data: SignalData): (d: seq<Delivery>)
    ensures |d| <= 1
    ensures d == [] <==> !Truthy(Lookup(e, to))
    ensures d != [] ==> d[0].SendTo? && Entry(to, d[0].target) in e
    ensures d != [] ==> d[0].event.IncomingCall? && d[0].event.signalData == data
    ensures d != [] && d[0].event.fromUserId.Some? ==>
              Entry(d[0].event.fromUserId.value, sender) in e
    ensures d != [] ==> (d[0].event.fromUserId.None? <==> !HasSocket(e, sender))
    ensures d != [] && d[0].event.fromUserId.Some? ==>
              exists i :: 0 <= i < |e| && e[i] == Entry(d[0].event.fromUserId.value, sender) &&
                          forall j :: 0 <= j < i ==> e[j].socket != sender
  {
    var target := Lookup(e, to);
    if !Truthy(target) then []
    else
      var from := FirstUserOf(e, sender);
      assert from.Some? ==> Entry(from.value, sender) in e by {
        if from.Some? {
          var i :| 0 <= i < |e| && e[i] == Entry(from.value, sender) &&
                   forall j :: 0 <= j < i ==> e[j].socket != sender;
        }
      }
      [SendTo(target.value, IncomingCall(from, data))]
  }

  /** The deliveries one `answer-call` or `ice-candidate` causes: the event,
      exactly as given, to the registered socket of `to`, or nothing. */
  function RouteVerbatim(e: seq<Entry>, to: UserId, ev: Event): (d: seq<Delivery>)
    ensures |d| <= 1
    ensures d == [] <==> !Truthy(Lookup(e, to))
    ensures d != [] ==> d[0].SendTo? && d[0].event == ev && Entry(to, d[0].target) in e
  {
    var target := Lookup(e, to);
    if Truthy(target) then [SendTo(target.value, ev)] else []
  }

  /** With distinct user ids, a lookup finds exactly the registered pair. */
  lemma LookupIsMembership(e: seq<Entry>, u: UserId, s: SocketId)
    requires DistinctUsers(e)
    ensures Lookup(e, u) == Some(s) <==> Entry(u, s) in e
  {
    if Entry(u, s) in e {
      var i :| 0 <= i < |e| && e[i] == Entry(u, s);
      var r := Lookup(e, u);
      assert r.Some?;
      var j :| 0 <= j < |e| && e[j] == Entry(u, r.value);
      assert i == j;
    }
  }

  /** The `online-list` broadcast names every registered user exactly once. */
  lemma OnlineListIsKeySet(e: seq<Entry>)
    requires DistinctUsers(e)
    ensures forall i, j :: 0 <= i < j < |Keys(e)| ==> Keys(e)[i] != Keys(e)[j]
    ensures forall u :: u in Keys(e) <==> HasUser(e, u)
  {
    forall u | HasUser(e, u) ensures u in Keys(e) {
      var i :| 0 <= i < |e| && e[i].user == u;
      assert Keys(e)[i] == u;
    }
  }

  /** The registry after a run of `identify` messages, one per (socket, user) pair. */
  function IdentifyAll(e: seq<Entry>, calls: seq<Entry>): (r: seq<Entry>)
    decreases |calls|
  {
    if calls == [] then e
    else IdentifyAll(Upsert(e, calls[0].user, calls[0].socket), calls[1..])
  }

  /** Running two batches of `identify` messages is running their concatenation. */
  lemma {:induction false} IdentifyAllAppend(e: seq<Entry>, a: seq<Entry>, b: seq<Entry>)
    ensures IdentifyAll(e, a + b) == IdentifyAll(IdentifyAll(e, a), b)
    decreases |a|
  {
    if a != [] {
      assert (a + b)[1..] == a[1..] + b;
      IdentifyAllAppend(Upsert(e, a[0].user, a[0].socket), a[1..], b);
    } else {
      assert a + b == b;
    }
  }

  /** The user ids of a registry are exactly its keys. */
  lemma HasUserIsKey(e: seq<Entry>, u: UserId)
    ensures HasUser(e, u) <==> u in Keys(e)
  {
    if u in Keys(e) {
      var i :| 0 <= i < |Keys(e)| && Keys(e)[i] == u;
      assert e[i].user == u;
    }
  }

  /** Any run of `identify` messages keeps user ids distinct, and the keys it
      leaves are the earlier keys plus exactly the user ids it named. */
  lemma {:induction false} IdentifyAllKeys(e: seq<Entry>, calls: seq<Entry>, u: UserId)
    requires DistinctUsers(e)
    ensures DistinctUsers(IdentifyAll(e, calls))
    ensures u in Keys(IdentifyAll(e, calls)) <==> u in Keys(e) || u in Keys(calls)
    decreases |calls|
  {
    if calls != [] {
      var e' := Upsert(e, calls[0].user, calls[0].socket);
      HasUserIsKey(e, calls[0].user);
      assert u in Keys(e') <==> u in Keys(e) || u == calls[0].user;
      assert Keys(calls) == [calls[0].user] + Keys(calls[1..]);
      IdentifyAllKeys(e', calls[1..], u);
    }
  }

  /** A run of `identify` messages that never names `u` leaves `u`'s entry alone. */
  lemma {:induction false} IdentifyAllUntouched(e: seq<Entry>, calls: seq<Entry>, u: UserId)
    requires u !in Keys(calls)
    ensures Lookup(IdentifyAll(e, calls), u) == Lookup(e, u)
    decreases |calls|
  {
    if calls != [] {
      assert Keys(calls) == [calls[0].user] + Keys(calls[1..]);
      IdentifyAllUntouched(Upsert(e, calls[0].user, calls[0].socket), calls[1..], u);
    }
  }

  /** Last registration wins: after any run of `identify` messages, a user id
      maps to the socket of its most recent `identify`. */
  lemma IdentifyAllLastWins(e: seq<Entry>, before: seq<Entry>, u: UserId, s: SocketId, after: seq<Entry>)
    requires u !in Keys(after)
    ensures Lookup(IdentifyAll(e, before + [Entry(u, s)] + after), u) == Some(s)
  {
    IdentifyAllAppend(e, before + [Entry(u, s)], after);
    IdentifyAllAppend(e, before, [Entry(u, s)]);
    var mid := IdentifyAll(e, before + [Entry(u, s)]);
    assert mid == Upsert(IdentifyAll(e, before), u, s);
    IdentifyAllUntouched(mid, after, u);
  }

  /** A socket that identified under two user ids keeps the second one
      registered after it disconnects: only the first entry is deleted. */
  lemma DisconnectLeavesSecondIdentity()
    ensures RemoveFirst([Entry("a", "s1"), Entry("b", "s1")], "s1") == [Entry("b", "s1")]
  {
  }

  /** Alice and Bob identify; Alice's `call-user` to "bob" reaches Bob's socket
      as `incoming-call` from "alice" with the offer untouched, and a
      `call-user` to an unregistered id reaches nobody. */
  lemma AliceCallsBob(offer: SignalData)
    ensures var e := IdentifyAll([], [Entry("alice", "sA"), Entry("bob", "sB")]);
            RouteCallUser(e, "sA", "bob", offer) == [SendTo("sB", IncomingCall(Some("alice"), offer))] &&
            RouteCallUser(e, "sA", "carol", offer) == []
  {
    var e := IdentifyAll([], [Entry("alice", "sA"), Entry("bob", "sB")]);
    assert e == [Entry("alice", "sA"), Entry("bob", "sB")];
  }
}
