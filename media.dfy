/** The browser media objects the client manipulates: tracks, streams and the
    video elements that show them. Acquiring media (getUserMedia) is not
    modelled here; callers receive an already-opened stream or a failure. */
module Media {

  datatype Kind = Audio | Video

  /** The outcome of one `getUserMedia` request: the opened stream, or the
      name of the error it rejected with. */
  datatype Acquisition = Opened(stream: MediaStream) | Failed(error: string)

  /** A media track. Its identity is the object; `stopped` models readyState
      "ended" and `enabled` the delivery gate used by mute / video-off. */
  class MediaTrack {
    const id: nat
    const kind: Kind
    var enabled: bool
    var stopped: bool

    constructor (id: nat, kind: Kind)
      ensures this.id == id && this.kind == kind
      ensures enabled && !stopped
    {
      this.id := id;
      this.kind := kind;
      enabled := true;
      stopped := false;
    }

    /** MediaStreamTrack.stop(): idempotent, leaves `enabled` alone. */
    method Stop()
      modifies this
      ensures stopped && enabled == old(enabled)
    {
      stopped := true;
    }
  }

  /** The tracks of `ts` of kind `k`, in order. */
  function OfKind(ts: seq<MediaTrack>, k: Kind): (r: seq<MediaTrack>)
    ensures |r| <= |ts|
    ensures forall i :: 0 <= i < |r| ==> r[i] in ts && r[i].kind == k
    ensures forall i :: 0 <= i < |ts| && ts[i].kind == k ==> ts[i] in r
    ensures ts != [] && ts[0].kind == k ==> r != [] && r[0] == ts[0]
  {
    if ts == [] then []
    else if ts[0].kind == k then [ts[0]] + OfKind(ts[1..], k)
    else OfKind(ts[1..], k)
  }

  /** `ts` with every occurrence of `t` taken out, order kept. */
  function Without(ts: seq<MediaTrack>, t: MediaTrack): (r: seq<MediaTrack>)
    ensures |r| <= |ts|
    ensures forall i :: 0 <= i < |r| ==> r[i] in ts && r[i] != t
    ensures forall i :: 0 <= i < |ts| && ts[i] != t ==> ts[i] in r
    ensures t !in ts ==> r == ts
  {
    if ts == [] then []
    else if ts[0] == t then Without(ts[1..], t)
    else [ts[0]] + Without(ts[1..], t)
  }

  /** A MediaStream: an ordered set of tracks, mutated in place. */
  class MediaStream {
    var tracks: seq<MediaTrack>

    constructor (tracks: seq<MediaTrack>)
      ensures this.tracks == tracks
    {
      this.tracks := tracks;
    }

    function VideoTracks(): (r: seq<MediaTrack>)
      reads this
    {
      OfKind(tracks, Video)
    }

    function AudioTracks(): (r: seq<MediaTrack>)
      reads this
    {
      OfKind(tracks, Audio)
    }

    /** MediaStream.removeTrack: no effect when the track is absent. */
    method RemoveTrack(t: MediaTrack)
      modifies this
      ensures tracks == Without(old(tracks), t)
    {
      tracks := Without(tracks, t);
    }

    /** MediaStream.addTrack: no effect when the track is already present. */
    method AddTrack(t: MediaTrack)
      modifies this
      ensures tracks == if t in old(tracks) then old(tracks) else old(tracks) + [t]
    {
      if t !in tracks {
        tracks := tracks + [t];
      }
    }
  }

  /** An HTML video element; only its `srcObject` matters here. */
  class VideoElement {
    var srcObject: MediaStream?

    constructor ()
      ensures srcObject == null
    {
      srcObject := null;
    }
  }

  /** The tracks of the stream a (possibly absent) element shows. */
  function Shown(v: VideoElement?): set<MediaTrack>
    reads v, if v != null && v.srcObject != null then {v.srcObject} else {}
  {
    if v != null && v.srcObject != null then set t | t in v.srcObject.tracks else {}
  }

  /** `ts.forEach(t => t.stop())`. */
  method StopAll(ts: seq<MediaTrack>)
    modifies set t | t in ts
    ensures forall t :: t in ts ==> t.stopped && t.enabled == old(t.enabled)
  {
    var i := 0;
    while i < |ts|
      invariant 0 <= i <= |ts|
      invariant forall j :: 0 <= j < i ==> ts[j].stopped
      invariant forall t :: t in ts ==> t.enabled == old(t.enabled)
    {
      ts[i].Stop();
      i := i + 1;
    }
  }

  /** The tracks of a (possibly absent) stream. */
  function TrackSet(s: MediaStream?): set<MediaTrack>
    reads s
  {
    if s != null then set t | t in s.tracks else {}
  }

  /** `ts.forEach(t => { if (t !== keep) t.stop(); })`. */
  method StopAllExcept(ts: seq<MediaTrack>, keep: MediaTrack)
    modifies set t | t in ts
    ensures forall t :: t in ts && t != keep ==> t.stopped
    ensures keep.stopped == old(keep.stopped)
    ensures forall t :: t in ts ==> t.enabled == old(t.enabled)
  {
    var i := 0;
    while i < |ts|
      invariant 0 <= i <= |ts|
      invariant forall j :: 0 <= j < i && ts[j] != keep ==> ts[j].stopped
      invariant keep.stopped == old(keep.stopped)
      invariant forall t :: t in ts ==> t.enabled == old(t.enabled)
    {
      if ts[i] != keep {
        ts[i].Stop();
      }
      i := i + 1;
    }
  }

  /** One iteration of the release loop both clients run on hangup: stop every
      track of the element's stream (if any) and detach the stream. */
  method Release(v: VideoElement?)
    modifies v, Shown(v)
    ensures v != null ==> v.srcObject == null
    ensures forall t :: t in old(Shown(v)) ==> t.stopped && t.enabled == old(t.enabled)
  {
    if v != null {
      if v.srcObject != null {
        StopAll(v.srcObject.tracks);
      }
      v.srcObject := null;
    }
  }
}
