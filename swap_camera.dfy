/** The camera swap effect (video-client/src/hooks/useSwapCamera.js): when the
    selected camera changes, open it, hand its track to the live peer, and
    exchange the video track of the original local stream in place. */
module SwapCamera {
  import opened Common
  import opened Media
  import opened PeerConnection
  import opened LocalStream

  /** How one run of the effect ended. */
  datatype SwapOutcome =
    | SameSelection   // the selection did not change
    | NoOriginal      // no call has produced an original stream yet
    | NoVideoTrack    // the original stream carries no video
    | OpenFailed      // getUserMedia for the new camera rejected
    | PreviewMissing  // swapped, but the preview element is absent (TypeError before the helper cleanup)
    | Swapped

  /** The track list of a stream after `removeTrack(oldTrack)` then
      `addTrack(newTrack)`, for a new track the stream does not hold. */
  function SwappedTracks(ts: seq<MediaTrack>, oldTrack: MediaTrack, newTrack: MediaTrack): seq<MediaTrack>
  {
    Without(ts, oldTrack) + [newTrack]
  }

  /** Swapping a video track for a video track leaves the audio tracks exactly
      as they were, in order, and replaces the old video track by the new one
      among the video tracks. */
  lemma {:induction false} SwapKeepsAudio(ts: seq<MediaTrack>, oldTrack: MediaTrack, newTrack: MediaTrack)
    requires oldTrack.kind == Video && newTrack.kind == Video
    ensures OfKind(SwappedTracks(ts, oldTrack, newTrack), Audio) == OfKind(ts, Audio)
    ensures OfKind(SwappedTracks(ts, oldTrack, newTrack), Video) == Without(OfKind(ts, Video), oldTrack) + [newTrack]
  {
    OfKindAppend(Without(ts, oldTrack), [newTrack], Audio);
    OfKindAppend(Without(ts, oldTrack), [newTrack], Video);
    WithoutOtherKind(ts, oldTrack, Audio);
    WithoutCommutes(ts, oldTrack, Video);
  }

  lemma {:induction false} OfKindAppend(a: seq<MediaTrack>, b: seq<MediaTrack>, k: Kind)
    ensures OfKind(a + b, k) == OfKind(a, k) + OfKind(b, k)
  {
    if a == [] {
      assert a + b == b;
    } else {
      assert (a + b)[1..] == a[1..] + b;
      OfKindAppend(a[1..], b, k);
    }
  }

  /** Removing a track of another kind does not change the tracks of kind `k`. */
  lemma {:induction false} WithoutOtherKind(ts: seq<MediaTrack>, t: MediaTrack, k: Kind)
    requires t.kind != k
    ensures OfKind(Without(ts, t), k) == OfKind(ts, k)
  {
    if ts != [] {
      WithoutOtherKind(ts[1..], t, k);
    }
  }

  /** Filtering by kind and removing a track commute. */
  lemma {:induction false} WithoutCommutes(ts: seq<MediaTrack>, t: MediaTrack, k: Kind)
    ensures OfKind(Without(ts, t), k) == Without(OfKind(ts, k), t)
  {
    if ts != [] {
      WithoutCommutes(ts[1..], t, k);
      if ts[0] != t && ts[0].kind == k {
        assert OfKind(Without(ts, t), k) == [ts[0]] + OfKind(Without(ts[1..], t), k);
      }
    }
  }

  /** The hook instance; `prev` is its `useRef("default")`. */
  class CameraSwap {
    var prev: string

    constructor ()
      ensures prev == "default"
    {
      prev := "default";
    }

    /** One run of the effect for selection `selected`. `original` is
        `originalStreamRef.current`, `link` the peer hook, `preview` the local
        video element, and `acquired` the outcome of the `getUserMedia` request
        returned in `request` (a video request yields a video track, and a
        newly opened stream shares no track with the original one). */
    method OnSelect(selected: string, original: MediaStream?, link: PeerLink, preview: VideoElement?,
                    acquired: Acquisition)
      returns (outcome: SwapOutcome, request: Option<Constraint>)
      requires acquired.Opened? ==> acquired.stream.VideoTracks() != []
      requires acquired.Opened? && original != null ==>
                 forall t :: t in acquired.stream.tracks ==> t !in original.tracks
      modifies this, link, preview, original, TrackSet(original),
               if acquired.Opened? then TrackSet(acquired.stream) else {}
      // the change guard runs first and always records the selection
      ensures prev == selected
      ensures outcome == SameSelection <==> old(prev) == selected
      ensures outcome == NoOriginal <==> old(prev) != selected && original == null
      ensures outcome == NoVideoTrack <==>
                old(prev) != selected && original != null && old(original.VideoTracks()) == []
      ensures request.Some? <==> outcome in {OpenFailed, PreviewMissing, Swapped}
      ensures request.Some? ==> request.value == DeviceConstraint(selected)
      ensures outcome == OpenFailed <==> request.Some? && acquired.Failed?
      ensures outcome == PreviewMissing <==> request.Some? && acquired.Opened? && preview == null
      // nothing is touched unless the new camera opened
      ensures outcome !in {PreviewMissing, Swapped} ==>
                && link.State() == old(link.State())
                && (original != null ==> original.tracks == old(original.tracks))
                && (forall t :: t in old(TrackSet(original)) ==> t.stopped == old(t.stopped))
                && (preview != null ==> preview.srcObject == old(preview.srcObject))
                && (acquired.Opened? ==>
                      forall t :: t in acquired.stream.tracks ==> t.stopped == old(t.stopped))
      // after the new camera opened
      ensures outcome in {PreviewMissing, Swapped} ==>
                var oldTrack := old(original.VideoTracks())[0];
                var newTrack := acquired.stream.VideoTracks()[0];
                && original.tracks == SwappedTracks(old(original.tracks), oldTrack, newTrack)
                && oldTrack.stopped
                && newTrack.stopped == old(newTrack.stopped)
                && (forall t :: t in old(original.tracks) && t != oldTrack ==> t.stopped == old(t.stopped))
                && link.current == old(link.current) && link.created == old(link.created)
                && link.ops == old(link.ops) +
                     (if old(link.current).Some?
                      then [ReplaceTrack(old(link.current).value.id, oldTrack, newTrack, original)]
                      else [])
      ensures outcome == Swapped ==>
                var newTrack := acquired.stream.VideoTracks()[0];
                && preview.srcObject == original
                && (forall t :: t in acquired.stream.tracks && t != newTrack ==> t.stopped)
      // the swap never changes a track's `enabled`: the new camera's track is
      // installed as the camera gave it
      ensures forall t :: t in old(TrackSet(original)) ==> t.enabled == old(t.enabled)
      ensures acquired.Opened? ==> forall t :: t in acquired.stream.tracks ==> t.enabled == old(t.enabled)
      ensures outcome == PreviewMissing ==>
                forall t :: t in acquired.stream.tracks && t !in old(original.tracks) ==> t.stopped == old(t.stopped)
    {
      request := None;
      if prev == selected {
        return SameSelection, request;
      }
      prev := selected;
      if original == null {
        return NoOriginal, request;
      }
      var videoTracks := original.VideoTracks();
      if videoTracks == [] {
        return NoVideoTrack, request;
      }
      var oldTrack := videoTracks[0];
      request := Some(DeviceConstraint(selected));
      match acquired
      case Failed(_) =>
        outcome := OpenFailed;
      case Opened(tmp) =>
        var newTrack := tmp.VideoTracks()[0];
        assert newTrack in tmp.tracks && newTrack !in original.tracks;
        Exchange(original, oldTrack, newTrack, link);
        if preview == null {
          return PreviewMissing, request;
        }
        preview.srcObject := original;
        StopAllExcept(tmp.tracks, newTrack);
        outcome := Swapped;
    }
  }

  /** Steps 2 and 3 of the effect: `replaceTrack` on the peer when there is
      one, then the in-place exchange on the original stream, then stopping
      the old track. */
  method Exchange(original: MediaStream, oldTrack: MediaTrack, newTrack: MediaTrack, link: PeerLink)
    requires newTrack !in original.tracks
    modifies link, original, oldTrack
    ensures original.tracks == SwappedTracks(old(original.tracks), oldTrack, newTrack)
    ensures oldTrack.stopped && oldTrack.enabled == old(oldTrack.enabled)
    ensures link.current == old(link.current) && link.created == old(link.created)
    ensures link.ops == old(link.ops) +
              (if old(link.current).Some?
               then [ReplaceTrack(old(link.current).value.id, oldTrack, newTrack, original)]
               else [])
  {
    if link.current.Some? {
      link.ReplaceTrackOnPeer(oldTrack, newTrack, original);
    }
    original.RemoveTrack(oldTrack);
    assert newTrack !in original.tracks;
    original.AddTrack(newTrack);
    oldTrack.Stop();
  }
}
