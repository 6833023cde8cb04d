/** Local media acquisition (video-client/src/hooks/useLocalStream.js): the
    mapping from the two device selectors to `getUserMedia` constraints, and
    `getLocalStream`, which attaches the opened stream to the preview. */
module LocalStream {
  import opened Common
  import opened Media

  /** One member of a `getUserMedia` constraints object: `true`,
      `{ facingMode: { ideal: mode } }` or `{ deviceId: { exact: id } }`. */
  datatype Constraint = AnyDevice | FacingIdeal(mode: string) | ExactDevice(id: string)

  datatype Constraints = Constraints(video: Constraint, audio: Constraint)

  /** The video selector: "default", the mobile selectors "front" / "back", or
      a device id. */
  function VideoConstraint(selected: string): (c: Constraint)
    ensures c == AnyDevice <==> selected == "default"
    ensures c == FacingIdeal("user") <==> selected == "front"
    ensures c == FacingIdeal("environment") <==> selected == "back"
    ensures c.ExactDevice? <==> selected !in {"default", "front", "back"}
    ensures c.ExactDevice? ==> c.id == selected
  {
    if selected == "default" then AnyDevice
    else if selected == "front" then FacingIdeal("user")
    else if selected == "back" then FacingIdeal("environment")
    else ExactDevice(selected)
  }

  /** `selected === "default" ? true : { deviceId: { exact: selected } }`: the
      audio selector here, and every selector of the camera swap and of the
      first-generation client. */
  function DeviceConstraint(selected: string): (c: Constraint)
    ensures c == AnyDevice <==> selected == "default"
    ensures c.ExactDevice? <==> selected != "default"
    ensures c.ExactDevice? ==> c.id == selected
    ensures !c.FacingIdeal?
  {
    if selected == "default" then AnyDevice else ExactDevice(selected)
  }

  /** The selector a video constraint was made from. */
  function VideoSelector(c: Constraint): string
  {
    match c
    case AnyDevice => "default"
    case FacingIdeal(mode) => if mode == "user" then "front" else "back"
    case ExactDevice(id) => id
  }

  /** The video mapping loses nothing: the selector is recovered from the
      constraint, so distinct selectors request distinct constraints. */
  lemma VideoConstraintRoundTrip(selected: string)
    ensures VideoSelector(VideoConstraint(selected)) == selected
  {
  }

  /** The device mapping loses nothing either. */
  lemma DeviceConstraintInjective(a: string, b: string)
    ensures DeviceConstraint(a) == DeviceConstraint(b) ==> a == b
  {
  }

  lemma VideoConstraintInjective(a: string, b: string)
    ensures VideoConstraint(a) == VideoConstraint(b) ==> a == b
  {
    VideoConstraintRoundTrip(a);
    VideoConstraintRoundTrip(b);
  }

  /** The constraints object `getLocalStream` requests. */
  function LocalConstraints(selectedVideo: string, selectedAudio: string): Constraints
  {
    Constraints(VideoConstraint(selectedVideo), DeviceConstraint(selectedAudio))
  }

  datatype Result<T> = Ok(value: T) | Err(error: string)

  /** `getLocalStream`. `acquired` is what `getUserMedia(request)` did. On
      success the stream is shown in the preview element when there is one
      (attaching cannot fail the call) and returned; a failure is rethrown
      and nothing is attached. */
  method GetLocalStream(selectedVideo: string, selectedAudio: string, preview: VideoElement?,
                        acquired: Acquisition)
    returns (r: Result<MediaStream>, request: Constraints)
    modifies preview
    ensures request == LocalConstraints(selectedVideo, selectedAudio)
    ensures acquired.Opened? ==> r == Ok(acquired.stream)
    ensures acquired.Failed? ==> r == Err(acquired.error)
    ensures preview != null ==>
              preview.srcObject == if acquired.Opened? then acquired.stream else old(preview.srcObject)
  {
    request := LocalConstraints(selectedVideo, selectedAudio);
    match acquired
    case Opened(stream) =>
      if preview != null {
        preview.srcObject := stream;
      }
      r := Ok(stream);
    case Failed(error) =>
      r := Err(error);
  }
}
