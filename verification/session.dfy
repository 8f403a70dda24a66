/**
 * The camera session: the held stream, the facing mode and the capture
 * waiting to be saved, together with the device's side of the bargain (which
 * tracks are live and the calls made into the device, in order).
 */
module Session {
  import opened Optional
  import opened CameraRules

  /** A stream handed out by the device: its tracks and the size it actually delivers. */
  datatype Stream = Stream(tracks: seq<nat>, width: nat, height: nat)

  /** A call into the device: a stream request or the stop of one track. */
  datatype DeviceCall = Request(constraints: Constraints) | StopTrack(track: nat)

  function TrackSet(tracks: seq<nat>): set<nat> {
    set t | t in tracks
  }

  /** The stop calls for the tracks, one per track, in track order. */
  function Stops(tracks: seq<nat>): seq<DeviceCall> {
    seq(|tracks|, i requires 0 <= i < |tracks| => StopTrack(tracks[i]))
  }

  /** The calls that release a held stream, if any. */
  function Release(s: Option<Stream>): seq<DeviceCall> {
    if s.Some? then Stops(s.value.tracks) else []
  }

  class CameraSession {
    var stream: Option<Stream>
    var facingMode: FacingMode
    var pendingImage: Option<Image>
    /** Whether the preview is drawn mirrored (`scaleX(-1)`). */
    var previewMirrored: bool
    /** The device's tracks that have been handed out and not yet stopped. */
    var liveTracks: set<nat>
    /** Every call made into the device, oldest first. */
    var deviceLog: seq<DeviceCall>

    /** No handle leaks: the live tracks are exactly those of the one held stream. */
    ghost predicate NoLeak()
      reads this
    {
      liveTracks == if stream.Some? then TrackSet(stream.value.tracks) else {}
    }

    /** While a stream is held, the preview is mirrored exactly for the front camera. */
    ghost predicate PreviewMatches()
      reads this
    {
      stream.Some? ==> previewMirrored == (facingMode == User)
    }

    ghost predicate Valid()
      reads this
    {
      NoLeak() && PreviewMatches()
    }

    /** The state at page load: no stream, the back camera, nothing captured. */
    constructor ()
      ensures Valid()
      ensures stream == None && facingMode == Environment && pendingImage == None
      ensures liveTracks == {} && deviceLog == []
    {
      stream := None;
      facingMode := Environment;
      pendingImage := None;
      liveTracks := {};
      deviceLog := [];
    }

    /** `closeCamera`: stops every track of the held stream and drops it; nothing when none is held. */
    method CloseCamera()
      requires NoLeak()
      modifies this
      ensures Valid()
      ensures stream == None && liveTracks == {}
      ensures deviceLog == old(deviceLog) + Release(old(stream))
      ensures facingMode == old(facingMode) && pendingImage == old(pendingImage)
      ensures previewMirrored == old(previewMirrored)
      ensures old(stream) == None ==> unchanged(this)
    {
      if stream.Some? {
        var tracks := stream.value.tracks;
        var i := 0;
        while i < |tracks|
          invariant 0 <= i <= |tracks|
          invariant liveTracks == TrackSet(tracks) - TrackSet(tracks[..i])
          invariant deviceLog == old(deviceLog) + Stops(tracks[..i])
          invariant stream == old(stream) && facingMode == old(facingMode)
          invariant pendingImage == old(pendingImage) && previewMirrored == old(previewMirrored)
        {
          liveTracks := liveTracks - {tracks[i]};
          deviceLog := deviceLog + [StopTrack(tracks[i])];
          assert tracks[..i + 1] == tracks[..i] + [tracks[i]];
          i := i + 1;
        }
        assert tracks[..i] == tracks;
        stream := None;
      }
    }

    /**
     * `openCamera`: releases any held stream, then asks the device for the
     * current facing mode at an ideal 1920x1080. `grant` is the device's
     * answer (`None` when access fails); on failure no stream is held.
     */
    method OpenCamera(grant: Option<Stream>) returns (started: bool)
      requires Valid()
      modifies this
      ensures Valid()
      ensures started <==> grant.Some?
      ensures stream == grant
      ensures liveTracks == if grant.Some? then TrackSet(grant.value.tracks) else {}
      ensures deviceLog == old(deviceLog) + Release(old(stream)) + [Request(RequestFor(old(facingMode)))]
      ensures facingMode == old(facingMode) && pendingImage == old(pendingImage)
      ensures !started ==> previewMirrored == old(previewMirrored)
    {
      var constraints := RequestFor(facingMode);
      if stream.Some? {
        CloseCamera();
      }
      deviceLog := deviceLog + [Request(constraints)];
      match grant {
        case None =>
          started := false;
        case Some(s) =>
          stream := grant;
          liveTracks := liveTracks + TrackSet(s.tracks);
          previewMirrored := facingMode == User;
          started := true;
      }
    }

    /** `switchCamera`: flips the facing mode, releases the held stream and reopens. */
    method SwitchCamera(grant: Option<Stream>) returns (started: bool)
      requires Valid()
      modifies this
      ensures Valid()
      ensures facingMode == Toggle(old(facingMode))
      ensures started <==> grant.Some?
      ensures stream == grant
      ensures deviceLog == old(deviceLog) + Release(old(stream)) + [Request(RequestFor(facingMode))]
      ensures pendingImage == old(pendingImage)
    {
      facingMode := Toggle(facingMode);
      if stream.Some? {
        CloseCamera();
      }
      started := OpenCamera(grant);
    }

    /**
     * `takePhoto`: refused without a stream. Otherwise draws `frame` on a
     * canvas of the stream's actual size, mirrored exactly for the front
     * camera, and keeps it as the pending capture.
     */
    method TakePhoto(frame: nat) returns (taken: bool)
      requires Valid()
      modifies this`pendingImage
      ensures Valid()
      ensures taken <==> stream.Some?
      ensures !taken ==> pendingImage == old(pendingImage)
      ensures taken ==> pendingImage == Some(Image(frame, stream.value.width, stream.value.height, facingMode == User))
      ensures taken ==> pendingImage.value.mirrored == previewMirrored
    {
      if stream.None? {
        return false;
      }
      var width := stream.value.width;
      var height := stream.value.height;
      pendingImage := Some(Image(frame, width, height, facingMode == User));
      taken := true;
    }

    /** `retakePhoto`: drops the pending capture and reopens the camera. */
    method RetakePhoto(grant: Option<Stream>) returns (started: bool)
      requires Valid()
      modifies this
      ensures Valid()
      ensures pendingImage == None
      ensures started <==> grant.Some?
      ensures stream == grant && facingMode == old(facingMode)
      ensures deviceLog == old(deviceLog) + Release(old(stream)) + [Request(RequestFor(facingMode))]
    {
      pendingImage := None;
      started := OpenCamera(grant);
    }
  }

  /** Two switches in a row come back to the facing mode they started from. */
  method SwitchTwice(s: CameraSession, first: Option<Stream>, second: Option<Stream>)
    requires s.Valid()
    modifies s
    ensures s.Valid()
    ensures s.facingMode == old(s.facingMode) && s.stream == second
  {
    var _ := s.SwitchCamera(first);
    var _ := s.SwitchCamera(second);
    ToggleTwice(old(s.facingMode));
  }
}
