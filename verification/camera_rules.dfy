/**
 * The pure rules of the camera page: which camera the facing mode names,
 * what the two cameras are called, what is asked of the device, what a
 * capture is, and when the "switch camera" control is hidden.
 */
module CameraRules {
  import opened Optional

  /** `"environment"` (the back camera) or `"user"` (the front camera). */
  datatype FacingMode = Environment | User

  /** The facing-mode flip performed by `switchCamera`. */
  function Toggle(m: FacingMode): (r: FacingMode)
    ensures r != m
  {
    if m == Environment then User else Environment
  }

  /** Two switches bring the camera back to where it was. */
  lemma ToggleTwice(m: FacingMode)
    ensures Toggle(Toggle(m)) == m
  {
  }

  /** The camera label stored with a photo and used in its download name. */
  function CameraLabel(m: FacingMode): (name: string)
    ensures name == "Trasera" <==> m == Environment
    ensures name == "Frontal" <==> m == User
    ensures '-' !in name
  {
    match m
    case Environment => "Trasera"
    case User => "Frontal"
  }

  /** The constraints handed to the device: the wanted camera and an ideal 1920x1080. */
  datatype Constraints = Constraints(facingMode: FacingMode, idealWidth: nat, idealHeight: nat)

  const IdealWidth: nat := 1920
  const IdealHeight: nat := 1080

  function RequestFor(m: FacingMode): (c: Constraints)
    ensures c.facingMode == m
    ensures c.idealWidth == 1920 && c.idealHeight == 1080
  {
    Constraints(m, IdealWidth, IdealHeight)
  }

  /**
   * A captured still: which video frame was drawn, the size of the canvas it
   * was drawn on, and whether it was drawn mirrored. Pixels and JPEG encoding
   * are not modelled.
   */
  datatype Image = Image(frame: nat, width: nat, height: nat, mirrored: bool)

  /** An entry of the device list, of which only the kind is read. */
  datatype DeviceInfo = DeviceInfo(kind: string)

  predicate IsVideoInput(d: DeviceInfo) {
    d.kind == "videoinput"
  }

  /** The video-input devices, in the order the device list gives them. */
  function VideoInputs(devices: seq<DeviceInfo>): (r: seq<DeviceInfo>)
    ensures forall i :: 0 <= i < |r| ==> IsVideoInput(r[i])
    ensures forall d :: d in r <==> d in devices && IsVideoInput(d)
    ensures |r| == multiset(devices)[DeviceInfo("videoinput")]
    ensures |r| <= |devices|
  {
    if devices == [] then []
    else
      assert devices == [devices[0]] + devices[1..];
      if IsVideoInput(devices[0]) then [devices[0]] + VideoInputs(devices[1..])
      else VideoInputs(devices[1..])
  }

  /** No two positions of the list both hold a video input. */
  ghost predicate AtMostOneCamera(devices: seq<DeviceInfo>) {
    forall i, j :: 0 <= i < j < |devices| && IsVideoInput(devices[i]) ==> !IsVideoInput(devices[j])
  }

  /**
   * `checkCameras`: the switch control is hidden when the device list was
   * obtained and holds at most one video input; a failed listing does not
   * hide it.
   */
  function SwitchButtonHidden(listing: Option<seq<DeviceInfo>>): (hidden: bool)
    ensures hidden <==> listing.Some? && AtMostOneCamera(listing.value)
  {
    match listing
    case None => false
    case Some(devices) =>
      AtMostOneCameraIffCount(devices);
      |VideoInputs(devices)| <= 1
  }

  /** Counting the filtered list and looking for two video inputs agree. */
  lemma {:induction false} AtMostOneCameraIffCount(devices: seq<DeviceInfo>)
    ensures |VideoInputs(devices)| <= 1 <==> AtMostOneCamera(devices)
  {
    if devices != [] {
      AtMostOneCameraIffCount(devices[1..]);
      if IsVideoInput(devices[0]) {
        if |VideoInputs(devices[1..])| >= 1 {
          SecondCamera(devices);
        } else {
          OnlyFirstCamera(devices);
        }
      } else {
        SkipNonCamera(devices);
      }
    }
  }

  /** A video input at the front and another one later make two. */
  lemma SecondCamera(devices: seq<DeviceInfo>)
    requires devices != [] && IsVideoInput(devices[0])
    requires |VideoInputs(devices[1..])| >= 1
    ensures !AtMostOneCamera(devices)
  {
    var rest := devices[1..];
    var d := VideoInputs(rest)[0];
    assert d in rest;
    var k :| 0 <= k < |rest| && rest[k] == d;
    assert devices[k + 1] == d;
  }

  /** A video input at the front and none after it make one. */
  lemma OnlyFirstCamera(devices: seq<DeviceInfo>)
    requires devices != [] && IsVideoInput(devices[0])
    requires VideoInputs(devices[1..]) == []
    ensures AtMostOneCamera(devices)
  {
    var rest := devices[1..];
    forall j | 1 <= j < |devices|
      ensures !IsVideoInput(devices[j])
    {
      assert devices[j] in rest;
    }
  }

  /** A device that is not a video input does not change the answer. */
  lemma SkipNonCamera(devices: seq<DeviceInfo>)
    requires devices != [] && !IsVideoInput(devices[0])
    ensures AtMostOneCamera(devices) <==> AtMostOneCamera(devices[1..])
  {
    var rest := devices[1..];
    if AtMostOneCamera(rest) {
      forall i, j | 0 <= i < j < |devices| && IsVideoInput(devices[i])
        ensures !IsVideoInput(devices[j])
      {
        assert rest[i - 1] == devices[i] && rest[j - 1] == devices[j];
      }
    }
    if AtMostOneCamera(devices) {
      forall i, j | 0 <= i < j < |rest| && IsVideoInput(rest[i])
        ensures !IsVideoInput(rest[j])
      {
        assert devices[i + 1] == rest[i] && devices[j + 1] == rest[j];
      }
    }
  }
}
