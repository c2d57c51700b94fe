/** The controller's test cases, replayed against the model with a device that
    accepts every call. */
module Scenarios {
  import opened Wrappers
  import opened Motion
  import opened Results
  import opened Camera

  /** A device that logs in, accepts every motor and preset call and answers
      every snapshot with `frame`. */
  function Compliant(frame: Frame): Device
  {
    Device(None, _ => None, _ => None, _ => Success(frame), Success(map[]), Success([]))
  }

  function TestConfig(): CameraConfig
  {
    CameraConfig("192.168.1.100", "test@example.com", "testpassword")
  }

  /** Panning left 30 and right 45 succeeds with the angle asked for; 180 and
      -10 are clamped to 90 and 1. */
  method PanScenario() returns (left30: Result<MoveResult, CameraError>, right45: Result<MoveResult, CameraError>,
                                left180: Result<MoveResult, CameraError>, leftNegative: Result<MoveResult, CameraError>)
    ensures left30.Success? && left30.value.success && left30.value.direction == Left && left30.value.degrees == 30
    ensures right45.Success? && right45.value.success && right45.value.direction == Right && right45.value.degrees == 45
    ensures left180.Success? && left180.value.degrees == 90
    ensures leftNegative.Success? && leftNegative.value.degrees == 1
  {
    var camera := new TapoCamera(TestConfig(), "/tmp/pytest");
    var connected := camera.Connect(Compliant(Frame("iVBORw0KGgo=", "20240101_120000", 1920, 1080)));
    left30 := camera.PanLeft(30);
    right45 := camera.PanRight(45);
    left180 := camera.PanLeft(180);
    leftNegative := camera.PanLeft(-10);
  }

  /** A snapshot taken without saving carries the frame's size and no file
      path. With `Image.open` replaced by a mock whose `save` writes nothing,
      the re-encoded JPEG is empty, so the image text is empty as well. */
  method CaptureScenario() returns (shot: Result<CaptureResult, CameraError>)
    ensures shot.Success? && shot.value.width == 1920 && shot.value.height == 1080
    ensures shot.value.imageBase64 == "" && shot.value.filePath.None?
  {
    var camera := new TapoCamera(TestConfig(), "/tmp/pytest");
    var connected := camera.Connect(Compliant(Frame("", "20240101_120000", 1920, 1080)));
    shot := camera.CaptureImage(false);
  }

  /** Extends the connect test of tests/test_camera.py, which connects once and
      checks that one client is created. Here a move before connecting raises
      the not-connected error, and a second connect keeps the first client, so
      the client is still created once. */
  method ConnectScenario() returns (early: Result<MoveResult, CameraError>, first: Result<(), CameraError>,
                                    second: Result<(), CameraError>, sameClient: bool)
    ensures early == Failure(NotConnected)
    ensures first.Success? && second.Success? && sameClient
  {
    var camera := new TapoCamera(TestConfig(), "/tmp/pytest");
    var device := Compliant(Frame("iVBORw0KGgo=", "20240101_120000", 1920, 1080));
    early := camera.PanLeft();
    first := camera.Connect(device);
    var client := camera.tapo;
    second := camera.Connect(device);
    sameClient := client == camera.tapo;
  }
}
