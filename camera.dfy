/** The pan/tilt camera controller `TapoCamera` and the pytapo client it drives,
    seen from outside as a recorder of the calls it is sent. */
module Camera {
  import opened Wrappers
  import opened Motion
  import opened Results
  import opened Paths

  const NotConnectedMessage: string := "Camera not connected. Call connect() first."

  /** What an operation raises: the not-connected RuntimeError, or an exception
      of the device, of pytapo or of the image libraries, by its text. */
  datatype CameraError = NotConnected | DeviceError(reason: string)
  {
    function Message(): (m: string)
      ensures NotConnected? ==> m == NotConnectedMessage
      ensures DeviceError? ==> m == reason
    {
      match this
      case NotConnected => NotConnectedMessage
      case DeviceError(reason) => reason
    }
  }

  /** Host and credentials the client logs in with. */
  datatype CameraConfig = CameraConfig(host: string, username: string, password: string)

  /** One saved preset as pytapo lists it. */
  type Preset = map<string, string>

  /** The nested dictionaries `getBasicInfo` answers with. */
  type DeviceInfo = map<string, map<string, map<string, string>>>

  /** How the camera reachable at the configured host answers a client. Each
      per-call answer is a function of how many calls of that kind the same
      client made before: None or Success for a call that returns, Some or
      Failure with the exception's text for one that raises. */
  datatype Device = Device(
    loginFault: Option<string>,
    motorFaults: nat -> Option<string>,
    presetFaults: nat -> Option<string>,
    previews: nat -> Result<Frame, string>,
    basicInfo: Result<DeviceInfo, string>,
    presets: Result<seq<Preset>, string>)

  /** The pytapo `Tapo` client: it remembers every motor and preset call it is
      sent and, for every snapshot it is asked for, how many motor calls it had
      been sent by then. */
  class TapoClient {
    const host: string
    const username: string
    const password: string
    const device: Device
    /** Every `moveMotor(first, second)` sent through this client, in order. */
    var motorCalls: seq<MotorCall>
    /** Every `setPreset(id)` sent through this client, in order. */
    var presetCalls: seq<string>
    /** For each `getPreviewImage` this client has made, in order, the length of
        the motor log at that moment. */
    var snapshots: seq<nat>

    constructor (host: string, username: string, password: string, device: Device)
      ensures this.host == host && this.username == username && this.password == password
      ensures this.device == device
      ensures motorCalls == [] && presetCalls == [] && snapshots == []
    {
      this.host, this.username, this.password := host, username, password;
      this.device := device;
      motorCalls, presetCalls, snapshots := [], [], [];
    }

    method MoveMotor(first: int, second: int) returns (fault: Option<string>)
      modifies this
      ensures motorCalls == old(motorCalls) + [MotorCall(first, second)]
      ensures fault == device.motorFaults(|old(motorCalls)|)
      ensures presetCalls == old(presetCalls) && snapshots == old(snapshots)
    {
      fault := device.motorFaults(|motorCalls|);
      motorCalls := motorCalls + [MotorCall(first, second)];
    }

    method SetPreset(presetId: string) returns (fault: Option<string>)
      modifies this
      ensures presetCalls == old(presetCalls) + [presetId]
      ensures fault == device.presetFaults(|old(presetCalls)|)
      ensures motorCalls == old(motorCalls) && snapshots == old(snapshots)
    {
      fault := device.presetFaults(|presetCalls|);
      presetCalls := presetCalls + [presetId];
    }

    method GetPreviewImage() returns (answer: Result<Frame, string>)
      modifies this
      ensures snapshots == old(snapshots) + [|motorCalls|]
      ensures answer == device.previews(|old(snapshots)|)
      ensures motorCalls == old(motorCalls) && presetCalls == old(presetCalls)
    {
      answer := device.previews(|snapshots|);
      snapshots := snapshots + [|motorCalls|];
    }
  }

  /** What `capture_image` returns or raises for the device's answer to one snapshot. */
  function CaptureOutcome(answer: Result<Frame, string>, dir: PurePath, saveToFile: bool): (r: Result<CaptureResult, CameraError>)
    ensures r.Success? <==> answer.Success?
    ensures r.Success? ==> r.value == CaptureRecord(answer.value, dir, saveToFile)
    ensures r.Failure? ==> r.error == DeviceError(answer.error)
  {
    match answer
    case Success(frame) => Success(CaptureRecord(frame, dir, saveToFile))
    case Failure(e) => Failure(DeviceError(e))
  }

  /** What a run of `look_around` leaves behind: its result, the client's motor
      log and its snapshot record. */
  datatype TourRun = TourRun(result: Result<seq<CaptureResult>, CameraError>, calls: seq<MotorCall>, snapshots: seq<nat>)

  /** `look_around` on a connected client whose motor log is `calls` and whose
      snapshot record is `snaps`: capture, then the tour's moves between
      captures, stopping at the first capture that raises. Each move's own
      answer is ignored: `move` turns a motor fault into a record rather than
      raising. Every run takes between one and four snapshots, recording each
      after the calls already sent, and a successful one returns four records. */
  function LookAroundRun(device: Device, dir: PurePath, calls: seq<MotorCall>, snaps: seq<nat>): (r: TourRun)
    ensures snaps <= r.snapshots && |snaps| < |r.snapshots| <= |snaps| + 4
    ensures forall k :: |snaps| <= k < |r.snapshots| ==> |calls| <= r.snapshots[k] <= |r.calls|
    ensures r.result.Success? ==> |r.result.value| == 4
  {
    var snaps0 := snaps + [|calls|];
    match CaptureOutcome(device.previews(|snaps|), dir, true)
    case Failure(e) => TourRun(Failure(e), calls, snaps0)
    case Success(center) =>
      var calls1 := calls + [MotorArgs(Left, Clamp(45))];
      var snaps1 := snaps0 + [|calls1|];
      match CaptureOutcome(device.previews(|snaps0|), dir, true)
      case Failure(e) => TourRun(Failure(e), calls1, snaps1)
      case Success(left) =>
        var calls2 := calls1 + [MotorArgs(Right, Clamp(90))];
        var snaps2 := snaps1 + [|calls2|];
        match CaptureOutcome(device.previews(|snaps1|), dir, true)
        case Failure(e) => TourRun(Failure(e), calls2, snaps2)
        case Success(right) =>
          var calls3 := calls2 + [MotorArgs(Left, Clamp(45))];
          var calls4 := calls3 + [MotorArgs(Up, Clamp(20))];
          var snaps3 := snaps2 + [|calls4|];
          match CaptureOutcome(device.previews(|snaps2|), dir, true)
          case Failure(e) => TourRun(Failure(e), calls4, snaps3)
          case Success(up) =>
            TourRun(Success([center, left, right, up]), calls4 + [MotorArgs(Down, Clamp(20))], snaps3)
  }

  /** Whatever the device answers, the tour appends a prefix of its calls to the
      motor log and leaves no other motor call; a run that raises raises the
      device's error. */
  lemma LookAroundSendsTourPrefix(device: Device, dir: PurePath, calls: seq<MotorCall>, snaps: seq<nat>)
    ensures calls <= LookAroundRun(device, dir, calls, snaps).calls
    ensures LookAroundRun(device, dir, calls, snaps).calls[|calls|..] <= TourCalls
    ensures LookAroundRun(device, dir, calls, snaps).result.Failure? ==>
      LookAroundRun(device, dir, calls, snaps).result.error.DeviceError?
  {
  }

  /** The tour succeeds exactly when the four snapshots it asks for succeed; then
      it returns the records of those four snapshots in order, has sent the whole
      tour, whose calls sum to zero, and took its snapshots after the first 0,
      1, 2 and 4 of the tour's calls. */
  lemma LookAroundSucceeds(device: Device, dir: PurePath, calls: seq<MotorCall>, snaps: seq<nat>)
    ensures LookAroundRun(device, dir, calls, snaps).result.Success? <==>
      && device.previews(|snaps|).Success? && device.previews(|snaps| + 1).Success?
      && device.previews(|snaps| + 2).Success? && device.previews(|snaps| + 3).Success?
    ensures LookAroundRun(device, dir, calls, snaps).result.Success? ==>
      var run := LookAroundRun(device, dir, calls, snaps);
      && |run.result.value| == 4
      && (forall i :: 0 <= i < 4 ==> Success(run.result.value[i]) == CaptureOutcome(device.previews(|snaps| + i), dir, true))
      && run.calls == calls + TourCalls
      && Net(run.calls) == Net(calls)
      && run.snapshots == snaps + [|calls|, |calls| + 1, |calls| + 2, |calls| + 4]
  {
    var run := LookAroundRun(device, dir, calls, snaps);
    if run.result.Success? {
      assert calls + TourCalls[..0] == calls;
      TourStep(calls, 0, Left, 45);
      TourStep(calls, 1, Right, 90);
      TourStep(calls, 2, Left, 45);
      TourStep(calls, 3, Up, 20);
      TourStep(calls, 4, Down, 20);
      assert TourCalls[..5] == TourCalls;
      TourReturns(calls);
      assert |snaps| + 0 == |snaps|;
    }
  }

  /** When `look_around` succeeds, the calls sent since it started and before
      each of its four snapshots add up to (0,0), (0,-45), (0,45) and (20,0): the
      centre, 45 to the left, 45 to the right and 20 up. */
  lemma LookAroundShotPositions(device: Device, dir: PurePath, calls: seq<MotorCall>, snaps: seq<nat>)
    requires LookAroundRun(device, dir, calls, snaps).result.Success?
    ensures var run := LookAroundRun(device, dir, calls, snaps);
      var n, s := |calls|, |snaps|;
      && |run.snapshots| == s + 4
      && n <= run.snapshots[s] <= run.snapshots[s + 1] <= run.snapshots[s + 2] <= run.snapshots[s + 3] <= |run.calls|
      && Net(run.calls[n..run.snapshots[s]]) == MotorCall(0, 0)
      && Net(run.calls[n..run.snapshots[s + 1]]) == MotorCall(0, -45)
      && Net(run.calls[n..run.snapshots[s + 2]]) == MotorCall(0, 45)
      && Net(run.calls[n..run.snapshots[s + 3]]) == MotorCall(20, 0)
  {
    LookAroundSucceeds(device, dir, calls, snaps);
    TourShotsAt(calls);
  }

  /** After any log, the tour's calls cut after 0, 1, 2 and 4 of them add up to
      the four snapshot positions. */
  lemma TourShotsAt(calls: seq<MotorCall>)
    ensures var log, n := calls + TourCalls, |calls|;
      && Net(log[n..n]) == MotorCall(0, 0)
      && Net(log[n..n + 1]) == MotorCall(0, -45)
      && Net(log[n..n + 2]) == MotorCall(0, 45)
      && Net(log[n..n + 4]) == MotorCall(20, 0)
  {
    LookAroundTour();
    ShotsAfter(calls, TourCalls);
  }

  /** After any log, calls appended and cut after `k` of them add up to the
      first `k` of the appended calls. */
  lemma ShotsAfter(calls: seq<MotorCall>, more: seq<MotorCall>)
    requires |more| >= 4
    ensures var log, n := calls + more, |calls|;
      && Net(log[n..n]) == Net(more[..0])
      && Net(log[n..n + 1]) == Net(more[..1])
      && Net(log[n..n + 2]) == Net(more[..2])
      && Net(log[n..n + 4]) == Net(more[..4])
  {
    SentAfter(calls, more, 0);
    SentAfter(calls, more, 1);
    SentAfter(calls, more, 2);
    SentAfter(calls, more, 4);
  }

  /** The first `k` calls sent after a log are the first `k` of what was
      appended to it. */
  lemma SentAfter(calls: seq<MotorCall>, more: seq<MotorCall>, k: nat)
    requires k <= |more|
    ensures (calls + more)[|calls|..|calls| + k] == more[..k]
  {
  }

  /** Which of the client's motor calls the motors carried out: the i-th was
      unless the device answered it with an exception. */
  function Obeyed(device: Device, n: nat): (o: seq<bool>)
    ensures |o| == n
    ensures forall i :: 0 <= i < n ==> o[i] == device.motorFaults(i).None?
  {
    Answers(device, 0, n)
  }

  /** Where the motors of a device stand, relative to where the client found
      them, once the client has sent the motor log `log`. */
  function Position(device: Device, log: seq<MotorCall>): MotorCall
  {
    NetApplied(log, Obeyed(device, |log|))
  }

  /** How the device answers `n` motor calls from call `start` on: true where
      the call is carried out. */
  function Answers(device: Device, start: nat, n: nat): (a: seq<bool>)
    ensures |a| == n
    ensures forall k :: 0 <= k < n ==> a[k] == device.motorFaults(start + k).None?
  {
    seq(n, k requires 0 <= k < n => device.motorFaults(start + k).None?)
  }

  /** The device carries out the `n` motor calls from call `start` on. */
  predicate CarriesOut(device: Device, start: nat, n: nat)
  {
    forall i :: start <= i < start + n ==> device.motorFaults(i).None?
  }

  /** Of the `n` motor calls from call `start` on, the device refuses exactly
      the `refused`-th and carries out the others. */
  predicate OnlyFault(device: Device, start: nat, n: nat, refused: nat)
  {
    && refused < n
    && device.motorFaults(start + refused).Some?
    && forall i :: start <= i < start + n && i != start + refused ==> device.motorFaults(i).None?
  }

  /** Sending more calls moves the motors on by the ones the device carries
      out. */
  lemma PositionAppend(device: Device, log: seq<MotorCall>, more: seq<MotorCall>)
    ensures Position(device, log + more)
      == Plus(Position(device, log), NetApplied(more, Answers(device, |log|, |more|)))
  {
    var n := |log|;
    assert Obeyed(device, n + |more|) == Obeyed(device, n) + Answers(device, n, |more|);
    NetAppliedAppend(log, Obeyed(device, n), more, Answers(device, n, |more|));
  }

  /** Calls that cancel out and that the device all carries out leave the motors
      where they stood. */
  lemma ObeyedCancelReturns(device: Device, log: seq<MotorCall>, more: seq<MotorCall>)
    requires Net(more) == MotorCall(0, 0)
    requires CarriesOut(device, |log|, |more|)
    ensures Position(device, log + more) == Position(device, log)
  {
    var answers := Answers(device, |log|, |more|);
    forall k | 0 <= k < |more|
      ensures answers[k]
    {
      assert device.motorFaults(|log| + k).None?;
    }
    AllCarried(more, answers);
    PositionAppend(device, log, more);
  }

  /** Calls that cancel out, of which the device refuses exactly one that moves
      a motor, leave the motors away from where they stood. */
  lemma OneFaultStrands(device: Device, log: seq<MotorCall>, more: seq<MotorCall>, refused: nat)
    requires Net(more) == MotorCall(0, 0)
    requires OnlyFault(device, |log|, |more|, refused) && more[refused] != MotorCall(0, 0)
    ensures Position(device, log + more) != Position(device, log)
  {
    var answers := Answers(device, |log|, |more|);
    forall k | 0 <= k < |more| && k != refused
      ensures answers[k]
    {
      assert device.motorFaults(|log| + k).None?;
    }
    OneRefusalStrands(more, answers, refused);
    PositionAppend(device, log, more);
  }

  /** A successful tour whose five moves the device all carries out leaves the
      motors where they stood. */
  lemma LookAroundReturnsWhenObeyed(device: Device, dir: PurePath, calls: seq<MotorCall>, snaps: seq<nat>)
    requires LookAroundRun(device, dir, calls, snaps).result.Success?
    requires CarriesOut(device, |calls|, |TourCalls|)
    ensures Position(device, LookAroundRun(device, dir, calls, snaps).calls) == Position(device, calls)
  {
    LookAroundSucceeds(device, dir, calls, snaps);
    TourObeyedAt(device, calls);
  }

  /** The whole tour carried out after any log leaves the motors where the log
      had put them. */
  lemma TourObeyedAt(device: Device, calls: seq<MotorCall>)
    requires CarriesOut(device, |calls|, |TourCalls|)
    ensures Position(device, calls + TourCalls) == Position(device, calls)
  {
    NetAfterTour();
    ObeyedCancelReturns(device, calls, TourCalls);
  }

  /** When the four snapshots succeed and exactly one move raises, the others
      being carried out, `look_around` still reports success, yet the motors end
      away from where they stood. */
  lemma LookAroundOneFaultStrands(device: Device, dir: PurePath, calls: seq<MotorCall>, snaps: seq<nat>, refused: nat)
    requires device.previews(|snaps|).Success? && device.previews(|snaps| + 1).Success?
    requires device.previews(|snaps| + 2).Success? && device.previews(|snaps| + 3).Success?
    requires OnlyFault(device, |calls|, |TourCalls|, refused)
    ensures LookAroundRun(device, dir, calls, snaps).result.Success?
    ensures Position(device, LookAroundRun(device, dir, calls, snaps).calls) != Position(device, calls)
  {
    LookAroundSucceeds(device, dir, calls, snaps);
    TourOneFaultAt(device, calls, refused);
  }

  /** The tour with exactly one of its moves refused, after any log, leaves the
      motors away from where the log had put them. */
  lemma TourOneFaultAt(device: Device, calls: seq<MotorCall>, refused: nat)
    requires OnlyFault(device, |calls|, |TourCalls|, refused)
    ensures Position(device, calls + TourCalls) != Position(device, calls)
  {
    NetAfterTour();
    TourCallMoves(refused);
    OneFaultStrands(device, calls, TourCalls, refused);
  }

  /** The controller. Its one piece of state is `tapo`: null while disconnected,
      the client once connected. */
  class TapoCamera {
    const config: CameraConfig
    /** `Path(capture_dir)`. */
    const captureDir: PurePath
    var tapo: TapoClient?

    /** A connected client was logged in with this camera's host and credentials. */
    ghost predicate Valid()
      reads this
    {
      tapo != null ==>
        tapo.host == config.host && tapo.username == config.username && tapo.password == config.password
    }

    constructor (config: CameraConfig, captureDir: string := "/tmp/wifi-cam-mcp")
      ensures this.config == config && this.captureDir == ParsePath(captureDir)
      ensures tapo == null && Valid()
    {
      this.config, this.captureDir := config, ParsePath(captureDir);
      tapo := null;
    }

    /** Logs in only when disconnected: a second connect keeps the client it has. */
    method Connect(device: Device) returns (r: Result<(), CameraError>)
      requires Valid()
      modifies this
      ensures Valid()
      ensures r.Success? <==> tapo != null
      ensures old(tapo) != null ==> tapo == old(tapo)
      ensures old(tapo) == null && device.loginFault.None? ==>
        tapo != null && fresh(tapo) && tapo.device == device
        && tapo.motorCalls == [] && tapo.presetCalls == [] && tapo.snapshots == []
      ensures old(tapo) == null && device.loginFault.Some? ==>
        r == Failure(DeviceError(device.loginFault.value))
    {
      if tapo == null {
        if device.loginFault.Some? {
          return Failure(DeviceError(device.loginFault.value));
        }
        tapo := new TapoClient(config.host, config.username, config.password, device);
      }
      r := Success(());
    }

    method Disconnect()
      modifies this
      ensures tapo == null && Valid()
    {
      tapo := null;
    }

    /** `_ensure_connected`: the client, or the not-connected error. */
    function EnsureConnected(): (r: Result<TapoClient, CameraError>)
      reads this
      ensures r.Success? <==> tapo != null
      ensures r.Success? ==> r.value == tapo
      ensures r.Failure? ==> r.error == NotConnected
    {
      if tapo == null then Failure(NotConnected) else Success(tapo)
    }

    /** `move(direction, degrees)`: raises the not-connected error and sends
        nothing, or sends exactly the mapped, clamped motor call and returns the
        record for the motor's answer. */
    method Move(direction: Direction, degrees: int := 30) returns (r: Result<MoveResult, CameraError>)
      requires Valid()
      modifies tapo
      ensures Valid()
      ensures tapo == null ==> r == Failure(NotConnected)
      ensures tapo != null ==>
        && tapo.motorCalls == old(tapo.motorCalls) + [MotorArgs(direction, Clamp(degrees))]
        && tapo.presetCalls == old(tapo.presetCalls) && tapo.snapshots == old(tapo.snapshots)
        && r == Success(MoveOutcome(direction, degrees, tapo.device.motorFaults(|old(tapo.motorCalls)|)))
    {
      var client := EnsureConnected();
      if client.Failure? {
        return Failure(client.error);
      }
      var c := Clamp(degrees);
      var args := MotorArgs(direction, c);
      var fault := client.value.MoveMotor(args.first, args.second);
      r := Success(MoveOutcome(direction, degrees, fault));
    }

    method PanLeft(degrees: int := 30) returns (r: Result<MoveResult, CameraError>)
      requires Valid()
      modifies tapo
      ensures Valid()
      ensures tapo == null ==> r == Failure(NotConnected)
      ensures tapo != null ==>
        && tapo.motorCalls == old(tapo.motorCalls) + [MotorArgs(Left, Clamp(degrees))]
        && tapo.presetCalls == old(tapo.presetCalls) && tapo.snapshots == old(tapo.snapshots)
        && r == Success(MoveOutcome(Left, degrees, tapo.device.motorFaults(|old(tapo.motorCalls)|)))
    {
      r := Move(Left, degrees);
    }

    method PanRight(degrees: int := 30) returns (r: Result<MoveResult, CameraError>)
      requires Valid()
      modifies tapo
      ensures Valid()
      ensures tapo == null ==> r == Failure(NotConnected)
      ensures tapo != null ==>
        && tapo.motorCalls == old(tapo.motorCalls) + [MotorArgs(Right, Clamp(degrees))]
        && tapo.presetCalls == old(tapo.presetCalls) && tapo.snapshots == old(tapo.snapshots)
        && r == Success(MoveOutcome(Right, degrees, tapo.device.motorFaults(|old(tapo.motorCalls)|)))
    {
      r := Move(Right, degrees);
    }

    method TiltUp(degrees: int := 20) returns (r: Result<MoveResult, CameraError>)
      requires Valid()
      modifies tapo
      ensures Valid()
      ensures tapo == null ==> r == Failure(NotConnected)
      ensures tapo != null ==>
        && tapo.motorCalls == old(tapo.motorCalls) + [MotorArgs(Up, Clamp(degrees))]
        && tapo.presetCalls == old(tapo.presetCalls) && tapo.snapshots == old(tapo.snapshots)
        && r == Success(MoveOutcome(Up, degrees, tapo.device.motorFaults(|old(tapo.motorCalls)|)))
    {
      r := Move(Up, degrees);
    }

    method TiltDown(degrees: int := 20) returns (r: Result<MoveResult, CameraError>)
      requires Valid()
      modifies tapo
      ensures Valid()
      ensures tapo == null ==> r == Failure(NotConnected)
      ensures tapo != null ==>
        && tapo.motorCalls == old(tapo.motorCalls) + [MotorArgs(Down, Clamp(degrees))]
        && tapo.presetCalls == old(tapo.presetCalls) && tapo.snapshots == old(tapo.snapshots)
        && r == Success(MoveOutcome(Down, degrees, tapo.device.motorFaults(|old(tapo.motorCalls)|)))
    {
      r := Move(Down, degrees);
    }

    /** `capture_image(save_to_file)`: raises the not-connected error and asks
        for nothing, or asks for one snapshot and returns or raises what the
        answer comes to. */
    method CaptureImage(saveToFile: bool := true) returns (r: Result<CaptureResult, CameraError>)
      requires Valid()
      modifies tapo
      ensures Valid()
      ensures tapo == null ==> r == Failure(NotConnected)
      ensures tapo != null ==>
        && tapo.snapshots == old(tapo.snapshots) + [|tapo.motorCalls|]
        && tapo.motorCalls == old(tapo.motorCalls) && tapo.presetCalls == old(tapo.presetCalls)
        && r == CaptureOutcome(tapo.device.previews(|old(tapo.snapshots)|), captureDir, saveToFile)
    {
      var client := EnsureConnected();
      if client.Failure? {
        return Failure(client.error);
      }
      var answer := client.value.GetPreviewImage();
      r := CaptureOutcome(answer, captureDir, saveToFile);
    }

    /** `look_around`: captures center, left, right and up, moving between
        them, and stops at the first capture that raises. */
    method LookAround() returns (r: Result<seq<CaptureResult>, CameraError>)
      requires Valid()
      modifies tapo
      ensures Valid() && tapo == old(tapo)
      ensures tapo == null ==> r == Failure(NotConnected)
      ensures tapo != null ==>
        var run := LookAroundRun(tapo.device, captureDir, old(tapo.motorCalls), old(tapo.snapshots));
        && r == run.result
        && tapo.motorCalls == run.calls && tapo.snapshots == run.snapshots
        && tapo.presetCalls == old(tapo.presetCalls)
    {
      var captures: seq<CaptureResult> := [];
      var shot := CaptureImage();
      if shot.Failure? {
        return Failure(shot.error);
      }
      captures := captures + [shot.value];
      ghost var center := shot.value;

      var moved := PanLeft(45);
      shot := CaptureImage();
      if shot.Failure? {
        return Failure(shot.error);
      }
      captures := captures + [shot.value];
      ghost var left := shot.value;

      moved := PanRight(90);
      shot := CaptureImage();
      if shot.Failure? {
        return Failure(shot.error);
      }
      captures := captures + [shot.value];
      ghost var right := shot.value;

      moved := PanLeft(45);
      moved := TiltUp(20);
      shot := CaptureImage();
      if shot.Failure? {
        return Failure(shot.error);
      }
      captures := captures + [shot.value];
      ghost var up := shot.value;

      moved := TiltDown(20);
      assert captures == [center, left, right, up];
      r := Success(captures);
    }

    /** `go_to_preset`: raises the not-connected error and sends nothing, or sends
        one `setPreset` and returns the record for the device's answer. */
    method GoToPreset(presetId: string) returns (r: Result<MoveResult, CameraError>)
      requires Valid()
      modifies tapo
      ensures Valid() && tapo == old(tapo)
      ensures tapo == null ==> r == Failure(NotConnected)
      ensures tapo != null ==>
        && tapo.presetCalls == old(tapo.presetCalls) + [presetId]
        && tapo.motorCalls == old(tapo.motorCalls) && tapo.snapshots == old(tapo.snapshots)
        && r == Success(PresetOutcome(presetId, tapo.device.presetFaults(|old(tapo.presetCalls)|)))
    {
      var client := EnsureConnected();
      if client.Failure? {
        return Failure(client.error);
      }
      var fault := client.value.SetPreset(presetId);
      r := Success(PresetOutcome(presetId, fault));
    }

    /** `get_device_info`: the `basic_info` section of the device's answer. */
    method GetDeviceInfo() returns (r: Result<map<string, string>, CameraError>)
      ensures tapo == null ==> r == Failure(NotConnected)
      ensures tapo != null && tapo.device.basicInfo.Failure? ==> r == Failure(DeviceError(tapo.device.basicInfo.error))
      ensures tapo != null && tapo.device.basicInfo.Success? ==> r == Success(BasicInfo(tapo.device.basicInfo.value))
    {
      var client := EnsureConnected();
      if client.Failure? {
        return Failure(client.error);
      }
      match client.value.device.basicInfo
      case Success(info) => r := Success(BasicInfo(info));
      case Failure(e) => r := Failure(DeviceError(e));
    }

    /** `get_presets`: the device's list of presets, as it gives it. */
    method GetPresets() returns (r: Result<seq<Preset>, CameraError>)
      ensures tapo == null ==> r == Failure(NotConnected)
      ensures tapo != null && tapo.device.presets.Failure? ==> r == Failure(DeviceError(tapo.device.presets.error))
      ensures tapo != null && tapo.device.presets.Success? ==> r == Success(tapo.device.presets.value)
    {
      var client := EnsureConnected();
      if client.Failure? {
        return Failure(client.error);
      }
      match client.value.device.presets
      case Success(presets) => r := Success(presets);
      case Failure(e) => r := Failure(DeviceError(e));
    }
  }
}
