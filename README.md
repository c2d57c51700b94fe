# Tapo pan/tilt camera controller, in Dafny

This project models `TapoCamera`, the controller the embodied-agent repository
uses as its "eyes". It drives a Tapo C210-style PTZ camera through the `pytapo`
client. The controller is a two-state machine. While disconnected its client
`_tapo` is `None`; once connected it holds a client. On top of that state sit:

- `move`, which clamps the requested angle into [1, 90], sends one
  `moveMotor(first, second)` call whose argument pair depends on the direction,
  and turns the motor's answer into a frozen `MoveResult`. A motor exception
  becomes a failure record and is never raised;
- the `pan_left` / `pan_right` / `tilt_up` / `tilt_down` shorthands;
- `capture_image`, which builds a `CaptureResult` whose `file_path` exists
  exactly when the capture is saved. That path is `str(capture_dir /
  f"capture_{timestamp}.jpg")`, where `capture_dir` is the `pathlib` path the
  constructor parsed from its text;
- `look_around`, a fixed tour of captures and moves. The motor calls it sends
  sum to zero on both axes, but it never checks the moves' answers. The
  motors are back at their start when every move is carried out, and away
  from it when exactly one move raises;
- `go_to_preset`, `get_presets` and `get_device_info`, thin pass-throughs to
  the client;
- `_ensure_connected`, the not-connected error every device operation raises
  before it sends anything.

Layout:

- `wrappers.dfy`: `Option` and `Result`.
- `motion.dfy` (module `Motion`): `Direction`, the clamp, the motor argument
  mapping and its inverse, the net displacement of a sequence of motor calls
  (of all of them, or of those the motors carried out), and the `look_around`
  tour.
- `paths.dfy` (module `Paths`): POSIX `pathlib` parsing, rendering and
  joining, as far as the capture directory needs them.
- `results.dfy` (module `Results`): the `MoveResult` and `CaptureResult`
  records; the message texts, with a parser as the partner that reads them
  back; the saved-capture path; the `basic_info` lookup.
- `camera.dfy` (module `Camera`): the abstract `pytapo` client (`TapoClient`)
  and the controller (`TapoCamera`) as classes.
- `scenarios.dfy` (module `Scenarios`): the controller's own test cases
  against the model. The capture and pan tests are replayed as written. The
  connect test is extended with a move before connecting and a second
  connect.

The `pytapo` client is modelled as an object that records every
`moveMotor` and `setPreset` call it is sent. For each snapshot request it
records how many motor calls it had been sent at that moment.
What the physical camera answers is a `Device` value given to `Connect`. It
holds the login outcome, the outcome of the i-th motor call, the i-th preset
call and the i-th snapshot, and the answers to `getBasicInfo` and
`getPresets`. A snapshot answer carries everything the image libraries and
the clock contribute: the base64 text of the re-encoded JPEG, the
`%Y%m%d_%H%M%S` stamp and the decoded width and height.

The path a saved capture goes to depends only on the capture directory and the
one-second timestamp (`Results.CapturePathInjective`). The moves in
`look_around` sleep 0.5 s each, so two of its four saved captures can fall in
the same second. They are then written to the same file, and the later one
overwrites the earlier.

Where the motors stand is `Camera.Position`. It is the net displacement of the
motor calls the device carried out, where a call that raised counts as not
carried out. `look_around` reports success whatever its moves answer.
`Camera.LookAroundReturnsWhenObeyed` shows that the motors are back at their
start when every move is carried out. `Camera.LookAroundOneFaultStrands` shows
that when the snapshots succeed and exactly one move raises, `look_around`
still reports success and the motors end away from their start. Other
patterns of raised moves are not characterised: two raised tilts, for
example, cancel each other.

`Scenarios.CaptureScenario` replays the capture test of tests/test_camera.py.
That test replaces `Image.open` by a mock, and the mock's `save` writes nothing
into the buffer. The re-encoded JPEG is then empty and so is `image_base64`.
The scenario's frame therefore carries empty image text, and its contract
states `image_base64 == ""`. The test's last assertion (tests/test_camera.py:98)
expects a non-empty text, and the code as written does not give one.

## Model

| member | source | states |
|---|---|---|
| `Motion.Direction.Value` | src/wifi_cam_mcp/camera.py:21-24 | each direction's text is non-empty |
| `Motion.Direction.ValueInjective` | src/wifi_cam_mcp/camera.py:21-24 | two directions have the same text exactly when they are the same direction |
| `Motion.Clamp` | src/wifi_cam_mcp/camera.py:129 | the angle a move uses is always in [1, 90]; it equals the request inside that range, 1 below it and 90 above it |
| `Motion.ClampIdempotentMonotone` | src/wifi_cam_mcp/camera.py:129 | clamping twice changes nothing, and a larger request never yields a smaller angle |
| `Motion.ClampExamples` | tests/test_camera.py:64-76 | a request of 180 becomes 90, -10 becomes 1, and 30 and 45 are kept |
| `Motion.MotorArgs` | src/wifi_cam_mcp/camera.py:132-140 | each direction drives exactly one of the two motor arguments, by the magnitude of the clamped angle |
| `Motion.MotorArgsDecoded` | src/wifi_cam_mcp/camera.py:132-140 | a motor call reads back as (direction, angle) exactly when it is what `move` sends for that direction and a positive angle, so no two directions share a call |
| `Motion.OppositeMovesCancel` | src/wifi_cam_mcp/camera.py:132-140 | a move followed by the same request in the opposite direction leaves net displacement zero on both axes |
| `Motion.NetAppend` | src/wifi_cam_mcp/camera.py:132-140 | the net displacement of two runs of motor calls is the sum of their displacements |
| `Motion.PlannedCalls` | src/wifi_cam_mcp/camera.py:188-201 | a plan of requested moves sends one motor call per step: the mapped, clamped call for that step |
| `Motion.TourCallsPlanned` | src/wifi_cam_mcp/camera.py:188-201 | the tour's requests (left 45, right 90, left 45, up 20, down 20) send (0,-45), (0,90), (0,-45), (20,0), (-20,0), and clamping changes none of them |
| `Motion.TourStep` | src/wifi_cam_mcp/camera.py:188-201 | sending the call for the tour's next request extends the part of the tour already sent by exactly that call |
| `Motion.LookAroundTour` | src/wifi_cam_mcp/camera.py:185-201 | the tour's calls cut after 0, 1, 2 and 4 of them add up to (0,0), (0,-45), (0,45) and (20,0), and all five add up to (0,0) |
| `Motion.TourReturns` | src/wifi_cam_mcp/camera.py:185-201 | appending the tour's calls to any motor log leaves the sum of the calls in the log unchanged |
| `Motion.NetAppliedAppend` | src/wifi_cam_mcp/camera.py:132-140 | the displacement the motors carry out over two runs of calls is the sum of the two runs' carried-out displacements |
| `Motion.AllCarried` | src/wifi_cam_mcp/camera.py:132-140 | when every call is carried out, the motors move by the calls' net displacement |
| `Motion.NetReplace` | src/wifi_cam_mcp/camera.py:132-140 | replacing one call in a log changes the log's net displacement by the new call minus the old one, on each axis |
| `Motion.OneRefusal` | src/wifi_cam_mcp/camera.py:132-140 | when every call but one is carried out, the motors fall short of the calls' net displacement by exactly the refused call |
| `Motion.OneRefusalStrands` | src/wifi_cam_mcp/camera.py:185-201 | in calls that sum to zero, refusing exactly one call that moves a motor leaves the motors at the opposite of that call, which is not (0,0) |
| `Results.MoveMessage` | src/wifi_cam_mcp/camera.py:148 | the definition itself, "Moved " then the direction's text, " by ", the decimal angle and " degrees"; `Results.MoveMessageRoundTrip` is its partner |
| `Results.DecimalRoundTrip` | src/wifi_cam_mcp/camera.py:148 | the decimal text of the angle in a message reads back as the same number |
| `Results.MoveMessageRoundTrip` | src/wifi_cam_mcp/camera.py:148 | every "Moved {direction} by {degrees} degrees" message reads back as exactly the direction and degrees it was built from |
| `Results.FailureIsNotMoved` | src/wifi_cam_mcp/camera.py:155 | a "Failed to move: " message never reads as a success message |
| `Results.MoveOutcome` | src/wifi_cam_mcp/camera.py:144-156 | the record echoes the direction and carries the clamped angle, and `success` holds exactly when the motor call did not raise |
| `Results.MoveOutcomeReadsBack` | src/wifi_cam_mcp/camera.py:144-156 | a success message reads back as the direction and clamped angle; a failure message is "Failed to move: " followed by the exception's text and never reads as a success |
| `Results.PresetOutcome` | src/wifi_cam_mcp/camera.py:217-235 | the preset record is always LEFT and 0 degrees; it succeeds exactly when `setPreset` did not raise, and its message names the preset or the exception after a fixed prefix and never reads as a move message |
| `Paths.RootOf` | src/wifi_cam_mcp/camera.py:53 | the root read off a path's text is a prefix of the text, and it is empty exactly when the text does not start with "/" |
| `Paths.ParsePath` | src/wifi_cam_mcp/camera.py:53 | a parsed path has root "", "/" or "//", and its components are non-empty, never ".", and free of "/" |
| `Paths.Components` | src/wifi_cam_mcp/camera.py:53 | every component read from a text is non-empty, not ".", and free of "/" |
| `Paths.Render` | src/wifi_cam_mcp/camera.py:105 | `str` of a parsed path is never empty: the empty path renders as "." |
| `Paths.Join` | src/wifi_cam_mcp/camera.py:105 | `path / name` keeps the root, extends the components, and joined to a parsed path gives a parsed path |
| `Paths.ParseRender` | src/wifi_cam_mcp/camera.py:53 | rendering any parsed path with `str` and parsing the text again gives the same path |
| `Paths.ParseIdempotent` | src/wifi_cam_mcp/camera.py:53 | a text and the rendering of its parse name the same path |
| `Paths.ComponentsOfJoin` | src/wifi_cam_mcp/camera.py:53 | splitting components joined by "/" gives the components back |
| `Paths.JoinPartsSnoc` | src/wifi_cam_mcp/camera.py:105 | rendering one more component appends "/" and that component |
| `Paths.ParseEmpty` | src/wifi_cam_mcp/camera.py:53 | the empty text parses to the current directory, which renders as "." |
| `Paths.ParseDotPrefix` | src/wifi_cam_mcp/camera.py:53 | "./caps" parses to the single component "caps" |
| `Paths.ParseDoubledSeparator` | src/wifi_cam_mcp/camera.py:53 | "a//b/" parses to the components "a" and "b" |
| `Paths.ParseRoots` | src/wifi_cam_mcp/camera.py:53 | one leading "/" gives root "/", exactly two give "//", three give "/", and the components are the same in each case |
| `Results.CaptureName` | src/wifi_cam_mcp/camera.py:105 | the name `capture_{timestamp}.jpg` is twelve characters longer than the stamp, holds the stamp between "capture_" and ".jpg", and holds no "/" |
| `Results.CapturePath` | src/wifi_cam_mcp/camera.py:105 | the definition itself, the capture directory with the file name as one more component, rendered; `Results.CapturePathJoins` ties it to `Paths.Join` |
| `Results.CapturePathJoins` | src/wifi_cam_mcp/camera.py:105 | the saved path is the capture directory joined with the file name by `/`, rendered with `str` |
| `Results.CaptureNameIsPart` | src/wifi_cam_mcp/camera.py:105 | the file name `capture_{timestamp}.jpg` is one path component |
| `Results.CapturePathParses` | src/wifi_cam_mcp/camera.py:101-105 | a saved path reads back as the capture directory with the file name as one more component |
| `Results.CapturePathInjective` | src/wifi_cam_mcp/camera.py:101-105 | two captures go to the same file exactly when their timestamps are equal |
| `Results.CapturePathText` | src/wifi_cam_mcp/camera.py:105 | the path is the bare file name for the current directory, root plus name for a bare root, and the rendered directory, "/" and the name otherwise |
| `Results.CapturePathEmptyDir` | src/wifi_cam_mcp/camera.py:53-105 | an empty directory text saves `capture_{timestamp}.jpg` in the current directory, not at the root |
| `Results.CapturePathDotDir` | src/wifi_cam_mcp/camera.py:53-105 | the directory text "./caps" saves to `caps/capture_{timestamp}.jpg` |
| `Results.CapturePathDoubledDir` | src/wifi_cam_mcp/camera.py:53-105 | the directory text "a//b/" saves to `a/b/capture_{timestamp}.jpg` |
| `Results.CaptureRecord` | src/wifi_cam_mcp/camera.py:101-115 | `file_path` is None exactly when the capture is not saved, and otherwise it is `capture_dir/capture_{timestamp}.jpg`; width, height, stamp and image text are the frame's |
| `Results.BasicInfo` | src/wifi_cam_mcp/camera.py:209 | the `basic_info` section under `device_info` when both keys exist, and the empty dictionary otherwise |
| `Camera.CaptureOutcome` | src/wifi_cam_mcp/camera.py:90-115 | a capture returns exactly when the snapshot succeeds, and then it returns the capture record; otherwise it raises the device's error |
| `Camera.CameraError.Message` | src/wifi_cam_mcp/camera.py:77 | the not-connected error's text is the RuntimeError's message, and a device error's text is the exception's |
| `Camera.TapoClient.constructor` | src/wifi_cam_mcp/camera.py:61-66 | the client keeps the host and credentials it logs in with, answers as the given device, and starts with no call recorded |
| `Camera.TapoClient.MoveMotor` | src/wifi_cam_mcp/camera.py:134-140 | one `moveMotor(first, second)` call is appended to the motor log, nothing else recorded changes, and the answer is the device's for that call's position in the log |
| `Camera.TapoClient.SetPreset` | src/wifi_cam_mcp/camera.py:221 | one `setPreset(id)` call is appended to the preset log, nothing else recorded changes, and the answer is the device's for that call |
| `Camera.TapoClient.GetPreviewImage` | src/wifi_cam_mcp/camera.py:92 | the snapshot is recorded with the current length of the motor log, no call is recorded, and the answer is the device's for that snapshot |
| `Camera.LookAroundRun` | src/wifi_cam_mcp/camera.py:183-203 | every run keeps the earlier snapshot record and adds one to four snapshots, each recorded with a motor-log length between the log's length at the start and at the end of the run; a successful run returns four records |
| `Camera.LookAroundSendsTourPrefix` | src/wifi_cam_mcp/camera.py:174-203 | whatever the device answers, `look_around` appends a prefix of the tour's calls to the motor log and nothing else, and a run that raises raises a device error |
| `Camera.LookAroundSucceeds` | src/wifi_cam_mcp/camera.py:174-203 | `look_around` succeeds exactly when its four snapshots do; it then returns those four records in order, has sent the whole tour, whose calls sum to zero, and took its snapshots after 0, 1, 2 and 4 of the tour's calls |
| `Camera.LookAroundShotPositions` | src/wifi_cam_mcp/camera.py:174-203 | in a successful `look_around`, the calls sent before each of the four snapshots add up to (0,0), (0,-45), (0,45) and (20,0): centre, left, right and up |
| `Camera.TourShotsAt` | src/wifi_cam_mcp/camera.py:185-201 | after any motor log, the tour's calls cut after 0, 1, 2 and 4 of them add up to the four snapshot positions |
| `Camera.PositionAppend` | src/wifi_cam_mcp/camera.py:132-156 | sending more motor calls moves the motors on by the calls among them that the device carries out |
| `Camera.ObeyedCancelReturns` | src/wifi_cam_mcp/camera.py:132-156 | calls that sum to zero and that the device all carries out leave the motors where they stood |
| `Camera.OneFaultStrands` | src/wifi_cam_mcp/camera.py:132-156 | calls that sum to zero, of which the device refuses exactly one that moves a motor, leave the motors away from where they stood |
| `Camera.TourObeyedAt` | src/wifi_cam_mcp/camera.py:185-201 | the whole tour, carried out after any log, leaves the motors where the log had put them |
| `Camera.TourOneFaultAt` | src/wifi_cam_mcp/camera.py:185-201 | the tour with exactly one move refused, after any log, leaves the motors away from where the log had put them |
| `Camera.LookAroundReturnsWhenObeyed` | src/wifi_cam_mcp/camera.py:174-203 | a successful `look_around` whose five moves the device all carries out leaves the motors where they stood |
| `Camera.LookAroundOneFaultStrands` | src/wifi_cam_mcp/camera.py:174-203 | when the four snapshots succeed and exactly one move raises, `look_around` still succeeds, and it leaves the motors away from where they stood |
| `Camera.TapoCamera.constructor` | src/wifi_cam_mcp/camera.py:51-55 | a new controller keeps its configuration, holds the capture directory as the `pathlib` parse of its text, and starts disconnected |
| `Camera.TapoCamera.Connect` | src/wifi_cam_mcp/camera.py:57-67 | a client is created only when disconnected, fresh, with an empty call log; connecting again keeps the same client; a login that raises leaves the controller disconnected |
| `Camera.TapoCamera.Disconnect` | src/wifi_cam_mcp/camera.py:69-72 | afterwards the controller is disconnected, whatever its state was |
| `Camera.TapoCamera.EnsureConnected` | src/wifi_cam_mcp/camera.py:74-78 | the client when connected; the not-connected error exactly when disconnected |
| `Camera.TapoCamera.Move` | src/wifi_cam_mcp/camera.py:117-156 | disconnected: the not-connected error and no call sent; connected: exactly one motor call, the mapped, clamped one, no other client change, and the record for the motor's answer, never a raised error |
| `Camera.TapoCamera.PanLeft` | src/wifi_cam_mcp/camera.py:158-160 | `move` to the left, with a default of 30 degrees |
| `Camera.TapoCamera.PanRight` | src/wifi_cam_mcp/camera.py:162-164 | `move` to the right, with a default of 30 degrees |
| `Camera.TapoCamera.TiltUp` | src/wifi_cam_mcp/camera.py:166-168 | `move` up, with a default of 20 degrees |
| `Camera.TapoCamera.TiltDown` | src/wifi_cam_mcp/camera.py:170-172 | `move` down, with a default of 20 degrees |
| `Camera.TapoCamera.CaptureImage` | src/wifi_cam_mcp/camera.py:80-115 | disconnected: the not-connected error and no snapshot requested; connected: exactly one snapshot requested, recorded with the current length of the motor log, no motor or preset call, and the capture outcome for that snapshot |
| `Camera.TapoCamera.LookAround` | src/wifi_cam_mcp/camera.py:174-203 | the client, its motor log, its snapshot record and the result are those of the tour run on the state before the call, so the tour lemmas above apply |
| `Camera.TapoCamera.GoToPreset` | src/wifi_cam_mcp/camera.py:217-235 | disconnected: the not-connected error; connected: exactly one `setPreset` call, no motor call, and the preset record for its answer |
| `Camera.TapoCamera.GetDeviceInfo` | src/wifi_cam_mcp/camera.py:205-209 | disconnected: the not-connected error; connected: the `basic_info` section of the device's answer, or the device's error |
| `Camera.TapoCamera.GetPresets` | src/wifi_cam_mcp/camera.py:211-215 | disconnected: the not-connected error; connected: the device's preset list as it gives it, or the device's error |
| `Scenarios.PanScenario` | tests/test_camera.py:38-76 | on a compliant device, pan left 30 and pan right 45 succeed with those angles and directions, and 180 and -10 are reported as 90 and 1 |
| `Scenarios.CaptureScenario` | tests/test_camera.py:78-98 | an unsaved capture carries the frame's 1920x1080 size and no file path; with the test's mocked image encoder its image text is empty |
| `Scenarios.ConnectScenario` | tests/test_camera.py:31-36 | extends the test: a move before connecting raises the not-connected error; two connects succeed and keep one client |

## Left out

- Async machinery: `asyncio.Lock`, `asyncio.to_thread` and the `asyncio.sleep` pauses after moves and preset changes. The operations are modelled as sequential methods, so concurrent callers interleaving on the lock are not modelled.
- Image handling and time in `capture_image`: PIL decoding and JPEG re-encoding, base64 encoding and `datetime.now()`. They are foreign library calls and a clock. Their results enter as the opaque `Frame` of each snapshot answer, and any exception they raise is folded into that answer's failure.
- Disk I/O: creating the capture directory in `connect` and writing the saved capture file. Their possible errors are not modelled separately, and neither is the file contents.
- Camera.TapoCamera.Connect: `connect` stores the new client before it creates the capture directory (src/wifi_cam_mcp/camera.py:61-67). If that `mkdir` raises, the Python controller is left connected although `connect` raised, a second `connect` skips `mkdir`, and later saved captures fail when the file is opened. The model has no `mkdir` failure, so its contract that `connect` succeeds exactly when a client is held does not cover this path.
- `pytapo` internals (`Tapo`, `moveMotor`, `getPreviewImage`, `setPreset`, `getBasicInfo`, `getPresets`). That library is not part of this model. It appears only as the recording `TapoClient` and the `Device` answers. The physical meaning of the two `moveMotor` arguments is not claimed beyond their order.
- Camera.TapoCamera.GetDeviceInfo: the device's answer is typed as nested dictionaries, so the case where `device_info` holds a non-dictionary (an `AttributeError` in Python) is not modelled.
- Camera.TapoCamera.GetPresets: the preset entries are modelled as string-to-string dictionaries. The `getBasicInfo` and `getPresets` calls are not recorded in the client's log.
- `Direction` being a `str` subclass (comparison with plain strings) is not modelled. Only its four members and their `value` texts are.
- The memory store's retrieval and scoring, the IP-webcam server, the behaviour-configuration loader and the test fixtures for the database are not part of this model. They are separate packages outside the camera controller.
- Results.CapturePath: the timestamp is typed `Stamp`, a text without "/", because `%Y%m%d_%H%M%S` yields only digits and "_". `pathlib` would split a name holding "/" into several components, and that case is not modelled.
- Paths: only POSIX `PurePosixPath` rules are modelled: no Windows drives or separators, no `~` expansion.
- Camera.Position: a motor call that raised is taken not to have moved the motors at all. A move that is partly carried out before failing is not modelled.
