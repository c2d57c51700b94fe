/** The records the camera controller returns (`MoveResult`, `CaptureResult`),
    the text of their messages and the path a saved capture is written to. */
module Results {
  import opened Wrappers
  import opened Motion
  import opened Paths

  /** The frozen `MoveResult` record. */
  datatype MoveResult = MoveResult(direction: Direction, degrees: int, success: bool, message: string)

  /** The frozen `CaptureResult` record; `filePath` is None when nothing was saved. */
  datatype CaptureResult = CaptureResult(
    imageBase64: string,
    filePath: Option<string>,
    timestamp: string,
    width: int,
    height: int)

  /** What the outside world contributes to one capture: the base64 text of the
      JPEG re-encoding of the snapshot, the `%Y%m%d_%H%M%S` wall-clock stamp and
      the decoded width and height. */
  datatype Frame = Frame(jpegBase64: string, timestamp: Stamp, width: int, height: int)

  /** A `%Y%m%d_%H%M%S` stamp: digits and "_", so never a path separator. */
  type Stamp = s: string | '/' !in s

  // ---------------------------------------------------------------------------
  // Text helpers: prefixes, suffixes and the decimal rendering of an int.

  /** `s` with the prefix `p` removed, if `s` starts with `p`. */
  function StripPrefix(p: string, s: string): (r: Option<string>)
    ensures r.Some? ==> s == p + r.value
  {
    if p <= s then Some(s[|p|..]) else None
  }

  lemma StripPrefixOfConcat(p: string, q: string)
    ensures StripPrefix(p, p + q) == Some(q)
  {
    assert (p + q)[..|p|] == p;
  }

  /** `s` with the suffix `q` removed, if `s` ends with `q`. */
  function StripSuffix(s: string, q: string): (r: Option<string>)
    ensures r.Some? ==> s == r.value + q
  {
    if |q| <= |s| && s[|s| - |q|..] == q then Some(s[..|s| - |q|]) else None
  }

  lemma StripSuffixOfConcat(p: string, q: string)
    ensures StripSuffix(p + q, q) == Some(p)
  {
    assert (p + q)[|p + q| - |q|..] == q;
    assert (p + q)[..|p + q| - |q|] == p;
  }

  predicate IsDigit(c: char) { '0' <= c <= '9' }

  predicate AllDigits(s: string) { forall i :: 0 <= i < |s| ==> IsDigit(s[i]) }

  function DigitChar(d: nat): (c: char)
    requires d < 10
    ensures IsDigit(c)
  {
    (d + '0' as int) as char
  }

  function DigitValue(c: char): nat
    requires IsDigit(c)
  {
    c as int - '0' as int
  }

  /** The decimal text Python's `str` gives a non-negative int: digits only,
      and no leading zero. */
  function Decimal(n: nat): (s: string)
    ensures |s| > 0 && AllDigits(s)
    ensures s[0] == '0' ==> n == 0
  {
    if n < 10 then [DigitChar(n)] else Decimal(n / 10) + [DigitChar(n % 10)]
  }

  /** The value of a string of digits, most significant first. */
  function DigitsValue(s: string): nat
    requires AllDigits(s)
  {
    if |s| == 0 then 0 else DigitsValue(s[..|s| - 1]) * 10 + DigitValue(s[|s| - 1])
  }

  /** Reads a non-empty string of decimal digits back as a number. */
  function ParseDecimal(s: string): Option<nat>
  {
    if |s| > 0 && AllDigits(s) then Some(DigitsValue(s)) else None
  }

  /** Reading the decimal text of a number gives the number back. */
  lemma {:induction false} DecimalRoundTrip(n: nat)
    ensures ParseDecimal(Decimal(n)) == Some(n)
  {
    if n >= 10 {
      DecimalRoundTrip(n / 10);
      var s, d := Decimal(n / 10), DigitChar(n % 10);
      assert (s + [d])[..|s|] == s;
      assert DigitValue(d) == n % 10;
      assert DigitsValue(s + [d]) == DigitsValue(s) * 10 + n % 10;
    } else {
      var d := DigitChar(n);
      assert [d][..0] == [];
      assert DigitValue(d) == n;
      assert DigitsValue([d]) == n;
    }
  }

  // ---------------------------------------------------------------------------
  // Move results.

  const MovedPrefix: string := "Moved "
  const ByInfix: string := " by "
  const DegreesSuffix: string := " degrees"
  const MoveFailedPrefix: string := "Failed to move: "

  /** `f"Moved {direction.value} by {degrees} degrees"`. */
  function MoveMessage(direction: Direction, degrees: nat): string
  {
    MovedPrefix + direction.Value() + ByInfix + Decimal(degrees) + DegreesSuffix
  }

  /** Reads `<word> by <digits>` for one direction's word. */
  function ParseWordAndDegrees(direction: Direction, t: string): Option<(Direction, nat)>
  {
    match StripPrefix(direction.Value() + ByInfix, t)
    case None => None
    case Some(digits) =>
      match ParseDecimal(digits)
      case None => None
      case Some(n) => Some((direction, n))
  }

  /** Reads a success message back as the direction and degrees it reports. */
  function ParseMoveMessage(m: string): Option<(Direction, nat)>
  {
    match StripPrefix(MovedPrefix, m)
    case None => None
    case Some(rest) =>
      match StripSuffix(rest, DegreesSuffix)
      case None => None
      case Some(t) =>
        var l := ParseWordAndDegrees(Left, t);
        var r := ParseWordAndDegrees(Right, t);
        var u := ParseWordAndDegrees(Up, t);
        if l.Some? then l else if r.Some? then r else if u.Some? then u
        else ParseWordAndDegrees(Down, t)
  }

  /** A word/degrees phrase is read by its own direction and by no other. */
  lemma WordAndDegrees(direction: Direction, other: Direction, degrees: nat)
    ensures ParseWordAndDegrees(direction, direction.Value() + ByInfix + Decimal(degrees)) == Some((direction, degrees))
    ensures other != direction ==> ParseWordAndDegrees(other, direction.Value() + ByInfix + Decimal(degrees)) == None
  {
    var t := direction.Value() + ByInfix + Decimal(degrees);
    StripPrefixOfConcat(direction.Value() + ByInfix, Decimal(degrees));
    DecimalRoundTrip(degrees);
    if other != direction {
      var w := other.Value() + ByInfix;
      assert t[0] == direction.Value()[0];
      assert |w| > 0 && w[0] == other.Value()[0];
      assert other.Value()[0] != direction.Value()[0];
    }
  }

  /** Every success message reads back as the direction and degrees it was built from. */
  lemma MoveMessageRoundTrip(direction: Direction, degrees: nat)
    ensures ParseMoveMessage(MoveMessage(direction, degrees)) == Some((direction, degrees))
  {
    var t := direction.Value() + ByInfix + Decimal(degrees);
    assert MoveMessage(direction, degrees) == MovedPrefix + (t + DegreesSuffix);
    StripPrefixOfConcat(MovedPrefix, t + DegreesSuffix);
    StripSuffixOfConcat(t, DegreesSuffix);
    WordAndDegrees(direction, Left, degrees);
    WordAndDegrees(direction, Right, degrees);
    WordAndDegrees(direction, Up, degrees);
    WordAndDegrees(direction, Down, degrees);
  }

  /** A failure message never reads as a success message. */
  lemma FailureIsNotMoved(reason: string)
    ensures ParseMoveMessage(MoveFailedPrefix + reason) == None
  {
    assert (MoveFailedPrefix + reason)[0] == 'F';
  }

  /** The record `move` returns once the angle is clamped and the motor call made;
      `fault` is the text of the exception the call raised, if it raised. */
  function MoveOutcome(direction: Direction, degrees: int, fault: Option<string>): (r: MoveResult)
    ensures r.direction == direction && r.degrees == Clamp(degrees)
    ensures r.success <==> fault.None?
  {
    var c := Clamp(degrees);
    match fault
    case None => MoveResult(direction, c, true, MoveMessage(direction, c))
    case Some(e) => MoveResult(direction, c, false, MoveFailedPrefix + e)
  }

  /** What a `move` record's message tells its reader: a success message reads
      back as the direction and the clamped angle, a failure message never reads
      as a success and carries the exception's text after its prefix. */
  lemma MoveOutcomeReadsBack(direction: Direction, degrees: int, fault: Option<string>)
    ensures fault.None? ==> ParseMoveMessage(MoveOutcome(direction, degrees, fault).message) == Some((direction, Clamp(degrees)))
    ensures fault.Some? ==> ParseMoveMessage(MoveOutcome(direction, degrees, fault).message) == None
    ensures fault.Some? ==> StripPrefix(MoveFailedPrefix, MoveOutcome(direction, degrees, fault).message) == Some(fault.value)
  {
    match fault
    case None => MoveMessageRoundTrip(direction, Clamp(degrees));
    case Some(e) =>
      FailureIsNotMoved(e);
      StripPrefixOfConcat(MoveFailedPrefix, e);
  }

  const PresetPrefix: string := "Moved to preset "
  const PresetFailedPrefix: string := "Failed to go to preset: "

  /** The record `go_to_preset` returns: always LEFT and 0 degrees, whatever the
      preset; the message names the preset or the exception's text. */
  function PresetOutcome(presetId: string, fault: Option<string>): (r: MoveResult)
    ensures r.direction == Left && r.degrees == 0
    ensures r.success <==> fault.None?
    ensures r.success ==> StripPrefix(PresetPrefix, r.message) == Some(presetId)
    ensures !r.success ==> StripPrefix(PresetFailedPrefix, r.message) == Some(fault.value)
    ensures ParseMoveMessage(r.message) == None
  {
    match fault
    case None =>
      StripPrefixOfConcat(PresetPrefix, presetId);
      assert (PresetPrefix + presetId)[..|MovedPrefix|] == MovedPrefix;
      assert (PresetPrefix + presetId)[|MovedPrefix|..] == "to preset " + presetId;
      assert ("to preset " + presetId + "")[0] == 't';
      MoveResult(Left, 0, true, PresetPrefix + presetId)
    case Some(e) =>
      StripPrefixOfConcat(PresetFailedPrefix, e);
      assert (PresetFailedPrefix + e)[0] == 'F';
      MoveResult(Left, 0, false, PresetFailedPrefix + e)
  }

  // ---------------------------------------------------------------------------
  // Capture results.

  /** The name a capture stamped `timestamp` is saved under: one path
      component, from which the stamp reads back between the eight-character
      prefix and the four-character extension. */
  function CaptureName(timestamp: Stamp): (r: string)
    ensures |r| == |timestamp| + 12 && r[8..|r| - 4] == timestamp
    ensures '/' !in r
  {
    "capture_" + timestamp + ".jpg"
  }

  /** `str(capture_dir / f"capture_{timestamp}.jpg")` for the parsed directory:
      the file name is one more component (CapturePathJoins). */
  function CapturePath(dir: PurePath, timestamp: Stamp): string
  {
    Render(PurePath(dir.root, dir.parts + [CaptureName(timestamp)]))
  }

  /** The saved capture's path is the directory joined with the file name as
      `/` joins them, component by component. */
  lemma CapturePathJoins(dir: PurePath, timestamp: Stamp)
    ensures CapturePath(dir, timestamp) == Render(Join(dir, CaptureName(timestamp)))
  {
    CaptureNameIsPart(timestamp);
  }

  /** A saved capture's path reads back as the capture directory with the file
      name as one more component. */
  lemma CapturePathParses(dir: PurePath, timestamp: Stamp)
    requires IsNormal(dir)
    ensures ParsePath(CapturePath(dir, timestamp)) == PurePath(dir.root, dir.parts + [CaptureName(timestamp)])
  {
    CaptureNameIsPart(timestamp);
    ParseRender(PurePath(dir.root, dir.parts + [CaptureName(timestamp)]));
  }

  /** A file name whose stamp has no separator is one component of its own. */
  lemma CaptureNameIsPart(timestamp: Stamp)
    ensures IsPart(CaptureName(timestamp)) && Components(CaptureName(timestamp)) == [CaptureName(timestamp)]
  {
    var name := CaptureName(timestamp);
    assert IsPart(name) by {
      assert name[0] == 'c';
    }
    ComponentsOfJoin([name]);
  }

  /** Two captures go to the same file exactly when their stamps are equal: one
      second's resolution is all that keeps saved captures apart. */
  lemma CapturePathInjective(dir: PurePath, t1: Stamp, t2: Stamp)
    requires IsNormal(dir)
    ensures CapturePath(dir, t1) == CapturePath(dir, t2) <==> t1 == t2
  {
    if CapturePath(dir, t1) == CapturePath(dir, t2) {
      CapturePathParses(dir, t1);
      CapturePathParses(dir, t2);
      var n1, n2 := CaptureName(t1), CaptureName(t2);
      assert (dir.parts + [n1])[|dir.parts|] == n1;
      assert n1 == n2;
      assert n1[8..|n1| - 4] == t1;
      assert n2[8..|n2| - 4] == t2;
    }
  }

  /** The text of a saved capture's path: the file name alone in the current
      directory, right after a bare root, and after the rendered directory and
      one separator otherwise. */
  lemma CapturePathText(dir: PurePath, timestamp: Stamp)
    ensures dir.parts == [] ==> CapturePath(dir, timestamp) == dir.root + CaptureName(timestamp)
    ensures dir.parts != [] ==> CapturePath(dir, timestamp) == Render(dir) + "/" + CaptureName(timestamp)
  {
    CaptureNameIsPart(timestamp);
    if dir.parts != [] {
      JoinPartsSnoc(dir.parts, CaptureName(timestamp));
    }
  }

  /** An empty directory text is the current directory: the file name alone,
      not a file at the root. */
  lemma CapturePathEmptyDir(timestamp: Stamp)
    ensures CapturePath(ParsePath(""), timestamp) == CaptureName(timestamp)
  {
    ParseEmpty();
    CapturePathText(ParsePath(""), timestamp);
  }

  /** A leading "./" is dropped from the directory. */
  lemma CapturePathDotDir(timestamp: Stamp)
    ensures CapturePath(ParsePath("./caps"), timestamp) == "caps/" + CaptureName(timestamp)
  {
    ParseDotPrefix();
    var caps := ParsePath("./caps");
    CapturePathText(caps, timestamp);
    assert Render(caps) == "caps";
  }

  /** Doubled and trailing separators are dropped from the directory. */
  lemma CapturePathDoubledDir(timestamp: Stamp)
    ensures CapturePath(ParsePath("a//b/"), timestamp) == "a/b/" + CaptureName(timestamp)
  {
    ParseDoubledSeparator();
    var ab := ParsePath("a//b/");
    CapturePathText(ab, timestamp);
    assert Render(ab) == "a" + "/" + "b";
  }

  /** The record `capture_image` returns for a frame: a file path exactly when the
      capture is saved, and the frame's stamp, size and image text. */
  function CaptureRecord(frame: Frame, dir: PurePath, saveToFile: bool): (r: CaptureResult)
    ensures r.filePath.None? <==> !saveToFile
    ensures r.filePath.Some? ==> r.filePath.value == CapturePath(dir, frame.timestamp)
    ensures r.timestamp == frame.timestamp && r.imageBase64 == frame.jpegBase64
    ensures r.width == frame.width && r.height == frame.height
  {
    var filePath := if saveToFile then Some(CapturePath(dir, frame.timestamp)) else None;
    CaptureResult(frame.jpegBase64, filePath, frame.timestamp, frame.width, frame.height)
  }

  /** `info.get("device_info", {}).get("basic_info", {})`. */
  function BasicInfo<V>(info: map<string, map<string, map<string, V>>>): (r: map<string, V>)
    ensures "device_info" in info && "basic_info" in info["device_info"] ==> r == info["device_info"]["basic_info"]
    ensures !("device_info" in info && "basic_info" in info["device_info"]) ==> r == map[]
  {
    var device := if "device_info" in info then info["device_info"] else map[];
    if "basic_info" in device then device["basic_info"] else map[]
  }
}
