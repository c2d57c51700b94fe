/** Pan/tilt commands: the directions, the clamping of the requested angle,
    the argument pair each direction sends to the motor, and the fixed tour
    that `look_around` drives. */
module Motion {
  import opened Wrappers

  /** The four directions of `Direction`; `Value` is the text of each enum value. */
  datatype Direction = Left | Right | Up | Down
  {
    function Value(): (s: string)
      ensures |s| > 0
    {
      match this
      case Left => "left"
      case Right => "right"
      case Up => "up"
      case Down => "down"
    }

    /** Different directions have different texts. */
    lemma ValueInjective(other: Direction)
      ensures Value() == other.Value() <==> this == other
    {
    }

    /** The direction that undoes this one. */
    function Opposite(): (o: Direction)
      ensures o != this
    {
      match this
      case Left => Right
      case Right => Left
      case Up => Down
      case Down => Up
    }
  }

  /** The range a single move is clamped into. */
  const MinDegrees: int := 1
  const MaxDegrees: int := 90

  function Min(a: int, b: int): int { if a <= b then a else b }
  function Max(a: int, b: int): int { if a >= b then a else b }

  /** `max(1, min(degrees, 90))`: the angle a move actually uses. */
  function Clamp(degrees: int): (c: int)
    ensures MinDegrees <= c <= MaxDegrees
    ensures MinDegrees <= degrees <= MaxDegrees ==> c == degrees
    ensures degrees < MinDegrees ==> c == MinDegrees
    ensures degrees > MaxDegrees ==> c == MaxDegrees
  {
    Max(MinDegrees, Min(degrees, MaxDegrees))
  }

  /** Clamping twice is clamping once, and a larger request never moves less. */
  lemma ClampIdempotentMonotone(d: int, e: int)
    ensures Clamp(Clamp(d)) == Clamp(d)
    ensures d <= e ==> Clamp(d) <= Clamp(e)
  {
  }

  /** The values the controller's tests request and observe. */
  lemma ClampExamples()
    ensures Clamp(180) == 90
    ensures Clamp(-10) == 1
    ensures Clamp(30) == 30 && Clamp(45) == 45
  {
  }

  /** One `moveMotor(first, second)` call, in the order its arguments are passed. */
  datatype MotorCall = MotorCall(first: int, second: int)

  function Abs(x: int): nat { if x < 0 then -x else x }

  /** The argument pair `move` sends for `direction` once the angle is clamped to `c`:
      left and right drive the second argument, up and down the first. */
  function MotorArgs(direction: Direction, c: int): (m: MotorCall)
    ensures m.first == 0 || m.second == 0
    ensures Abs(m.first) + Abs(m.second) == Abs(c)
  {
    match direction
    case Left => MotorCall(0, -c)
    case Right => MotorCall(0, c)
    case Up => MotorCall(c, 0)
    case Down => MotorCall(-c, 0)
  }

  /** Reads a motor call back as the direction and positive angle that produce it,
      by the signs of its two arguments. */
  function DecodeMotorCall(m: MotorCall): Option<(Direction, int)>
  {
    if m.first == 0 && m.second < 0 then Some((Left, -m.second))
    else if m.first == 0 && m.second > 0 then Some((Right, m.second))
    else if m.second == 0 && m.first > 0 then Some((Up, m.first))
    else if m.second == 0 && m.first < 0 then Some((Down, -m.first))
    else None
  }

  /** A motor call is produced by exactly one (direction, positive angle) pair:
      the mapping loses nothing and two directions never share a call. */
  lemma MotorArgsDecoded(m: MotorCall, direction: Direction, c: int)
    ensures DecodeMotorCall(m) == Some((direction, c)) <==> (c >= 1 && m == MotorArgs(direction, c))
  {
  }

  /** Component-wise sum of two motor calls. */
  function Plus(a: MotorCall, b: MotorCall): MotorCall
  {
    MotorCall(a.first + b.first, a.second + b.second)
  }

  /** The net displacement a sequence of relative motor calls produces on both arguments. */
  function Net(calls: seq<MotorCall>): MotorCall
  {
    if |calls| == 0 then MotorCall(0, 0)
    else Plus(calls[0], Net(calls[1..]))
  }

  /** Displacements add up over consecutive runs of calls. */
  lemma {:induction false} NetAppend(a: seq<MotorCall>, b: seq<MotorCall>)
    ensures Net(a + b) == Plus(Net(a), Net(b))
  {
    if |a| == 0 {
      assert a + b == b;
    } else {
      assert (a + b)[1..] == a[1..] + b;
      NetAppend(a[1..], b);
    }
  }

  /** A move followed by a move of the same request in the opposite direction
      returns the motors to where they started. */
  lemma OppositeMovesCancel(direction: Direction, degrees: int)
    ensures Net([MotorArgs(direction, Clamp(degrees)), MotorArgs(direction.Opposite(), Clamp(degrees))]) == MotorCall(0, 0)
  {
    var there, back := MotorArgs(direction, Clamp(degrees)), MotorArgs(direction.Opposite(), Clamp(degrees));
    assert [there, back][1..] == [back];
    assert [back][1..] == [];
    assert Net([back]) == back;
    match direction
    case Left =>
    case Right =>
    case Up =>
    case Down =>
  }

  /** One requested move: a direction and the degrees asked for. */
  datatype Step = Step(direction: Direction, degrees: int)

  /** The moves `look_around` makes, in order: pan left 45, pan right 90,
      pan left 45, tilt up 20, tilt down 20. */
  const LookAroundPlan: seq<Step> :=
    [Step(Left, 45), Step(Right, 90), Step(Left, 45), Step(Up, 20), Step(Down, 20)]

  /** The motor calls a plan of moves issues, one per step. */
  function PlannedCalls(plan: seq<Step>): (calls: seq<MotorCall>)
    ensures |calls| == |plan|
    ensures forall i :: 0 <= i < |plan| ==> calls[i] == MotorArgs(plan[i].direction, Clamp(plan[i].degrees))
  {
    if plan == [] then []
    else
      var last := plan[|plan| - 1];
      PlannedCalls(plan[..|plan| - 1]) + [MotorArgs(last.direction, Clamp(last.degrees))]
  }

  /** The motor calls `look_around` issues, in order. */
  const TourCalls: seq<MotorCall> :=
    [MotorCall(0, -45), MotorCall(0, 90), MotorCall(0, -45), MotorCall(20, 0), MotorCall(-20, 0)]

  /** Those calls are what `move` sends for the tour's requests: each is clamped
      and mapped, and clamping leaves every request as it is. */
  lemma TourCallsPlanned()
    ensures PlannedCalls(LookAroundPlan) == TourCalls
    ensures forall i :: 0 <= i < |LookAroundPlan| ==> Clamp(LookAroundPlan[i].degrees) == LookAroundPlan[i].degrees
  {
  }

  /** Sending the call `move` makes for the tour's next request extends the
      part of the tour already sent by one call. */
  lemma TourStep(log: seq<MotorCall>, k: nat, direction: Direction, degrees: int)
    requires k < |LookAroundPlan| && LookAroundPlan[k] == Step(direction, degrees)
    ensures (log + TourCalls[..k]) + [MotorArgs(direction, Clamp(degrees))] == log + TourCalls[..k + 1]
  {
    TourCallsPlanned();
    assert TourCalls[k] == MotorArgs(direction, Clamp(degrees));
    assert TourCalls[..k + 1] == TourCalls[..k] + [TourCalls[k]];
  }

  // Where the motors stand after each run of the tour's calls, one fact per lemma.
  lemma NetAfterLeft()
    ensures Net([MotorCall(0, -45)]) == MotorCall(0, -45)
  {
  }

  lemma NetAfterRight()
    ensures Net([MotorCall(0, -45), MotorCall(0, 90)]) == MotorCall(0, 45)
  {
  }

  lemma NetAfterUp()
    ensures Net([MotorCall(0, -45), MotorCall(0, 90), MotorCall(0, -45), MotorCall(20, 0)]) == MotorCall(20, 0)
  {
  }

  lemma NetAfterTour()
    ensures Net(TourCalls) == MotorCall(0, 0)
  {
  }

  /** `look_around` takes its snapshots after the first 0, 1, 2 and 4 of the
      tour's calls. They are taken at the start, 45 to the left (the second
      argument at -45), 45 to the right and 20 up (the first argument at 20), in
      that order. After the fifth call the calls sent sum to zero. */
  lemma LookAroundTour()
    ensures |TourCalls| == 5
    ensures Net(TourCalls[..0]) == MotorCall(0, 0)
    ensures Net(TourCalls[..1]) == MotorCall(0, -45)
    ensures Net(TourCalls[..2]) == MotorCall(0, 45)
    ensures Net(TourCalls[..4]) == MotorCall(20, 0)
    ensures Net(TourCalls) == MotorCall(0, 0)
  {
    assert TourCalls[..0] == [];
    assert TourCalls[..1] == [MotorCall(0, -45)];
    assert TourCalls[..2] == [MotorCall(0, -45), MotorCall(0, 90)];
    assert TourCalls[..4] == [MotorCall(0, -45), MotorCall(0, 90), MotorCall(0, -45), MotorCall(20, 0)];
    NetAfterLeft();
    NetAfterRight();
    NetAfterUp();
    NetAfterTour();
  }

  /** Appending the whole tour to any log leaves the motors where the log had
      put them. */
  lemma TourReturns(log: seq<MotorCall>)
    ensures Net(log + TourCalls) == Net(log)
  {
    NetAfterTour();
    NetAppend(log, TourCalls);
  }

  /** The displacement one call contributes: the call itself when the motors
      carried it out, nothing when it raised (a call that raised is taken to
      have left the motors where they were). */
  function Carried(call: MotorCall, applied: bool): MotorCall
  {
    if applied then call else MotorCall(0, 0)
  }

  /** The calls as the motors carried them out: `applied[i]` says whether the
      i-th call was carried out. */
  function Masked(calls: seq<MotorCall>, applied: seq<bool>): (m: seq<MotorCall>)
    requires |applied| == |calls|
    ensures |m| == |calls|
    ensures forall i :: 0 <= i < |calls| ==> m[i] == Carried(calls[i], applied[i])
  {
    seq(|calls|, i requires 0 <= i < |calls| => Carried(calls[i], applied[i]))
  }

  /** The displacement of the calls the motors carried out. */
  function NetApplied(calls: seq<MotorCall>, applied: seq<bool>): MotorCall
    requires |applied| == |calls|
  {
    Net(Masked(calls, applied))
  }

  /** Carried-out displacements add up over consecutive runs of calls. */
  lemma NetAppliedAppend(a: seq<MotorCall>, oa: seq<bool>, b: seq<MotorCall>, ob: seq<bool>)
    requires |oa| == |a| && |ob| == |b|
    ensures NetApplied(a + b, oa + ob) == Plus(NetApplied(a, oa), NetApplied(b, ob))
  {
    assert Masked(a + b, oa + ob) == Masked(a, oa) + Masked(b, ob);
    NetAppend(Masked(a, oa), Masked(b, ob));
  }

  /** When the motors carry out every call, they move by the calls' net
      displacement. */
  lemma AllCarried(calls: seq<MotorCall>, applied: seq<bool>)
    requires |applied| == |calls|
    requires forall k :: 0 <= k < |applied| ==> applied[k]
    ensures NetApplied(calls, applied) == Net(calls)
  {
    assert Masked(calls, applied) == calls;
  }

  /** Replacing one call of a log changes its net displacement by the
      difference between the new call and the old one. */
  lemma {:induction false} NetReplace(calls: seq<MotorCall>, i: nat, x: MotorCall)
    requires i < |calls|
    ensures Net(calls[i := x]).first == Net(calls).first - calls[i].first + x.first
    ensures Net(calls[i := x]).second == Net(calls).second - calls[i].second + x.second
  {
    var pre, post := calls[..i], calls[i + 1..];
    assert calls == pre + ([calls[i]] + post);
    assert calls[i := x] == pre + ([x] + post);
    NetAppend(pre, [calls[i]] + post);
    NetAppend(pre, [x] + post);
    assert ([calls[i]] + post)[1..] == post;
    assert ([x] + post)[1..] == post;
  }

  /** When every call but one is carried out, the motors end short of the
      calls' net displacement by exactly the call that was not. */
  lemma {:induction false} OneRefusal(calls: seq<MotorCall>, applied: seq<bool>, refused: nat)
    requires |applied| == |calls| && refused < |calls|
    requires !applied[refused]
    requires forall k :: 0 <= k < |applied| && k != refused ==> applied[k]
    ensures NetApplied(calls, applied).first == Net(calls).first - calls[refused].first
    ensures NetApplied(calls, applied).second == Net(calls).second - calls[refused].second
  {
    assert Masked(calls, applied) == calls[refused := MotorCall(0, 0)];
    NetReplace(calls, refused, MotorCall(0, 0));
  }

  /** Each of the tour's calls moves a motor. */
  lemma TourCallMoves(k: nat)
    requires k < |TourCalls|
    ensures TourCalls[k] != MotorCall(0, 0)
  {
  }

  /** In a run of calls that together cancel, such as the tour, leaving out
      exactly one call that moves a motor strands the motors away from where
      they began, by the opposite of that call: `look_around` does not check
      its moves. */
  lemma {:induction false} OneRefusalStrands(calls: seq<MotorCall>, applied: seq<bool>, refused: nat)
    requires Net(calls) == MotorCall(0, 0)
    requires |applied| == |calls| && refused < |applied|
    requires calls[refused] != MotorCall(0, 0)
    requires !applied[refused]
    requires forall k :: 0 <= k < |applied| && k != refused ==> applied[k]
    ensures NetApplied(calls, applied) == MotorCall(-calls[refused].first, -calls[refused].second)
    ensures NetApplied(calls, applied) != MotorCall(0, 0)
  {
    OneRefusal(calls, applied, refused);
  }
}
