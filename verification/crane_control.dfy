/** The servo position controller: the lift ("crane") servo and the grabber
    servo, each with a clamped absolute set, a stepped gradual move, a
    derived two-valued position label and a closed set of commands.

    The source writes every operation twice, once per servo; here they are
    one operation parametrised by `Actuator`. Hardware writes, the lock and
    the inter-step sleep are not modelled: only whether a servo driver is
    attached, and the angles the controller records. */
module CraneControl {
  import opened Wrappers
  import opened Bounds
  import PyRange

  /** The two servos. */
  datatype Actuator = Lift | Grabber

  function Other(a: Actuator): Actuator {
    match a
    case Lift => Grabber
    case Grabber => Lift
  }

  const CRANE_MIN_ANGLE := 90     // crane down
  const CRANE_MAX_ANGLE := 150    // crane up
  const GRABBER_MIN_ANGLE := 90   // grabber open
  const GRABBER_MAX_ANGLE := 150  // grabber closed
  const INITIAL_CRANE_ANGLE := 140
  const INITIAL_GRABBER_ANGLE := 90
  /** The fixed label threshold, shared by both servos. */
  const POSITION_THRESHOLD := 120
  /** Step of a gradual move, in degrees. */
  const MOVE_STEP := 2
  /** The `speed` every caller in the controller uses. */
  const DEFAULT_MOVE_SPEED: real := 1.0

  function MinAngle(a: Actuator): int {
    match a
    case Lift => CRANE_MIN_ANGLE
    case Grabber => GRABBER_MIN_ANGLE
  }

  function MaxAngle(a: Actuator): int {
    match a
    case Lift => CRANE_MAX_ANGLE
    case Grabber => GRABBER_MAX_ANGLE
  }

  /** What `CraneControl` records: whether a servo driver is attached and
      the last angle stored for each servo. */
  datatype CraneState = CraneState(servoDriver: bool, craneAngle: int, grabberAngle: int) {

    function Angle(a: Actuator): int {
      match a
      case Lift => craneAngle
      case Grabber => grabberAngle
    }

    function WithAngle(a: Actuator, angle: int): CraneState {
      match a
      case Lift => this.(craneAngle := angle)
      case Grabber => this.(grabberAngle := angle)
    }
  }

  /** Both recorded angles lie within their servo's bounds. */
  predicate Valid(c: CraneState) {
    && MinAngle(Lift) <= c.craneAngle <= MaxAngle(Lift)
    && MinAngle(Grabber) <= c.grabberAngle <= MaxAngle(Grabber)
  }

  /** A Python return value together with the state the call leaves. */
  datatype Reply<T> = Reply(value: T, state: CraneState)

  /** `_ensure_angle_range` with the bounds of servo `a`. */
  function Bound(a: Actuator, angle: int): int {
    Clamp(angle, MinAngle(a), MaxAngle(a))
  }

  /** `set_crane_angle` / `set_grabber_angle`: without a driver, report
      failure and change nothing; otherwise store the clamped angle. */
  function SetAngle(c: CraneState, a: Actuator, angle: int): (r: Reply<bool>)
    ensures r.value == c.servoDriver
    ensures !c.servoDriver ==> r.state == c
    ensures r.state.servoDriver == c.servoDriver
    ensures r.state.Angle(Other(a)) == c.Angle(Other(a))
    ensures c.servoDriver ==> MinAngle(a) <= r.state.Angle(a) <= MaxAngle(a)
    ensures c.servoDriver && MinAngle(a) <= angle <= MaxAngle(a) ==> r.state.Angle(a) == angle
    ensures c.servoDriver && angle < MinAngle(a) ==> r.state.Angle(a) == MinAngle(a)
    ensures c.servoDriver && MaxAngle(a) < angle ==> r.state.Angle(a) == MaxAngle(a)
    ensures Valid(c) ==> Valid(r.state)
  {
    if !c.servoDriver then Reply(false, c)
    else Reply(true, c.WithAngle(a, Bound(a, angle)))
  }

  /** The step direction a gradual move chooses. */
  function StepToward(current: int, target: int): int {
    if target > current then MOVE_STEP else -MOVE_STEP
  }

  /** `range(int(current), int(target) + step, step)`: the raw angles a
      gradual move walks through. It starts at the current angle, advances
      two degrees at a time toward the target, and its last value is the
      target or lies one degree past it. */
  function SweepAngles(current: int, target: int): (r: seq<int>)
    ensures |r| > 0 && r[0] == current
    ensures forall i :: 0 < i < |r| ==> r[i] == r[i - 1] + StepToward(current, target)
    ensures target > current ==> r[|r| - 1] == target || r[|r| - 1] == target + 1
    ensures target <= current ==> r[|r| - 1] == target || r[|r| - 1] == target - 1
    ensures target == current ==> r == [current]
  {
    var step := StepToward(current, target);
    PyRange.Range(current, target + step, step)
  }

  /** Each swept angle clamped into the servo's bounds, in sweep order. */
  function ClampedSweep(a: Actuator, current: int, target: int): (r: seq<int>)
    ensures |r| == |SweepAngles(current, target)|
    ensures forall i :: 0 <= i < |r| ==> r[i] == Bound(a, SweepAngles(current, target)[i])
  {
    var sweep := SweepAngles(current, target);
    seq(|sweep|, i requires 0 <= i < |sweep| => Bound(a, sweep[i]))
  }

  /** The arguments a gradual move passes to the absolute set, in order:
      each swept angle clamped into bounds, then the exact target. */
  function CommandedAngles(a: Actuator, current: int, target: int): (r: seq<int>)
    ensures |r| == |SweepAngles(current, target)| + 1 && r[|r| - 1] == target
    ensures forall i :: 0 <= i < |r| - 1 ==> r[i] == Bound(a, SweepAngles(current, target)[i])
    ensures r[0] == Bound(a, current)
    ensures forall i :: 0 <= i < |r| - 1 ==> MinAngle(a) <= r[i] <= MaxAngle(a)
  {
    ClampedSweep(a, current, target) + [target]
  }

  /** The clamped sweep moves monotonically toward the target and never
      passes the clamped angle one degree beyond it. */
  lemma CommandedAnglesApproachTarget(a: Actuator, current: int, target: int)
    ensures var r := CommandedAngles(a, current, target);
      && (target > current ==> forall i :: 0 < i < |r| - 1 ==> r[i - 1] <= r[i])
      && (target <= current ==> forall i :: 0 < i < |r| - 1 ==> r[i] <= r[i - 1])
      && (target > current ==> forall i :: 0 <= i < |r| - 1 ==> r[i] <= Bound(a, target + 1))
      && (target <= current ==> forall i :: 0 <= i < |r| - 1 ==> Bound(a, target - 1) <= r[i])
  {
    var r := CommandedAngles(a, current, target);
    var sweep := SweepAngles(current, target);
    SweepStaysNearTarget(current, target);
    forall i | 0 <= i < |r| - 1
      ensures target > current ==> r[i] <= Bound(a, target + 1)
      ensures target <= current ==> Bound(a, target - 1) <= r[i]
      ensures 0 < i && target > current ==> r[i - 1] <= r[i]
      ensures 0 < i && target <= current ==> r[i] <= r[i - 1]
    {
      if target > current {
        ClampMonotone(sweep[i], target + 1, MinAngle(a), MaxAngle(a));
        if 0 < i {
          ClampMonotone(sweep[i - 1], sweep[i], MinAngle(a), MaxAngle(a));
        }
      } else {
        ClampMonotone(target - 1, sweep[i], MinAngle(a), MaxAngle(a));
        if 0 < i {
          ClampMonotone(sweep[i], sweep[i - 1], MinAngle(a), MaxAngle(a));
        }
      }
    }
  }

  /** No swept angle overshoots the target by more than the one degree the
      final step can add. */
  lemma SweepStaysNearTarget(current: int, target: int)
    ensures var sweep := SweepAngles(current, target);
      && (target > current ==> forall i :: 0 <= i < |sweep| ==> current <= sweep[i] <= target + 1)
      && (target <= current ==> forall i :: 0 <= i < |sweep| ==> target - 1 <= sweep[i] <= current)
  {
  }

  /** The absolute set applied to each angle of `angles` in turn. */
  function ApplyAngles(c: CraneState, a: Actuator, angles: seq<int>): (r: CraneState)
    ensures r.servoDriver == c.servoDriver
    ensures r.Angle(Other(a)) == c.Angle(Other(a))
    ensures !c.servoDriver ==> r == c
    ensures c.servoDriver && |angles| > 0 ==> r.Angle(a) == Bound(a, angles[|angles| - 1])
    ensures Valid(c) ==> Valid(r)
    decreases |angles|
  {
    if |angles| == 0 then c
    else ApplyAngles(SetAngle(c, a, angles[0]).state, a, angles[1..])
  }

  /** `_move_crane_gradually` / `_move_grabber_gradually`. A zero speed
      fails computing the delay before anything moves; a negative speed
      fails in the sleep after the first set. Otherwise every commanded
      angle is set and the call reports success, whether or not a driver
      accepted the sets. */
  function MoveGradually(c: CraneState, a: Actuator, target: int, speed: real): (r: Reply<bool>)
    ensures r.value <==> speed > 0.0
    ensures r.state.servoDriver == c.servoDriver
    ensures r.state.Angle(Other(a)) == c.Angle(Other(a))
    ensures c.servoDriver && speed > 0.0 ==> r.state.Angle(a) == Bound(a, target)
    ensures !c.servoDriver ==> r.state == c
    ensures speed <= 0.0 && Valid(c) ==> r.state == c
    ensures Valid(c) ==> Valid(r.state)
  {
    var angles := CommandedAngles(a, c.Angle(a), target);
    if speed == 0.0 then Reply(false, c)
    else if speed < 0.0 then Reply(false, SetAngle(c, a, angles[0]).state)
    else Reply(true, ApplyAngles(c, a, angles))
  }

  /** `lift_crane`: without a driver, fail; otherwise move the lift to its
      upper bound. */
  function LiftCrane(c: CraneState, speed: real := DEFAULT_MOVE_SPEED): (r: Reply<bool>)
    ensures !c.servoDriver ==> r == Reply(false, c)
    ensures c.servoDriver ==> (r.value <==> speed > 0.0)
    ensures c.servoDriver && speed > 0.0 ==> r.state.craneAngle == CRANE_MAX_ANGLE
    ensures r.state.grabberAngle == c.grabberAngle && r.state.servoDriver == c.servoDriver
    ensures Valid(c) ==> Valid(r.state)
  {
    if !c.servoDriver then Reply(false, c)
    else MoveGradually(c, Lift, CRANE_MAX_ANGLE, speed)
  }

  /** `lower_crane`: without a driver, fail; otherwise move the lift to its
      lower bound. */
  function LowerCrane(c: CraneState, speed: real := DEFAULT_MOVE_SPEED): (r: Reply<bool>)
    ensures !c.servoDriver ==> r == Reply(false, c)
    ensures c.servoDriver ==> (r.value <==> speed > 0.0)
    ensures c.servoDriver && speed > 0.0 ==> r.state.craneAngle == CRANE_MIN_ANGLE
    ensures r.state.grabberAngle == c.grabberAngle && r.state.servoDriver == c.servoDriver
    ensures Valid(c) ==> Valid(r.state)
  {
    if !c.servoDriver then Reply(false, c)
    else MoveGradually(c, Lift, CRANE_MIN_ANGLE, speed)
  }

  /** `open_grabber`: without a driver, fail; otherwise move the grabber to
      its lower (open) bound. */
  function OpenGrabber(c: CraneState, speed: real := DEFAULT_MOVE_SPEED): (r: Reply<bool>)
    ensures !c.servoDriver ==> r == Reply(false, c)
    ensures c.servoDriver ==> (r.value <==> speed > 0.0)
    ensures c.servoDriver && speed > 0.0 ==> r.state.grabberAngle == GRABBER_MIN_ANGLE
    ensures r.state.craneAngle == c.craneAngle && r.state.servoDriver == c.servoDriver
    ensures Valid(c) ==> Valid(r.state)
  {
    if !c.servoDriver then Reply(false, c)
    else MoveGradually(c, Grabber, GRABBER_MIN_ANGLE, speed)
  }

  /** `close_grabber`: without a driver, fail; otherwise move the grabber to
      its upper (closed) bound. */
  function CloseGrabber(c: CraneState, speed: real := DEFAULT_MOVE_SPEED): (r: Reply<bool>)
    ensures !c.servoDriver ==> r == Reply(false, c)
    ensures c.servoDriver ==> (r.value <==> speed > 0.0)
    ensures c.servoDriver && speed > 0.0 ==> r.state.grabberAngle == GRABBER_MAX_ANGLE
    ensures r.state.craneAngle == c.craneAngle && r.state.servoDriver == c.servoDriver
    ensures Valid(c) ==> Valid(r.state)
  {
    if !c.servoDriver then Reply(false, c)
    else MoveGradually(c, Grabber, GRABBER_MAX_ANGLE, speed)
  }

  datatype CranePosition = Up | Down
  datatype GrabberPosition = Open | Closed

  /** The report `get_status` assembles. */
  datatype CraneStatus = CraneStatus(
    craneAngle: int,
    grabberAngle: int,
    cranePosition: CranePosition,
    grabberPosition: GrabberPosition,
    servoDriverAvailable: bool)

  /** `get_status`: the angles, the derived labels and driver presence. */
  function GetStatus(c: CraneState): (s: CraneStatus)
    ensures s.craneAngle == c.craneAngle && s.grabberAngle == c.grabberAngle
    ensures s.servoDriverAvailable == c.servoDriver
    ensures s.cranePosition == Up <==> c.craneAngle > POSITION_THRESHOLD
    ensures s.grabberPosition == Closed <==> c.grabberAngle > POSITION_THRESHOLD
  {
    CraneStatus(
      c.craneAngle,
      c.grabberAngle,
      if c.craneAngle > POSITION_THRESHOLD then Up else Down,
      if c.grabberAngle > POSITION_THRESHOLD then Closed else Open,
      c.servoDriver)
  }

  /** The constructor: record the start angles, then set each servo to its
      start angle (which fails harmlessly without a driver). */
  function Init(servoDriver: bool): (c: CraneState)
    ensures c.servoDriver == servoDriver
    ensures c.craneAngle == INITIAL_CRANE_ANGLE && c.grabberAngle == INITIAL_GRABBER_ANGLE
    ensures Valid(c)
    ensures GetStatus(c).cranePosition == Up && GetStatus(c).grabberPosition == Open
  {
    var c0 := CraneState(servoDriver, INITIAL_CRANE_ANGLE, INITIAL_GRABBER_ANGLE);
    var c1 := SetAngle(c0, Lift, c0.craneAngle).state;
    SetAngle(c1, Grabber, c1.grabberAngle).state
  }

  /** The commands `handle_command` knows. */
  datatype CraneCommand = CraneUp | CraneDown | GrabberOpen | GrabberClose | CraneStop | GrabberStop

  function CraneCommandName(cmd: CraneCommand): string {
    match cmd
    case CraneUp => "crane_up"
    case CraneDown => "crane_down"
    case GrabberOpen => "grabber_open"
    case GrabberClose => "grabber_close"
    case CraneStop => "crane_stop"
    case GrabberStop => "grabber_stop"
  }

  /** The lookup in `handle_command`'s command table. */
  function ParseCraneCommand(s: string): (r: Option<CraneCommand>)
    ensures r.Some? ==> CraneCommandName(r.value) == s
  {
    if s == "crane_up" then Some(CraneUp)
    else if s == "crane_down" then Some(CraneDown)
    else if s == "grabber_open" then Some(GrabberOpen)
    else if s == "grabber_close" then Some(GrabberClose)
    else if s == "crane_stop" then Some(CraneStop)
    else if s == "grabber_stop" then Some(GrabberStop)
    else None
  }

  /** One table entry, called with its default speed. The stop entries are
      no-ops that return Python's `None`. */
  function Execute(c: CraneState, cmd: CraneCommand): (r: Reply<Option<bool>>)
    ensures cmd == CraneStop || cmd == GrabberStop ==> r == Reply(None, c)
    ensures (cmd == CraneUp || cmd == CraneDown) ==> r.state.grabberAngle == c.grabberAngle
    ensures (cmd == GrabberOpen || cmd == GrabberClose) ==> r.state.craneAngle == c.craneAngle
    ensures !c.servoDriver ==> r.state == c
    ensures Valid(c) ==> Valid(r.state)
  {
    match cmd
    case CraneUp => var m := LiftCrane(c); Reply(Some(m.value), m.state)
    case CraneDown => var m := LowerCrane(c); Reply(Some(m.value), m.state)
    case GrabberOpen => var m := OpenGrabber(c); Reply(Some(m.value), m.state)
    case GrabberClose => var m := CloseGrabber(c); Reply(Some(m.value), m.state)
    case CraneStop => Reply(None, c)
    case GrabberStop => Reply(None, c)
  }

  /** `handle_command`: run a known command, or return false and change
      nothing for any other string. */
  function HandleCommand(c: CraneState, command: string): (r: Reply<Option<bool>>)
    ensures ParseCraneCommand(command).None? ==> r == Reply(Some(false), c)
    ensures command == "crane_stop" || command == "grabber_stop" ==> r == Reply(None, c)
    ensures c.servoDriver && command == "crane_up" ==> r == Reply(Some(true), c.(craneAngle := CRANE_MAX_ANGLE))
    ensures c.servoDriver && command == "crane_down" ==> r == Reply(Some(true), c.(craneAngle := CRANE_MIN_ANGLE))
    ensures c.servoDriver && command == "grabber_open" ==> r == Reply(Some(true), c.(grabberAngle := GRABBER_MIN_ANGLE))
    ensures c.servoDriver && command == "grabber_close" ==> r == Reply(Some(true), c.(grabberAngle := GRABBER_MAX_ANGLE))
    ensures !c.servoDriver ==> r.state == c && r.value != Some(true)
    ensures !c.servoDriver && command != "crane_stop" && command != "grabber_stop" ==> r.value == Some(false)
    ensures Valid(c) ==> Valid(r.state)
  {
    match ParseCraneCommand(command)
    case None => Reply(Some(false), c)
    case Some(cmd) => Execute(c, cmd)
  }

  /** For the targets the wrappers use (a servo bound) and a start angle in
      bounds, the whole commanded sequence, the final exact set included,
      stays in bounds, moves monotonically toward the bound and reaches it
      before the final set. */
  lemma BoundMoveIsMonotone(a: Actuator, current: int, target: int)
    requires MinAngle(a) <= current <= MaxAngle(a)
    requires target == MinAngle(a) || target == MaxAngle(a)
    ensures var r := CommandedAngles(a, current, target);
      && (forall i :: 0 <= i < |r| ==> MinAngle(a) <= r[i] <= MaxAngle(a))
      && (target > current ==> forall i :: 0 < i < |r| ==> r[i - 1] <= r[i])
      && (target <= current ==> forall i :: 0 < i < |r| ==> r[i] <= r[i - 1])
      && r[|r| - 2] == target
  {
    CommandedAnglesApproachTarget(a, current, target);
  }

  /** Each wrapper leaves the label it is named after: lift reports "up",
      lower "down", close "closed" and open "open". */
  lemma WrapperLabels(c: CraneState)
    requires c.servoDriver
    ensures GetStatus(LiftCrane(c).state).cranePosition == Up
    ensures GetStatus(LowerCrane(c).state).cranePosition == Down
    ensures GetStatus(CloseGrabber(c).state).grabberPosition == Closed
    ensures GetStatus(OpenGrabber(c).state).grabberPosition == Open
  {
  }

  /** The label boundary: exactly 120 degrees still reads "down"/"open". */
  lemma LabelAtThreshold(c: CraneState)
    requires c.craneAngle == POSITION_THRESHOLD && c.grabberAngle == POSITION_THRESHOLD + 1
    ensures GetStatus(c).cranePosition == Down
    ensures GetStatus(c).grabberPosition == Closed
  {
  }

  /** Command names and the command table agree in both directions. */
  lemma CraneCommandRoundTrip(cmd: CraneCommand, s: string)
    ensures ParseCraneCommand(CraneCommandName(cmd)) == Some(cmd)
    ensures ParseCraneCommand(s) == Some(cmd) <==> s == CraneCommandName(cmd)
  {
  }

  /** `handle_command` recognises exactly the six table keys. */
  lemma CraneCommandsAreClosed(s: string)
    ensures ParseCraneCommand(s).Some? <==>
      s in {"crane_up", "crane_down", "grabber_open", "grabber_close", "crane_stop", "grabber_stop"}
  {
  }
}
