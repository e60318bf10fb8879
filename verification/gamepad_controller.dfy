/** The gamepad and command layer: the deadzone rescale, the track mixing
    and button actions of one polling tick, and the web command dispatch
    to the motor actuator and the servo controller.

    Device polling, the 60 Hz clock and the input thread are not modelled:
    one tick is a pure function of the robot state and a snapshot of the
    pad's axes and buttons. */
module GamepadController {
  import opened Wrappers
  import opened MotorControl
  import opened CraneControl
  import opened RealArith

  /** The deadzone the controller always uses. */
  const DEADZONE: real := 0.1
  /** Axis count from which a right stick (axis 4) is read. */
  const DUAL_STICK_AXES := 5

  /** `_apply_deadzone`. Python divides by `1 - deadzone` only outside the
      deadzone, so the call fails exactly when the deadzone is 1 and the
      value is not inside it. For a deadzone in `[0, 1)` the result is zero
      exactly on `[-deadzone, deadzone]`, keeps the input's sign, stays in
      `[-1, 1]` for inputs there and maps the ends to themselves. */
  function ApplyDeadzone(value: real, deadzone: real): (r: real)
    requires deadzone != 1.0 || Abs(value) < deadzone
    ensures Abs(value) < deadzone ==> r == 0.0
    ensures 0.0 <= deadzone < 1.0 ==> (r == 0.0 <==> Abs(value) <= deadzone)
    ensures 0.0 <= deadzone < 1.0 ==> (r > 0.0 <==> value > deadzone)
    ensures 0.0 <= deadzone < 1.0 ==> (r < 0.0 <==> value < -deadzone)
    ensures 0.0 <= deadzone < 1.0 && -1.0 <= value <= 1.0 ==> -1.0 <= r <= 1.0
    ensures 0.0 <= deadzone < 1.0 && value == 1.0 ==> r == 1.0
    ensures 0.0 <= deadzone < 1.0 && value == -1.0 ==> r == -1.0
  {
    if Abs(value) < deadzone then 0.0
    else if value > 0.0 then
      QuotientSign(value - deadzone, 1.0 - deadzone);
      QuotientBound(value - deadzone, 1.0 - deadzone);
      (value - deadzone) / (1.0 - deadzone)
    else
      QuotientSign(value + deadzone, 1.0 - deadzone);
      QuotientBound(value + deadzone, 1.0 - deadzone);
      (value + deadzone) / (1.0 - deadzone)
  }

  /** The scale-down step of the mixing: divide both tracks by
      `max(|left|, |right|, 1)`. The result never exceeds unit magnitude,
      is unchanged when already within it, and keeps the ratio of the two
      tracks. */
  function Normalise(left: real, right: real): (r: (real, real))
    ensures Abs(r.0) <= 1.0 && Abs(r.1) <= 1.0
    ensures Abs(left) <= 1.0 && Abs(right) <= 1.0 ==> r.0 == left && r.1 == right
  {
    var maxVal := NormalisingDivisor(left, right);
    NormalisedTracks(left, right, maxVal);
    (left / maxVal, right / maxVal)
  }

  /** The facts `Normalise` promises, about the two quotients. */
  lemma NormalisedTracks(left: real, right: real, m: real)
    requires m >= 1.0 && Abs(left) <= m && Abs(right) <= m
    requires Abs(left) <= 1.0 && Abs(right) <= 1.0 ==> m == 1.0
    ensures Abs(left / m) <= 1.0 && Abs(right / m) <= 1.0
    ensures Abs(left) <= 1.0 && Abs(right) <= 1.0 ==> left / m == left && right / m == right
  {
    QuotientBound(left, m);
    QuotientBound(right, m);
  }

  /** The pair `p` points the same way as `(left, right)`: the two
      cross products agree. */
  predicate SameRatio(p: (real, real), left: real, right: real) {
    p.0 * right == p.1 * left
  }

  /** Normalising keeps the ratio of the two tracks. */
  lemma NormaliseKeepsRatio(left: real, right: real)
    ensures SameRatio(Normalise(left, right), left, right)
  {
  }

  /** `max(|left|, |right|, 1.0)`: at least one and at least either
      magnitude, and exactly one when both tracks are within unit range. */
  function NormalisingDivisor(left: real, right: real): (m: real)
    ensures m >= 1.0 && Abs(left) <= m && Abs(right) <= m
    ensures m == 1.0 || m == Abs(left) || m == Abs(right)
    ensures Abs(left) <= 1.0 && Abs(right) <= 1.0 ==> m == 1.0
  {
    Max(Max(Abs(left), Abs(right)), 1.0)
  }

  /** Single-stick mixing: forward/back `y` and turn `x` give
      `left = y - x` and `right = y + x`, then scaled down together. */
  function MixSingleStick(y: real, x: real): (r: (real, real))
    ensures Abs(r.0) <= 1.0 && Abs(r.1) <= 1.0
    ensures Abs(y - x) <= 1.0 && Abs(y + x) <= 1.0 ==> r == (y - x, y + x)
    ensures SameRatio(r, y - x, y + x)
    ensures (r.0 > 0.0 <==> y - x > 0.0) && (r.0 < 0.0 <==> y - x < 0.0)
    ensures (r.1 > 0.0 <==> y + x > 0.0) && (r.1 < 0.0 <==> y + x < 0.0)
    ensures Abs(y - x) > 1.0 || Abs(y + x) > 1.0 ==> Max(Abs(r.0), Abs(r.1)) == 1.0
  {
    NormaliseKeepsRatio(y - x, y + x);
    NormaliseOnlyScalesDown(y - x, y + x);
    Normalise(y - x, y + x)
  }

  /** The track pair one tick computes from the axes. With fewer than five
      axes, axis 1 (forward/back) and axis 0 (turn) are deadzoned and
      mixed; with five or more, axes 1 and 4 are deadzoned and used as the
      left and right tracks directly. */
  function Tracks(axes: seq<real>): (r: (real, real))
    requires |axes| >= 2
    ensures (forall i :: 0 <= i < |axes| ==> -1.0 <= axes[i] <= 1.0) ==>
      -1.0 <= r.0 <= 1.0 && -1.0 <= r.1 <= 1.0
    ensures |axes| < DUAL_STICK_AXES ==> Abs(r.0) <= 1.0 && Abs(r.1) <= 1.0
    ensures |axes| < DUAL_STICK_AXES ==>
      r == MixSingleStick(ApplyDeadzone(axes[1], DEADZONE), ApplyDeadzone(axes[0], DEADZONE))
    ensures |axes| >= DUAL_STICK_AXES ==>
      r == (ApplyDeadzone(axes[1], DEADZONE), ApplyDeadzone(axes[4], DEADZONE))
  {
    var leftY := ApplyDeadzone(axes[1], DEADZONE);
    if |axes| < DUAL_STICK_AXES then
      MixSingleStick(leftY, ApplyDeadzone(axes[0], DEADZONE))
    else
      (leftY, ApplyDeadzone(axes[4], DEADZONE))
  }

  /** The actuators the controller owns. */
  datatype Robot = Robot(motors: MotorState, crane: CraneState)

  predicate RobotValid(robot: Robot) {
    MotorControl.Valid(robot.motors) && CraneControl.Valid(robot.crane)
  }

  /** The constructor: fresh motor and crane controllers. */
  function InitRobot(motorsPresent: bool, servoDriver: bool): (robot: Robot)
    ensures RobotValid(robot)
    ensures robot.motors == MotorState(motorsPresent, 0, 0)
    ensures robot.crane == CraneState(servoDriver, INITIAL_CRANE_ANGLE, INITIAL_GRABBER_ANGLE)
  {
    Robot(MotorControl.Init(motorsPresent), CraneControl.Init(servoDriver))
  }

  /** One poll of the pad: its axis values and button states. */
  datatype PadSnapshot = PadSnapshot(axes: seq<real>, buttons: seq<bool>)

  /** Whether button `i` reads as held this tick. */
  predicate Pressed(pad: PadSnapshot, i: nat) {
    i < |pad.buttons| && pad.buttons[i]
  }

  /** The grabber toggle of button 3: close it if it reads "open", open it
      otherwise. */
  function ToggleGrabber(c: CraneState): (r: CraneState)
    ensures c.servoDriver && GetStatus(c).grabberPosition == Open ==> GetStatus(r).grabberPosition == Closed
    ensures c.servoDriver && GetStatus(c).grabberPosition == Closed ==> GetStatus(r).grabberPosition == Open
    ensures !c.servoDriver ==> r == c
    ensures r.craneAngle == c.craneAngle && r.servoDriver == c.servoDriver
    ensures CraneControl.Valid(c) ==> CraneControl.Valid(r)
  {
    if GetStatus(c).grabberPosition == Open then CloseGrabber(c).state
    else OpenGrabber(c).state
  }

  /** The motor half of a tick: the tracks drive the motors, then a held
      button 0 stops them. */
  function TickMotors(m: MotorState, pad: PadSnapshot): (r: MotorState)
    requires |pad.axes| >= 2
    ensures r.motorsPresent == m.motorsPresent
    ensures !m.motorsPresent ==> r == m
    ensures m.motorsPresent ==> MotorControl.Valid(r)
    ensures m.motorsPresent && Pressed(pad, 0) ==> r.currentLeftSpeed == 0 && r.currentRightSpeed == 0
    ensures !Pressed(pad, 0) ==> r == HandleGamepadInput(m, Tracks(pad.axes).0, Tracks(pad.axes).1)
    ensures MotorControl.Valid(m) ==> MotorControl.Valid(r)
  {
    var (leftTrack, rightTrack) := Tracks(pad.axes);
    var m1 := HandleGamepadInput(m, leftTrack, rightTrack);
    if Pressed(pad, 0) then StopMotors(m1) else m1
  }

  /** Buttons 1 and 2 of a tick: lift while 1 is held, then lower while 2
      is held, so holding both ends down. */
  function HoldLiftLower(c: CraneState, lift: bool, lower: bool): (r: CraneState)
    ensures r.servoDriver == c.servoDriver && r.grabberAngle == c.grabberAngle
    ensures !c.servoDriver ==> r == c
    ensures c.servoDriver && lower ==> r.craneAngle == CRANE_MIN_ANGLE
    ensures c.servoDriver && lift && !lower ==> r.craneAngle == CRANE_MAX_ANGLE
    ensures !lift && !lower ==> r == c
    ensures CraneControl.Valid(c) ==> CraneControl.Valid(r)
  {
    var c1 := if lift then LiftCrane(c).state else c;
    if lower then LowerCrane(c1).state else c1
  }

  /** The servo half of a tick: buttons 1 and 2 move the lift, then button
      3 toggles the grabber. */
  function TickCrane(c: CraneState, pad: PadSnapshot): (r: CraneState)
    ensures r.servoDriver == c.servoDriver
    ensures !c.servoDriver ==> r == c
    ensures c.servoDriver && Pressed(pad, 2) ==> r.craneAngle == CRANE_MIN_ANGLE
    ensures c.servoDriver && Pressed(pad, 1) && !Pressed(pad, 2) ==> r.craneAngle == CRANE_MAX_ANGLE
    ensures !Pressed(pad, 1) && !Pressed(pad, 2) ==> r.craneAngle == c.craneAngle
    ensures c.servoDriver && Pressed(pad, 3) ==>
      r.grabberAngle == (if c.grabberAngle > POSITION_THRESHOLD then GRABBER_MIN_ANGLE else GRABBER_MAX_ANGLE)
    ensures !Pressed(pad, 3) ==> r.grabberAngle == c.grabberAngle
    ensures !Pressed(pad, 1) && !Pressed(pad, 2) && !Pressed(pad, 3) ==> r == c
    ensures CraneControl.Valid(c) ==> CraneControl.Valid(r)
  {
    var c2 := HoldLiftLower(c, Pressed(pad, 1), Pressed(pad, 2));
    if Pressed(pad, 3) then ToggleGrabber(c2) else c2
  }

  /** One iteration of the input loop. Without a pad nothing happens; a
      pad with fewer than two axes makes the axis read fail and the
      iteration is abandoned before any actuation. Otherwise the motors
      and then the servos take their share of the tick; the buttons act on
      every tick they are held, with no press-edge detection. */
  function Tick(robot: Robot, pad: Option<PadSnapshot>): (r: Robot)
    ensures pad.None? || |pad.value.axes| < 2 ==> r == robot
    ensures r.motors.motorsPresent == robot.motors.motorsPresent
    ensures r.crane.servoDriver == robot.crane.servoDriver
    ensures robot.motors.motorsPresent && pad.Some? && |pad.value.axes| >= 2 ==> MotorControl.Valid(r.motors)
    ensures robot.motors.motorsPresent && pad.Some? && |pad.value.axes| >= 2 && Pressed(pad.value, 0) ==>
      r.motors.currentLeftSpeed == 0 && r.motors.currentRightSpeed == 0
    ensures pad.Some? && !Pressed(pad.value, 1) && !Pressed(pad.value, 2) && !Pressed(pad.value, 3) ==>
      r.crane == robot.crane
    ensures MotorControl.Valid(robot.motors) ==> MotorControl.Valid(r.motors)
    ensures CraneControl.Valid(robot.crane) ==> CraneControl.Valid(r.crane)
    ensures !robot.motors.motorsPresent ==> r.motors == robot.motors
    ensures !robot.crane.servoDriver ==> r.crane == robot.crane
    ensures pad.Some? && |pad.value.axes| >= 2 && !Pressed(pad.value, 0) ==>
      r.motors == HandleGamepadInput(robot.motors, Tracks(pad.value.axes).0, Tracks(pad.value.axes).1)
    ensures robot.crane.servoDriver && pad.Some? && |pad.value.axes| >= 2 && Pressed(pad.value, 2) ==>
      r.crane.craneAngle == CRANE_MIN_ANGLE
    ensures (robot.crane.servoDriver && pad.Some? && |pad.value.axes| >= 2
             && Pressed(pad.value, 1) && !Pressed(pad.value, 2)) ==>
      r.crane.craneAngle == CRANE_MAX_ANGLE
    ensures pad.Some? && !Pressed(pad.value, 1) && !Pressed(pad.value, 2) ==>
      r.crane.craneAngle == robot.crane.craneAngle
    ensures robot.crane.servoDriver && pad.Some? && |pad.value.axes| >= 2 && Pressed(pad.value, 3) ==>
      r.crane.grabberAngle ==
        (if robot.crane.grabberAngle > POSITION_THRESHOLD then GRABBER_MIN_ANGLE else GRABBER_MAX_ANGLE)
    ensures pad.Some? && !Pressed(pad.value, 3) ==> r.crane.grabberAngle == robot.crane.grabberAngle
  {
    if pad.None? || |pad.value.axes| < 2 then robot
    else Robot(TickMotors(robot.motors, pad.value), TickCrane(robot.crane, pad.value))
  }

  /** Every web command `handle_command` accepts. */
  datatype Command = TankCmd(tank: TankCommand) | CraneCmd(crane: CraneCommand)

  function CommandName(cmd: Command): string {
    match cmd
    case TankCmd(t) => TankCommandName(t)
    case CraneCmd(c) => CraneCommandName(c)
  }

  /** The string comparisons of `handle_command`: motor commands first,
      then crane commands. */
  function ParseCommand(s: string): (r: Option<Command>)
    ensures r.Some? ==> CommandName(r.value) == s
  {
    match ParseTankCommand(s)
    case Some(t) => Some(TankCmd(t))
    case None =>
      match ParseCraneCommand(s)
      case Some(c) => Some(CraneCmd(c))
      case None => None
  }

  /** `handle_command`: route a known command to the motors or the servos;
      any other string changes neither. Motor commands leave the servos
      alone and crane commands leave the motors alone. */
  function HandleCommand(robot: Robot, command: string): (r: Robot)
    ensures ParseCommand(command).None? ==> r == robot
    ensures ParseCommand(command).Some? && ParseCommand(command).value.TankCmd? ==>
      r == Robot(ControlTank(robot.motors, command), robot.crane)
    ensures ParseCommand(command).Some? && ParseCommand(command).value.CraneCmd? ==>
      r == Robot(robot.motors, CraneControl.HandleCommand(robot.crane, command).state)
    ensures RobotValid(robot) ==> RobotValid(r)
  {
    match ParseCommand(command)
    case None => robot
    case Some(TankCmd(t)) => robot.(motors := ExecuteTank(robot.motors, t))
    case Some(CraneCmd(c)) => robot.(crane := Execute(robot.crane, c).state)
  }

  /** The deadzone against the textbook form
      `sign(v) * (|v| - deadzone) / (1 - deadzone)`, zero inside. */
  lemma DeadzoneMatchesReference(value: real, deadzone: real)
    requires 0.0 <= deadzone < 1.0
    ensures ApplyDeadzone(value, deadzone) ==
      if Abs(value) < deadzone then 0.0
      else Sign(value) * (Abs(value) - deadzone) / (1.0 - deadzone)
  {
  }

  /** The deadzone is odd-symmetric. */
  lemma DeadzoneIsOdd(value: real, deadzone: real)
    requires 0.0 <= deadzone < 1.0
    ensures ApplyDeadzone(-value, deadzone) == -ApplyDeadzone(value, deadzone)
  {
  }

  /** The deadzone never reverses the order of two inputs. */
  lemma DeadzoneIsMonotone(u: real, v: real, deadzone: real)
    requires 0.0 <= deadzone < 1.0 && u <= v
    ensures ApplyDeadzone(u, deadzone) <= ApplyDeadzone(v, deadzone)
  {
    if Abs(u) >= deadzone && Abs(v) >= deadzone {
      if u > 0.0 {
        QuotientMonotone(u - deadzone, v - deadzone, 1.0 - deadzone);
      } else if v <= 0.0 {
        QuotientMonotone(u + deadzone, v + deadzone, 1.0 - deadzone);
      }
    }
  }

  /** Mixing only scales down: each track keeps its sign and never grows,
      and when either raw track exceeds unit magnitude the larger result
      has magnitude exactly one. */
  lemma NormaliseOnlyScalesDown(left: real, right: real)
    ensures var r := Normalise(left, right);
      && Abs(r.0) <= Abs(left) && Abs(r.1) <= Abs(right)
      && (r.0 > 0.0 <==> left > 0.0) && (r.0 < 0.0 <==> left < 0.0)
      && (r.1 > 0.0 <==> right > 0.0) && (r.1 < 0.0 <==> right < 0.0)
      && (Abs(left) > 1.0 || Abs(right) > 1.0 ==> Max(Abs(r.0), Abs(r.1)) == 1.0)
  {
    var maxVal := NormalisingDivisor(left, right);
    var r := Normalise(left, right);
    assert r == (left / maxVal, right / maxVal);
    QuotientSign(left, maxVal);
    QuotientSign(right, maxVal);
    QuotientShrinks(left, maxVal);
    QuotientShrinks(right, maxVal);
    if Abs(left) > 1.0 || Abs(right) > 1.0 {
      if maxVal == Abs(left) {
        QuotientUnit(left, maxVal);
      } else {
        QuotientUnit(right, maxVal);
      }
    }
  }

  /** In dual-stick mode the tracks are not mixed: the left track depends
      only on axis 1 and the right track only on axis 4. */
  lemma DualStickIsUnmixed(axes: seq<real>, axes': seq<real>)
    requires |axes| >= DUAL_STICK_AXES && |axes'| >= DUAL_STICK_AXES
    ensures axes[1] == axes'[1] ==> Tracks(axes).0 == Tracks(axes').0
    ensures axes[4] == axes'[4] ==> Tracks(axes).1 == Tracks(axes').1
  {
  }

  /** In single-stick mode only axes 0 and 1 matter. */
  lemma SingleStickReadsTwoAxes(axes: seq<real>, axes': seq<real>)
    requires 2 <= |axes| < DUAL_STICK_AXES && 2 <= |axes'| < DUAL_STICK_AXES
    requires axes[0] == axes'[0] && axes[1] == axes'[1]
    ensures Tracks(axes) == Tracks(axes')
  {
  }

  /** Holding buttons 1 and 2 together ends with the crane down: lower
      runs after lift. */
  lemma LiftAndLowerEndsDown(robot: Robot, pad: PadSnapshot)
    requires robot.crane.servoDriver && |pad.axes| >= 2
    requires Pressed(pad, 1) && Pressed(pad, 2)
    ensures Tick(robot, Some(pad)).crane.craneAngle == CRANE_MIN_ANGLE
    ensures GetStatus(Tick(robot, Some(pad)).crane).cranePosition == Down
  {
  }

  /** There is no press-edge detection: holding button 3 for two ticks
      toggles the grabber twice, returning it to where a valid state
      started at a bound. */
  lemma ToggleFiresEveryTick(robot: Robot, pad: PadSnapshot)
    requires robot.crane.servoDriver && |pad.axes| >= 2
    requires robot.crane.grabberAngle == GRABBER_MIN_ANGLE || robot.crane.grabberAngle == GRABBER_MAX_ANGLE
    requires Pressed(pad, 3)
    ensures var once := Tick(robot, Some(pad));
      once.crane.grabberAngle != robot.crane.grabberAngle
      && Tick(once, Some(pad)).crane.grabberAngle == robot.crane.grabberAngle
  {
  }

  /** A full-forward stick (axis 1 at -1, no turn) drives both motors at
      full forward duty in either stick mode, unless button 0 is held. */
  lemma FullStickDrivesFullForward(robot: Robot, pad: PadSnapshot)
    requires robot.motors.motorsPresent && |pad.axes| >= 2 && !Pressed(pad, 0)
    requires pad.axes[1] == -1.0
    requires |pad.axes| < DUAL_STICK_AXES ==> pad.axes[0] == 0.0
    requires |pad.axes| >= DUAL_STICK_AXES ==> pad.axes[4] == -1.0
    ensures Tick(robot, Some(pad)).motors.currentLeftSpeed == DUTY_LIMIT
    ensures Tick(robot, Some(pad)).motors.currentRightSpeed == DUTY_LIMIT
  {
  }

  /** Command names and the comparisons agree in both directions, so the
      eleven command strings are dispatched one-to-one. */
  lemma CommandRoundTrip(cmd: Command, s: string)
    ensures ParseCommand(CommandName(cmd)) == Some(cmd)
    ensures ParseCommand(s) == Some(cmd) <==> s == CommandName(cmd)
  {
    TankCommandRoundTrip(if cmd.TankCmd? then cmd.tank else Forward, s);
    CraneCommandRoundTrip(if cmd.CraneCmd? then cmd.crane else CraneUp, s);
  }

  /** `handle_command` recognises exactly eleven strings. */
  lemma CommandsAreClosed(s: string)
    ensures ParseCommand(s).Some? <==>
      s in {"forward", "backward", "left", "right", "stop",
            "crane_up", "crane_down", "grabber_open", "grabber_close", "crane_stop", "grabber_stop"}
  {
  }

  /** An unrecognised command such as "spin" leaves every motor and servo
      value unchanged. */
  lemma UnknownCommandChangesNothing(robot: Robot)
    ensures HandleCommand(robot, "spin") == robot
  {
  }
}
