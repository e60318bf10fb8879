/** The motor actuator: two drive motors commanded by a signed duty pair in
    `[-4095, 4095]`, the last applied pair recorded, named drive wrappers,
    the stick-to-duty conversion and the simple command set.

    The motor drivers themselves are not modelled: only whether both are
    present, the per-side drive each call would issue, and the recorded
    speeds. */
module MotorControl {
  import opened Wrappers
  import opened Bounds
  import opened RealArith

  /** Largest duty magnitude. */
  const DUTY_LIMIT := 4095
  /** Speed the named wrappers use when none is given. */
  const DEFAULT_SPEED := 2000

  predicate InDutyRange(d: int) {
    -DUTY_LIMIT <= d <= DUTY_LIMIT
  }

  /** What `TankMotorControl` records: whether both motors are present and
      the last applied duty per side. */
  datatype MotorState = MotorState(motorsPresent: bool, currentLeftSpeed: int, currentRightSpeed: int)

  /** Both recorded duties lie in the duty range. */
  predicate Valid(m: MotorState) {
    InDutyRange(m.currentLeftSpeed) && InDutyRange(m.currentRightSpeed)
  }

  /** The constructor: both speeds start at zero. */
  function Init(motorsPresent: bool): (m: MotorState)
    ensures m.motorsPresent == motorsPresent && Valid(m)
    ensures m.currentLeftSpeed == 0 && m.currentRightSpeed == 0
  {
    MotorState(motorsPresent, 0, 0)
  }

  /** `duty_range`: clamp each duty into range, each side on its own. */
  function DutyRange(duty1: int, duty2: int): (r: (int, int))
    ensures InDutyRange(r.0) && InDutyRange(r.1)
    ensures InDutyRange(duty1) ==> r.0 == duty1
    ensures InDutyRange(duty2) ==> r.1 == duty2
    ensures duty1 > DUTY_LIMIT ==> r.0 == DUTY_LIMIT
    ensures duty1 < -DUTY_LIMIT ==> r.0 == -DUTY_LIMIT
    ensures duty2 > DUTY_LIMIT ==> r.1 == DUTY_LIMIT
    ensures duty2 < -DUTY_LIMIT ==> r.1 == -DUTY_LIMIT
  {
    (Clamp(duty1, -DUTY_LIMIT, DUTY_LIMIT), Clamp(duty2, -DUTY_LIMIT, DUTY_LIMIT))
  }

  /** The call one side's motor receives. */
  datatype Drive = DriveForward(fraction: real) | DriveBackward(fraction: real) | DriveStop

  /** The drive a clamped duty selects: its sign picks the direction and
      `|duty| / 4095` the power fraction. */
  function SideDrive(duty: int): (d: Drive)
    ensures d.DriveForward? <==> duty > 0
    ensures d.DriveBackward? <==> duty < 0
    ensures d.DriveStop? <==> duty == 0
    ensures !d.DriveStop? ==> d.fraction * (DUTY_LIMIT as real) == (if duty < 0 then -duty else duty) as real
    ensures !d.DriveStop? && InDutyRange(duty) ==> 0.0 < d.fraction <= 1.0
  {
    var fraction := (if duty < 0 then -duty else duty) as real / DUTY_LIMIT as real;
    if duty > 0 then DriveForward(fraction)
    else if duty < 0 then DriveBackward(fraction)
    else DriveStop
  }

  /** The motor calls `set_motor_speeds` issues: none when a motor is
      missing, otherwise the drive for each clamped duty. */
  function IssuedDrives(m: MotorState, leftDuty: int, rightDuty: int): (r: Option<(Drive, Drive)>)
    ensures r.None? <==> !m.motorsPresent
    ensures r.Some? ==> r.value.0 == SideDrive(DutyRange(leftDuty, rightDuty).0)
    ensures r.Some? ==> r.value.1 == SideDrive(DutyRange(leftDuty, rightDuty).1)
  {
    if !m.motorsPresent then None
    else
      var (l, r) := DutyRange(leftDuty, rightDuty);
      Some((SideDrive(l), SideDrive(r)))
  }

  /** `set_motor_speeds`: without both motors, return with nothing
      recorded; otherwise record the clamped pair, both sides together. */
  function SetMotorSpeeds(m: MotorState, leftDuty: int, rightDuty: int): (r: MotorState)
    ensures r.motorsPresent == m.motorsPresent
    ensures !m.motorsPresent ==> r == m
    ensures m.motorsPresent ==> (r.currentLeftSpeed, r.currentRightSpeed) == DutyRange(leftDuty, rightDuty)
    ensures m.motorsPresent ==> Valid(r)
    ensures Valid(m) ==> Valid(r)
  {
    if !m.motorsPresent then m
    else
      var (l, r) := DutyRange(leftDuty, rightDuty);
      m.(currentLeftSpeed := l, currentRightSpeed := r)
  }

  /** `move_forward`: both sides at `speed`. */
  function MoveForward(m: MotorState, speed: int := DEFAULT_SPEED): (r: MotorState)
    ensures m.motorsPresent && InDutyRange(speed) ==> r.currentLeftSpeed == speed && r.currentRightSpeed == speed
    ensures !m.motorsPresent ==> r == m
  {
    SetMotorSpeeds(m, speed, speed)
  }

  /** `move_backward`: both sides at `-speed`. */
  function MoveBackward(m: MotorState, speed: int := DEFAULT_SPEED): (r: MotorState)
    ensures m.motorsPresent && InDutyRange(speed) ==> r.currentLeftSpeed == -speed && r.currentRightSpeed == -speed
    ensures !m.motorsPresent ==> r == m
  {
    SetMotorSpeeds(m, -speed, -speed)
  }

  /** `turn_left`: left side backward, right side forward. */
  function TurnLeft(m: MotorState, speed: int := DEFAULT_SPEED): (r: MotorState)
    ensures m.motorsPresent && InDutyRange(speed) ==> r.currentLeftSpeed == -speed && r.currentRightSpeed == speed
    ensures !m.motorsPresent ==> r == m
  {
    SetMotorSpeeds(m, -speed, speed)
  }

  /** `turn_right`: left side forward, right side backward. */
  function TurnRight(m: MotorState, speed: int := DEFAULT_SPEED): (r: MotorState)
    ensures m.motorsPresent && InDutyRange(speed) ==> r.currentLeftSpeed == speed && r.currentRightSpeed == -speed
    ensures !m.motorsPresent ==> r == m
  {
    SetMotorSpeeds(m, speed, -speed)
  }

  /** `stop`: both sides at zero. */
  function StopMotors(m: MotorState): (r: MotorState)
    ensures m.motorsPresent ==> r.currentLeftSpeed == 0 && r.currentRightSpeed == 0
    ensures !m.motorsPresent ==> r == m
  {
    SetMotorSpeeds(m, 0, 0)
  }

  /** Python's `int()` on a float: truncation toward zero. Characterised
      by magnitude (the integer part, never rounded up) and sign. */
  function Trunc(x: real): (r: int)
    ensures Abs(r as real) <= Abs(x) < Abs(r as real) + 1.0
    ensures r > 0 ==> x > 0.0
    ensures r < 0 ==> x < 0.0
  {
    if x >= 0.0 then x.Floor else -((-x).Floor)
  }

  /** The duty `handle_gamepad_input` derives from one stick value: scale
      to the duty range, truncate, then flip the sign so that a pushed-up
      stick (negative) drives forward. */
  function StickToDuty(stick: real): (d: int)
    ensures -1.0 <= stick <= 1.0 ==> InDutyRange(d)
    ensures stick == -1.0 ==> d == DUTY_LIMIT
    ensures stick == 1.0 ==> d == -DUTY_LIMIT
    ensures d > 0 ==> stick < 0.0
    ensures d < 0 ==> stick > 0.0
    ensures Abs(d as real) <= Abs(stick) * DUTY_LIMIT as real
    ensures Abs(stick) * DUTY_LIMIT as real < Abs(d as real) + 1.0
  {
    -Trunc(stick * DUTY_LIMIT as real)
  }

  /** `handle_gamepad_input`: convert both stick values and set them. */
  function HandleGamepadInput(m: MotorState, leftStickY: real, rightStickY: real): (r: MotorState)
    ensures !m.motorsPresent ==> r == m
    ensures m.motorsPresent ==> Valid(r)
    ensures m.motorsPresent && -1.0 <= leftStickY <= 1.0 ==> r.currentLeftSpeed == StickToDuty(leftStickY)
    ensures m.motorsPresent && -1.0 <= rightStickY <= 1.0 ==> r.currentRightSpeed == StickToDuty(rightStickY)
    ensures m.motorsPresent ==> r.currentLeftSpeed == Clamp(StickToDuty(leftStickY), -DUTY_LIMIT, DUTY_LIMIT)
    ensures m.motorsPresent ==> r.currentRightSpeed == Clamp(StickToDuty(rightStickY), -DUTY_LIMIT, DUTY_LIMIT)
  {
    SetMotorSpeeds(m, StickToDuty(leftStickY), StickToDuty(rightStickY))
  }

  /** The commands `control_tank` knows. */
  datatype TankCommand = Forward | Backward | Left | Right | Stop

  function TankCommandName(cmd: TankCommand): string {
    match cmd
    case Forward => "forward"
    case Backward => "backward"
    case Left => "left"
    case Right => "right"
    case Stop => "stop"
  }

  /** The string comparisons of `control_tank`. */
  function ParseTankCommand(s: string): (r: Option<TankCommand>)
    ensures r.Some? ==> TankCommandName(r.value) == s
  {
    if s == "forward" then Some(Forward)
    else if s == "backward" then Some(Backward)
    else if s == "left" then Some(Left)
    else if s == "right" then Some(Right)
    else if s == "stop" then Some(Stop)
    else None
  }

  /** One command, with the wrappers' default speed. */
  function ExecuteTank(m: MotorState, cmd: TankCommand): (r: MotorState)
    ensures m.motorsPresent ==> (r.currentLeftSpeed, r.currentRightSpeed) == match cmd
      case Forward => (DEFAULT_SPEED, DEFAULT_SPEED)
      case Backward => (-DEFAULT_SPEED, -DEFAULT_SPEED)
      case Left => (-DEFAULT_SPEED, DEFAULT_SPEED)
      case Right => (DEFAULT_SPEED, -DEFAULT_SPEED)
      case Stop => (0, 0)
    ensures !m.motorsPresent ==> r == m
    ensures r.motorsPresent == m.motorsPresent
  {
    match cmd
    case Forward => MoveForward(m)
    case Backward => MoveBackward(m)
    case Left => TurnLeft(m)
    case Right => TurnRight(m)
    case Stop => StopMotors(m)
  }

  /** `control_tank`: run a known command; any other string changes
      nothing. */
  function ControlTank(m: MotorState, command: string): (r: MotorState)
    ensures ParseTankCommand(command).None? ==> r == m
    ensures !m.motorsPresent ==> r == m
    ensures m.motorsPresent && command == "forward" ==> r == MotorState(true, DEFAULT_SPEED, DEFAULT_SPEED)
    ensures m.motorsPresent && command == "backward" ==> r == MotorState(true, -DEFAULT_SPEED, -DEFAULT_SPEED)
    ensures m.motorsPresent && command == "left" ==> r == MotorState(true, -DEFAULT_SPEED, DEFAULT_SPEED)
    ensures m.motorsPresent && command == "right" ==> r == MotorState(true, DEFAULT_SPEED, -DEFAULT_SPEED)
    ensures m.motorsPresent && command == "stop" ==> r == MotorState(true, 0, 0)
    ensures Valid(m) ==> Valid(r)
  {
    match ParseTankCommand(command)
    case None => m
    case Some(cmd) => ExecuteTank(m, cmd)
  }

  /** Clamping example: `(5000, -6000)` is recorded as `(4095, -4095)`. */
  lemma SetMotorSpeedsClampsExample(m: MotorState)
    requires m.motorsPresent
    ensures SetMotorSpeeds(m, 5000, -6000) == MotorState(true, DUTY_LIMIT, -DUTY_LIMIT)
  {
  }

  /** Setting a pair that is already in range, then reading it back, gives
      the same pair; setting twice is setting once. */
  lemma SetMotorSpeedsRoundTrip(m: MotorState, l: int, r: int)
    requires m.motorsPresent
    ensures InDutyRange(l) && InDutyRange(r) ==>
      var m' := SetMotorSpeeds(m, l, r); m'.currentLeftSpeed == l && m'.currentRightSpeed == r
    ensures var m' := SetMotorSpeeds(m, l, r);
      SetMotorSpeeds(m', m'.currentLeftSpeed, m'.currentRightSpeed) == m'
  {
  }

  /** The recorded pair and the issued drives agree: the recorded sign of
      each side is the direction its motor was driven in, and the fraction
      times 4095 is the recorded magnitude. */
  lemma RecordedMatchesIssued(m: MotorState, l: int, r: int)
    requires m.motorsPresent
    ensures var m' := SetMotorSpeeds(m, l, r);
      var d := IssuedDrives(m, l, r).value;
      && (d.0.DriveForward? <==> m'.currentLeftSpeed > 0)
      && (d.0.DriveBackward? <==> m'.currentLeftSpeed < 0)
      && (d.1.DriveForward? <==> m'.currentRightSpeed > 0)
      && (d.1.DriveBackward? <==> m'.currentRightSpeed < 0)
      && (!d.0.DriveStop? ==> 0.0 < d.0.fraction <= 1.0)
      && (!d.1.DriveStop? ==> 0.0 < d.1.fraction <= 1.0)
  {
  }

  /** Command names and the comparisons agree in both directions. */
  lemma TankCommandRoundTrip(cmd: TankCommand, s: string)
    ensures ParseTankCommand(TankCommandName(cmd)) == Some(cmd)
    ensures ParseTankCommand(s) == Some(cmd) <==> s == TankCommandName(cmd)
  {
  }
}
