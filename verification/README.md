# Tank robot actuator control, modelled in Dafny

This project models the actuator-control core of the Freenove tank robot's
web/gamepad controller (`pi-tank-controller`). The core turns stick axes,
held buttons and web command strings into commands for two drive motors
and two servos. The servos are the crane lift and the grabber.

- `CraneControl` (crane_control.dfy) models the servo position controller.
  Lift and grabber angles are clamped to [90, 150]. A gradual move walks
  Python's `range(int(current), int(target) + step, step)` with a step of
  ±2 and then sets the exact target. Each servo has a derived position
  label: "up"/"closed" above 120°, otherwise "down"/"open". The six crane
  commands form a closed table.
- `MotorControl` (motor_control.dfy) models the motor actuator. The signed
  duty pair is clamped to [-4095, 4095]. Each side gets a direction and a
  power fraction, and the applied pair is recorded. It also holds the
  forward/backward/turn/stop wrappers, the stick-to-duty conversion
  (truncate, then flip the sign) and `control_tank`.
- `GamepadController` (gamepad_controller.dfy) models the gamepad and
  command layer. It has the deadzone rescale and the track mixing. Single
  stick mode mixes `y ∓ x` and scales both tracks down by
  `max(|l|, |r|, 1)`. Dual stick mode, used from five axes up, deadzones
  axes 1 and 4 and uses them as the tracks. The button actions of one input-loop iteration form a
  pure `Tick`. The eleven web commands are dispatched to the two
  actuators.
- `Bounds` (bounds.dfy) is the `max(lo, min(hi, x))` clamp that both
  actuators use. `RealArith` (real_arith.dfy) holds the real magnitude,
  sign and maximum, and the facts about real division that the stick
  conversion and the mixing rely on. `PyRange` (py_range.dfy) is Python's
  `range`. `Wrappers`
  (wrappers.dfy) is an `Option` type; `None` also stands for Python's
  `None` return value.

Everything is an immutable datatype plus pure functions. Hardware
presence is a boolean: `servoDriver` for the servos, and `motorsPresent`
for both motors together. Angles, duties and motor speeds are `int`. Stick values, the servo move
speed and power fractions are `real`, an exact stand-in for Python floats.

The model follows the code as written; in particular:
- A stick value becomes a duty by truncation toward zero (`int()`), not by
  rounding.
- When a motor is missing, `set_motor_speeds` returns before recording
  anything. The recorded speeds are not updated.
- The grabber toggle on button 3 has no press-edge detection. It fires on
  every tick the button is held (`ToggleFiresEveryTick`).
- The position label uses the fixed threshold 120 for both servos, not a
  midpoint per servo.
- The servo operations are written once per servo in the code. The model
  writes each operation once and parametrises it by `Actuator`.

## Model

| member | source | states |
|---|---|---|
| Bounds.Clamp | webserver/pi-tank-controller/src/tank/crane_control.py:87-89 | the result lies in [lo, hi], equals x when x is already there, and is the violated bound otherwise |
| Bounds.ClampIsNearest | webserver/pi-tank-controller/src/tank/crane_control.py:87-89 | the clamped value is the point of [lo, hi] nearest to the input |
| Bounds.ClampMonotone | webserver/pi-tank-controller/src/tank/crane_control.py:87-89 | clamping preserves the order of two inputs |
| Bounds.ClampIdempotent | webserver/pi-tank-controller/src/tank/crane_control.py:174-175 | clamping an angle that was already clamped changes nothing |
| PyRange.Range | webserver/pi-tank-controller/src/tank/crane_control.py:172 | element i of `range(start, stop, step)` is start + i*step; the range is empty exactly when start is not before stop in step direction; the last element is the last such value before stop |
| PyRange.RangeLengthByTwo | webserver/pi-tank-controller/src/tank/crane_control.py:172 | with step ±2 the range has (distance + 1) / 2 elements |
| CraneControl.SetAngle | webserver/pi-tank-controller/src/tank/crane_control.py:91-131 | with no driver: returns false and changes nothing; otherwise returns true and stores the angle clamped to that servo's [90, 150] (in-range angles unchanged), leaving the other servo alone |
| CraneControl.SweepAngles | webserver/pi-tank-controller/src/tank/crane_control.py:168-172 | the swept angles start at the current angle and advance by +2 when target > current, else by -2; they end at the target or one degree past it, and are just the current angle when it equals the target |
| CraneControl.CommandedAngles | webserver/pi-tank-controller/src/tank/crane_control.py:172-179 | one set argument per swept angle, the i-th being that angle clamped into the servo's bounds, followed by the exact target; the first is the clamped current angle |
| CraneControl.SweepStaysNearTarget | webserver/pi-tank-controller/src/tank/crane_control.py:168-172 | every swept angle lies between the current angle and the target, overshooting the target by at most one degree |
| CraneControl.CommandedAnglesApproachTarget | webserver/pi-tank-controller/src/tank/crane_control.py:172-179 | the intermediate set arguments move monotonically toward the target and never pass the clamped angle one degree beyond it |
| CraneControl.ApplyAngles | webserver/pi-tank-controller/src/tank/crane_control.py:173-179 | after setting a list of angles, the servo holds the clamp of the last one; the other servo and driver presence are unchanged; no driver means no change; valid angles stay valid |
| CraneControl.MoveGradually | webserver/pi-tank-controller/src/tank/crane_control.py:165-205 | with a positive speed, returns true and, with a driver, ends at exactly the clamped target whatever the step parity; a zero or negative speed returns false with a valid state unchanged; the other servo never moves |
| CraneControl.LiftCrane | webserver/pi-tank-controller/src/tank/crane_control.py:133-139 | with no driver: false, nothing changes; otherwise the lift ends at 150 and the grabber is untouched |
| CraneControl.LowerCrane | webserver/pi-tank-controller/src/tank/crane_control.py:141-147 | with no driver: false, nothing changes; otherwise the lift ends at 90 and the grabber is untouched |
| CraneControl.OpenGrabber | webserver/pi-tank-controller/src/tank/crane_control.py:149-155 | with no driver: false, nothing changes; otherwise the grabber ends at 90 and the lift is untouched |
| CraneControl.CloseGrabber | webserver/pi-tank-controller/src/tank/crane_control.py:157-163 | with no driver: false, nothing changes; otherwise the grabber ends at 150 and the lift is untouched |
| CraneControl.GetStatus | webserver/pi-tank-controller/src/tank/crane_control.py:217-225 | reports both angles and driver presence; "up"/"closed" exactly when the angle exceeds 120 |
| CraneControl.Init | webserver/pi-tank-controller/src/tank/crane_control.py:17-31 | the controller starts at lift 140, grabber 90, inside bounds, reporting "up" and "open", with or without a driver |
| CraneControl.ParseCraneCommand | webserver/pi-tank-controller/src/tank/crane_control.py:229-238 | a recognised command string is the name of the command it selects |
| CraneControl.Execute | webserver/pi-tank-controller/src/tank/crane_control.py:207-245 | the stop commands return None and change nothing; lift commands leave the grabber alone and grabber commands leave the lift alone |
| CraneControl.HandleCommand | webserver/pi-tank-controller/src/tank/crane_control.py:227-248 | an unknown string returns false with both angles unchanged; crane_stop/grabber_stop return None unchanged; each move command with a driver returns true and ends at its bound; without a driver nothing changes and every move command returns false |
| CraneControl.BoundMoveIsMonotone | webserver/pi-tank-controller/src/tank/crane_control.py:165-179 | for a wrapper's bound target from an in-bounds angle, the whole set sequence including the final set stays in bounds, is monotone and reaches the bound before the final set |
| CraneControl.WrapperLabels | webserver/pi-tank-controller/src/tank/crane_control.py:133-163 | after lift the status reads "up", after lower "down", after close "closed", after open "open" |
| CraneControl.LabelAtThreshold | webserver/pi-tank-controller/src/tank/crane_control.py:222-223 | an angle of exactly 120 reads "down", 121 reads "closed" |
| CraneControl.CraneCommandRoundTrip | webserver/pi-tank-controller/src/tank/crane_control.py:229-236 | table keys and commands correspond one-to-one in both directions |
| CraneControl.CraneCommandsAreClosed | webserver/pi-tank-controller/src/tank/crane_control.py:229-248 | exactly the six table keys are recognised |
| MotorControl.Init | webserver/pi-tank-controller/src/tank/motor_control.py:13-14 | recorded speeds start at (0, 0), in range |
| MotorControl.DutyRange | webserver/pi-tank-controller/src/tank/motor_control.py:23-27 | each component is clamped on its own into [-4095, 4095]; in-range components pass unchanged, out-of-range ones become the nearer limit |
| MotorControl.SideDrive | webserver/pi-tank-controller/src/tank/motor_control.py:37-56 | duty > 0 drives forward, < 0 backward, = 0 stops; the fraction times 4095 is the magnitude and lies in (0, 1] for an in-range duty |
| MotorControl.IssuedDrives | webserver/pi-tank-controller/src/tank/motor_control.py:29-56 | no motor call is issued when a motor is missing; otherwise each side receives the drive for its clamped duty |
| MotorControl.SetMotorSpeeds | webserver/pi-tank-controller/src/tank/motor_control.py:29-62 | with a motor missing nothing is recorded; otherwise the recorded pair is the clamped pair, both sides together |
| MotorControl.MoveForward | webserver/pi-tank-controller/src/tank/motor_control.py:64-66 | records (s, s) for an in-range speed, default 2000 |
| MotorControl.MoveBackward | webserver/pi-tank-controller/src/tank/motor_control.py:68-70 | records (-s, -s) |
| MotorControl.TurnLeft | webserver/pi-tank-controller/src/tank/motor_control.py:72-74 | records (-s, s) |
| MotorControl.TurnRight | webserver/pi-tank-controller/src/tank/motor_control.py:76-78 | records (s, -s) |
| MotorControl.StopMotors | webserver/pi-tank-controller/src/tank/motor_control.py:80-82 | records (0, 0) |
| MotorControl.Trunc | webserver/pi-tank-controller/src/tank/motor_control.py:90-91 | Python `int()` of a float: the integer part, never larger in magnitude than the input and less than one below it, with the input's sign |
| MotorControl.StickToDuty | webserver/pi-tank-controller/src/tank/motor_control.py:89-95 | a stick value in [-1, 1] gives an in-range duty; -1 gives +4095 and +1 gives -4095; a positive duty comes only from a negative stick and vice versa; the magnitude is 4095·|stick| truncated: at most that product and less than one below it |
| MotorControl.HandleGamepadInput | webserver/pi-tank-controller/src/tank/motor_control.py:84-97 | with motors present, records the converted duties (already in range for sticks in [-1, 1], clamped otherwise); without motors nothing changes |
| MotorControl.ParseTankCommand | webserver/pi-tank-controller/src/tank/motor_control.py:101-110 | a recognised string is the name of the command it selects |
| MotorControl.ExecuteTank | webserver/pi-tank-controller/src/tank/motor_control.py:101-110 | each command records its wrapper's default-speed pair |
| MotorControl.ControlTank | webserver/pi-tank-controller/src/tank/motor_control.py:99-110 | the five commands record (2000, 2000), (-2000, -2000), (-2000, 2000), (2000, -2000) and (0, 0); any other string changes nothing |
| MotorControl.SetMotorSpeedsClampsExample | webserver/pi-tank-controller/src/tank/motor_control.py:29-59 | setting (5000, -6000) records (4095, -4095) |
| MotorControl.SetMotorSpeedsRoundTrip | webserver/pi-tank-controller/src/tank/motor_control.py:23-59 | an in-range pair reads back unchanged, and re-applying the recorded pair is a no-op |
| MotorControl.RecordedMatchesIssued | webserver/pi-tank-controller/src/tank/motor_control.py:38-59 | the sign of each recorded duty is the direction its motor was driven in, and each issued fraction lies in (0, 1] |
| MotorControl.TankCommandRoundTrip | webserver/pi-tank-controller/src/tank/motor_control.py:101-110 | command strings and commands correspond one-to-one in both directions |
| GamepadController.ApplyDeadzone | webserver/pi-tank-controller/src/gamepad/controller.py:73-85 | for a deadzone in [0, 1): zero exactly when abs(v) <= dz; positive exactly above dz and negative exactly below -dz; [-1, 1] into [-1, 1]; ±1 to ±1 |
| GamepadController.DeadzoneMatchesReference | webserver/pi-tank-controller/src/gamepad/controller.py:78-85 | the rescale equals sign(v)·(abs(v) - dz)/(1 - dz) outside the deadzone |
| GamepadController.DeadzoneIsOdd | webserver/pi-tank-controller/src/gamepad/controller.py:82-85 | f(-v) = -f(v) |
| GamepadController.DeadzoneIsMonotone | webserver/pi-tank-controller/src/gamepad/controller.py:78-85 | the rescale preserves the order of inputs |
| GamepadController.NormalisingDivisor | webserver/pi-tank-controller/src/gamepad/controller.py:117 | the divisor is at least 1 and at least either magnitude, and is 1 when both tracks are in range |
| GamepadController.Normalise | webserver/pi-tank-controller/src/gamepad/controller.py:116-119 | both results have magnitude at most 1, and tracks already in range pass unchanged |
| GamepadController.NormaliseKeepsRatio | webserver/pi-tank-controller/src/gamepad/controller.py:117-119 | the two tracks keep their ratio |
| GamepadController.NormaliseOnlyScalesDown | webserver/pi-tank-controller/src/gamepad/controller.py:117-119 | each track keeps its sign and never grows; if either exceeded 1, the larger result has magnitude exactly 1 |
| GamepadController.MixSingleStick | webserver/pi-tank-controller/src/gamepad/controller.py:112-119 | mixed tracks have magnitude at most 1 and equal (y - x, y + x) when those are in range; they always keep the ratio and the sign of each of (y - x, y + x), and when either exceeds 1 in magnitude the larger result has magnitude exactly 1, i.e. both are divided by the larger magnitude |
| GamepadController.Tracks | webserver/pi-tank-controller/src/gamepad/controller.py:99-125 | below five axes the tracks are the single-stick mix of deadzoned axis 1 (forward) and deadzoned axis 0 (turn); from five axes they are deadzoned axes 1 and 4; for pad axes in [-1, 1] both tracks lie in [-1, 1], and in single-stick mode they always do |
| GamepadController.DualStickIsUnmixed | webserver/pi-tank-controller/src/gamepad/controller.py:120-125 | from five axes on, the left track depends only on axis 1 and the right only on axis 4 |
| GamepadController.SingleStickReadsTwoAxes | webserver/pi-tank-controller/src/gamepad/controller.py:108-119 | below five axes only axes 0 and 1 affect the tracks |
| GamepadController.InitRobot | webserver/pi-tank-controller/src/gamepad/controller.py:8-11 | the controller starts with speeds (0, 0) and servos at 140/90 |
| GamepadController.ToggleGrabber | webserver/pi-tank-controller/src/gamepad/controller.py:152-158 | a grabber reading "open" ends "closed" and vice versa; the lift is untouched |
| GamepadController.TickMotors | webserver/pi-tank-controller/src/gamepad/controller.py:127-145 | button 0 leaves the motors at (0, 0); otherwise the motors record the converted tracks; duties stay in range |
| GamepadController.HoldLiftLower | webserver/pi-tank-controller/src/gamepad/controller.py:147-151 | lower wins over lift when both are held; with neither held nothing changes |
| GamepadController.TickCrane | webserver/pi-tank-controller/src/gamepad/controller.py:147-158 | button 2 ends the lift at 90, button 1 alone at 150; button 3 sends the grabber to 90 if it was above 120, else to 150; unheld buttons leave their servo alone |
| GamepadController.Tick | webserver/pi-tank-controller/src/gamepad/controller.py:87-164 | without a pad, or with fewer than two axes, nothing changes; with a readable pad, button 0 released records the converted tracks, and button 0 held with motors present leaves both speeds at 0; with a driver, button 2 ends the lift at 90, button 1 alone at 150, and button 3 sends the grabber to 90 if it was above 120, else to 150; unheld buttons leave their servo alone; an absent motor pair or servo driver leaves its actuator unchanged; presence flags are kept; the servo and duty invariants are each kept whenever they held before |
| GamepadController.ParseCommand | webserver/pi-tank-controller/src/gamepad/controller.py:169-194 | a recognised string is the name of the command it selects |
| GamepadController.HandleCommand | webserver/pi-tank-controller/src/gamepad/controller.py:166-196 | motor commands act as `control_tank` and leave the servos alone; crane commands act as the crane's `handle_command` and leave the motors alone; any other string changes nothing |
| GamepadController.LiftAndLowerEndsDown | webserver/pi-tank-controller/src/gamepad/controller.py:148-151 | holding buttons 1 and 2 together ends with the lift at 90, reading "down" |
| GamepadController.ToggleFiresEveryTick | webserver/pi-tank-controller/src/gamepad/controller.py:152-158 | holding button 3 for two ticks toggles twice: the grabber moves and then returns |
| GamepadController.FullStickDrivesFullForward | webserver/pi-tank-controller/src/gamepad/controller.py:99-128 | a full-forward stick records (4095, 4095) in either stick mode unless button 0 is held |
| GamepadController.CommandRoundTrip | webserver/pi-tank-controller/src/gamepad/controller.py:169-194 | the eleven command strings and commands correspond one-to-one |
| GamepadController.CommandsAreClosed | webserver/pi-tank-controller/src/gamepad/controller.py:169-194 | exactly eleven strings are recognised |
| GamepadController.UnknownCommandChangesNothing | webserver/pi-tank-controller/src/gamepad/controller.py:193-194 | "spin" leaves the motors and servos unchanged |

## Left out

- Hardware drivers are reduced to booleans. gpiozero `Motor`/`AngularServo`, pygame and `_initialize_servo_driver` are foreign calls. The model keeps whether each driver is present and the values it would be sent.
- Threads, locks, `time.sleep` and the 60 Hz clock are not modelled. One input-loop iteration is the pure `Tick`. Every operation is one atomic state transition, so a half-applied motor pair cannot occur in the model.
- MoveGradually: the `speed` argument is kept only for its failure cases. A zero speed fails before moving. A negative speed fails in the sleep after the first set. A positive speed only changes the delay, which is not modelled.
- Exceptions raised by hardware writes inside `set_*_angle` and `set_motor_speeds` are not modelled: the model assumes those writes succeed. The catch-and-print wrappers around them and in `handle_command` are not modelled either.
- The `close()` shutdown paths of all three classes, and the controller's `start`/`stop` thread management, are left out as cleanup and I/O. `stop` ends with the motor `stop`, which is `MotorControl.StopMotors`.
- The controller's `get_status` and its `button_states`/`axis_states` dictionaries are left out as reporting plumbing. A button reads as held when the current snapshot has it and it is true. The source's dictionary keeps entries from earlier ticks, but that makes no difference for a single pad whose button count is fixed.
- When the motors are absent, the Python object never gets `current_left_speed`/`current_right_speed`, so a status read would fail. The model keeps (0, 0) there.
- Python floats are modelled as exact reals. NaN, infinities and rounding of float arithmetic are not modelled.
- webserver/pi-tank-controller/src/app.py is not part of this model. It holds the Flask routes, the always-"success" acknowledgement and the `GamepadController(crane_control=...)` call that does not match the no-argument constructor.
- The camera modules, the camera tests and `led_status.py` are not part of this model.
- Tracks: the bound on the tracks is stated for axis values in [-1, 1], the range pygame reports. Outside that range only single-stick mode is bounded.
