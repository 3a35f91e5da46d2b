# Third-person controller: a Dafny model

This project models the per-tick state machine of the third-person character
controller in `ThirdPersonController.cs`. It covers:

- the locomotion step (`Move`): target speed, the ±0.1 deadband snap, the
  clamped interpolation of the speed and the animation blend, rounding to three
  decimals, and the heading;
- the jump and gravity state machine (`JumpAndGravity`): the grounded
  jump, the double jump, three countdown timers and the guarded gravity
  update;
- the grounded probe (`GroundedCheck`);
- the camera rig (`CameraRotation`, `SetSensitivity`, `Shoot`): aim mode,
  sensitivity, the look threshold and lock gate, the angle clamps, the
  retained aim point and the shoot gate;
- the two engine callbacks: `Update` runs Move, JumpAndGravity and
  GroundedCheck in that order; `LateUpdate` runs CameraRotation.

The controller is the class `Controller.ThirdPersonController`. Its fields are
the mutable state of the original component, and its methods update them step
by step, in the order and with the branches of the original. The class rests on
pure specification functions, one module per concern:

- `Angles`: `ClampAngle` and the engine's `Clamp`;
- `Locomotion`: `TargetSpeed`, `NextSpeed`, `Lerp`, `Round3`, `NextRotation`
  and `MotionStep`;
- `VerticalMotion`: `JumpPhase`, `VerticalStep` and `JumpSignals`;
- `CameraRig`: `CameraStep` and `RigOutput`.

Each method's postcondition ties the new fields to the corresponding
function of the old fields. The properties of the controller are proved as
lemmas about those functions. Some of these lemmas cover whole runs of ticks:

- at most one double jump per airborne run;
- yaw staying within one turn;
- pitch staying within its clamp.

Floats are modelled as mathematical reals. Engine values are method
parameters:

- `dt`: the frame time;
- `groundProbe`: the sphere check;
- `ray`: the aim ray's hit, `None` on a miss;
- `currentHorizontalSpeed`: the body's horizontal speed;
- `hasAnimator`: whether an animator is attached;
- the input values.

Animator calls come back as `AnimSignal` sequences. Scene commands (showing
the aim camera and the crosshair, the pivot's rotation, a projectile spawn) come
back as `RigCommands`.

Facts the model makes explicit:

- The gravity guard `verticalVelocity < terminalVelocity` does not cap the
  falling speed. With negative gravity, a velocity below a terminal velocity
  keeps decreasing (`GravityGuardDoesNotCapFalls`).
- `ClampAngle` makes only one ±360 correction, and the ±float.MaxValue yaw
  bounds never pull the angle back, so it is not idempotent on yaw: 800 becomes 440, then 80
  (`ClampAngleNotIdempotentForYawBounds`). Yaw stays within one turn as long as
  each tick whose look input applies turns it by at most a full turn
  (`YawStaysWithinOneTurn`); a larger turn can leave it outside (0 + 800
  becomes 440).
- The animation blend approaches the unscaled target speed without a
  deadband, while the speed approaches `targetSpeed * inputMagnitude` and snaps
  inside the deadband.
- The move of a tick uses the vertical velocity from before that tick's
  JumpAndGravity. JumpAndGravity uses the grounded flag probed on the previous
  tick.

## Model

| member | source | states |
|---|---|---|
| Angles.Clamp | ThirdPersonController.cs:289 | the lower bound is tested first, so a value below min gives min; a value not below min but above max gives max; with min <= max the result lies in [min, max]; a value within the bounds is returned unchanged |
| Angles.ClampAngle | ThirdPersonController.cs:285-290 | with min <= max the result lies in [min, max]; an angle within one turn and within the bounds is returned unchanged; an angle within two turns lands within one turn when the bounds contain [-360, 360]; an angle beyond a full turn is corrected by exactly one 360 towards zero and then clamped, one within a turn is only clamped |
| Angles.ClampAngleIdempotent | ThirdPersonController.cs:285-290 | clamping twice equals clamping once when [min, max] lies within [-360, 360], as the pitch range does |
| Angles.ClampAngleNotIdempotentForYawBounds | ThirdPersonController.cs:272 | under the yaw bounds ±float.MaxValue, 800 clamps to 440 and clamping again gives 80 |
| Angles.YawStepStaysWithinOneTurn | ThirdPersonController.cs:267-272 | a yaw within one turn plus an increment of at most one turn stays within one turn after the yaw clamp |
| Locomotion.Clamp01 | ThirdPersonController.cs:318 | the interpolation parameter is clamped to [0, 1]: below 0 it becomes 0, above 1 it becomes 1, inside it is left alone |
| Locomotion.Lerp | ThirdPersonController.cs:318 | the interpolated value lies between the two ends; a parameter <= 0 gives the start, >= 1 the end |
| Locomotion.LerpShrinksDistance | ThirdPersonController.cs:328 | one interpolation step leaves exactly the fraction 1 - clamp01(t) of the distance to the goal |
| Locomotion.RoundHalfEven | ThirdPersonController.cs:321 | the engine's rounding is within 0.5 of its argument and exact on integers |
| Locomotion.Round3 | ThirdPersonController.cs:321 | rounding to three decimals moves a value by at most 0.0005 |
| Locomotion.TargetSpeed | ThirdPersonController.cs:297-305 | the target is 0 when the movement input passes the engine's approximate zero test, otherwise the sprint speed when sprinting and the walk speed when not |
| Locomotion.OutsideDeadbandIsDistance | ThirdPersonController.cs:310-315 | the deadband test is exactly "the current speed is more than 0.1 from the target" |
| Locomotion.NextSpeed | ThirdPersonController.cs:315-326 | inside the deadband the speed is the target exactly; outside it the speed is within 0.0005 of the interpolation towards target * inputMagnitude, and so between the current speed and that value up to the rounding |
| Locomotion.NextRotation | ThirdPersonController.cs:334-336 | the heading changes only with non-zero movement input, to the input heading plus the camera yaw |
| Locomotion.MotionStep | ThirdPersonController.cs:297-336 | the speed follows NextSpeed towards the target scaled by the input magnitude, the blend is Lerp towards the unscaled target speed, the heading follows NextRotation; without movement input the heading is kept, the blend heads for zero and a body within 0.1 of rest stops exactly |
| Locomotion.IdleSettles | ThirdPersonController.cs:302-328 | without movement input a body within 0.1 of rest stops exactly, and the animation blend never moves away from zero and strictly approaches it when the step is positive |
| VerticalMotion.CountDown | ThirdPersonController.cs:399-402 | a timer decreases by dt only when it is not negative; a negative timer is unchanged; a timer at or above 0 ends at or above -dt |
| VerticalMotion.JumpPhase | ThirdPersonController.cs:363-447 | grounded ticks reset the fall and double-jump timers and restore the double jump; grounded velocity is the launch speed when the jump fires, otherwise -2 if falling; a fired double jump launches and consumes the double jump; other airborne ticks reset the jump cooldown and count the fall timer down; only a grounded tick makes the double jump available |
| VerticalMotion.VerticalStep | ThirdPersonController.cs:361-454 | gravity changes only the velocity, adding gravity * dt exactly when the phase's velocity is below the terminal velocity; the grounded resets and the double-jump consumption survive it |
| VerticalMotion.ApplyGravity | ThirdPersonController.cs:450-453 | gravity * dt is added exactly when the velocity is below the terminal velocity; otherwise the velocity is unchanged |
| VerticalMotion.JumpSignals | ThirdPersonController.cs:373-439 | no signals without an animator; the flip plays exactly when the double jump fires; Jump is set exactly when a grounded jump fires; FreeFall is set exactly on an airborne tick without a double jump whose fall timer is negative; grounded ticks first clear Jump and FreeFall and send two signals, or three when the jump fires; airborne ticks send the flip, the free-fall signal, or nothing |
| VerticalMotion.GroundedJumpLaunches | ThirdPersonController.cs:386-389 | a grounded jump with an expired cooldown leaves with a launch speed v >= 0 with v * v == jumpHeight * -2 * gravity |
| VerticalMotion.GravityGuardDoesNotCapFalls | ThirdPersonController.cs:450-453 | with negative gravity a velocity below the terminal velocity keeps decreasing, and one at or above it is never accelerated |
| VerticalMotion.AirborneRunAtMostOneDoubleJump | ThirdPersonController.cs:408-421 | across consecutive airborne ticks at most one double jump fires, none if it was already used, and once used it stays unavailable |
| VerticalMotion.DoubleJumpThenNoMore | ThirdPersonController.cs:408-421 | a double jump followed by any airborne run is the only one of that run |
| CameraRig.NextAimPoint | ThirdPersonController.cs:232-236 | the aim point becomes the ray's hit, and is kept when the ray misses |
| CameraRig.CameraStep | ThirdPersonController.cs:224-277 | the sensitivity follows the aim flag; the aim point changes only on a hit; yaw and pitch grow by look * dt * sensitivity only when the look input reaches the threshold and the camera is not locked, and are then clamped; the pitch ends within its clamp |
| CameraRig.RigOutput | ThirdPersonController.cs:240-276 | the aim camera and the crosshair are shown exactly while aiming; a projectile is spawned exactly when aiming and shooting, towards the aim point of this tick; the pivot takes pitch + override, yaw and roll 0 |
| CameraRig.YawStaysWithinOneTurn | ThirdPersonController.cs:265-272 | a yaw within one turn stays within one turn over any run of late ticks in which every tick whose look input applies turns it by at most one turn |
| CameraRig.PitchStaysClamped | ThirdPersonController.cs:273 | after any late tick the pitch lies within [bottomClamp, topClamp] and stays there |
| CameraRig.ReleasingAimRestoresFreeLook | ThirdPersonController.cs:257-262 | a tick without aim uses the normal sensitivity, hides the aim camera and the crosshair, and spawns nothing |
| Controller.Travel | ThirdPersonController.cs:346-349 | the move's heading is the target rotation, its horizontal length speed * dt and its vertical part verticalVelocity * dt; its length is not negative for a non-negative speed and frame time; a zero frame time moves nothing |
| Controller.ThirdPersonController.constructor | ThirdPersonController.cs:192-207 | the initial state: speed, blend, heading, velocity, angles and double-jump timer zero, jump cooldown and fall timeout at their configured values, no double jump, grounded, sensitivity 1, aim point at the origin |
| Controller.ThirdPersonController.Move | ThirdPersonController.cs:294-357 | the locomotion fields become MotionStep of their old values and nothing else changes; the move uses the new speed and heading; the animator receives the blend and the input magnitude |
| Controller.ThirdPersonController.JumpAndGravity | ThirdPersonController.cs:361-454 | the vertical fields become VerticalStep of their old values under the current grounded flag, nothing else changes, and the animator signals are JumpSignals |
| Controller.ThirdPersonController.GroundedCheck | ThirdPersonController.cs:456-467 | the grounded flag takes the probe's answer, which the animator receives |
| Controller.ThirdPersonController.Update | ThirdPersonController.cs:209-216 | Move, then JumpAndGravity with the grounded flag of the previous probe, then GroundedCheck; the move uses the vertical velocity from before this tick's jump step; the signals are the three calls' in order |
| Controller.ThirdPersonController.SetSensitivity | ThirdPersonController.cs:280-283 | the sensitivity takes the given value and nothing else changes |
| Controller.ThirdPersonController.Shoot | ThirdPersonController.cs:470-475 | the projectile starts at the spawn point and aims at the current aim point |
| Controller.ThirdPersonController.CameraRotation | ThirdPersonController.cs:224-277 | the camera fields become CameraStep of their old values, nothing else changes, and the rig commands are RigOutput of the new camera state |
| Controller.ThirdPersonController.LateUpdate | ThirdPersonController.cs:218-221 | one CameraRotation; a yaw within one turn stays within one turn when the tick's increment is at most one turn |

## Left out

- Input plumbing (`Awake`, `OnDisable`, the input action bindings and their callbacks) is engine I/O. The input values and the jump action's `triggered` edge are parameters of the tick methods. As the bindings are written, `shoot` takes `context.started` inside a `performed` callback (line 168), which may keep it false, and `movement` and `look` have no `canceled` handler (lines 152, 155), so they keep their last value. The model takes whatever values the inputs hold, so a spawn it allows may never occur in the original.
- Engine queries are parameters: the grounded sphere check (`groundProbe`), the aim raycast (`ray`), the body's horizontal velocity (`currentHorizontalSpeed`), `Time.deltaTime` (`dt`), and `TryGetComponent` for the animator (`hasAnimator`).
- The jump launch speed `Mathf.Sqrt(jumpHeight * -2 * gravity)` is the parameter `launch`. `GroundedJumpLaunches` states its properties under `IsLaunchSpeed`. The methods do not require it, because the original does not check the argument of the square root in either jump branch (lines 389 and 411). A negative argument there gives NaN in the original, which the model does not capture.
- The length of the movement input (`movement.magnitude`) is the parameter `movementMagnitude`. The input direction's heading (`Atan2` of the normalised input) and the main camera's yaw are the parameters `inputHeading` and `cameraYaw`.
- Rotation geometry is not modelled: `Mathf.SmoothDampAngle` and `rotationVelocity`, the body's rotation when not aiming, the `transform.forward` interpolation towards the aim direction while aiming, the `Quaternion` constructions, and the projectile's orientation. The model keeps only the heading and the pivot angles these are built from.
- Animator calls are `AnimSignal` values. Animation ID hashing (`AssignAnimationIDs`) is not modelled.
- Showing the aim camera and the crosshair, rotating the camera pivot and instantiating a projectile are `RigCommands` values, not scene state. Their state before the first late tick is not modelled.
- Every scene reference (`debugTransform`, `aimCamera`, `crosshair`, `cameraPivot`, `projectileSpawnPoint`, the main camera) is assumed to be assigned. The original does not guard them. An unassigned `debugTransform` throws before the hit is stored and aborts the rest of CameraRotation; the model never aborts.
- Cursor locking, `FindGameObjectWithTag`, the debug transform and `OnDrawGizmosSelected` are scene glue and are not modelled.
- Locomotion.Round3: single-precision floats are modelled as reals, so rounding to three decimals is rounding of the exact product by 1000. Overflow, NaN and loss of precision are not modelled.
- Types.IsZero: the engine's approximate `Vector2 == Vector2.zero` is modelled as a squared length below 1e-10. Its float evaluation is not modelled.
