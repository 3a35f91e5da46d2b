/** The third-person controller: one object whose fields are the character's
    mutable state, advanced by Update (simulation tick) and LateUpdate (late tick). */
module Controller {
  import opened Types
  import opened Angles
  import opened Locomotion
  import opened VerticalMotion
  import opened CameraRig

  /** The move issued to the character body in one tick: the heading of the
      horizontal part in degrees, its length, and the vertical part. */
  datatype Displacement = Displacement(heading: real, distance: real, rise: real)

  /** The move of one tick of length `dt` at the given speed, heading and vertical velocity. */
  function Travel(m: MotionState, verticalVelocity: real, dt: real): (r: Displacement)
    ensures r.heading == m.targetRotation
    ensures r.distance == m.speed * dt && r.rise == verticalVelocity * dt
    ensures dt >= 0.0 && m.speed >= 0.0 ==> r.distance >= 0.0
    ensures dt == 0.0 ==> r.distance == 0.0 && r.rise == 0.0
  {
    Displacement(m.targetRotation, m.speed * dt, verticalVelocity * dt)
  }

  class ThirdPersonController {
    const config: Config

    // locomotion
    var speed: real
    var animationBlend: real
    var targetRotation: real

    // vertical motion
    var verticalVelocity: real
    var jumpCooldownDelta: real
    var doubleJumpDelta: real
    var fallTimeoutDelta: real
    var doubleJump: bool
    var grounded: bool

    // camera rig
    var sensitivity: real
    var cinemachineTargetYaw: real
    var cinemachineTargetPitch: real
    var mouseWorldPosition: Point

    ghost function Motion(): MotionState
      reads this
    {
      MotionState(speed, animationBlend, targetRotation)
    }

    ghost function Vertical(): VerticalState
      reads this
    {
      VerticalState(verticalVelocity, jumpCooldownDelta, doubleJumpDelta, fallTimeoutDelta, doubleJump)
    }

    ghost function Camera(): CameraState
      reads this
    {
      CameraState(sensitivity, cinemachineTargetYaw, cinemachineTargetPitch, mouseWorldPosition)
    }

    /** The field initialisers followed by Start: both timers that Start resets
        begin at their configured durations, the double-jump timer at zero. */
    constructor (config: Config)
      ensures this.config == config
      ensures Motion() == MotionState(0.0, 0.0, 0.0)
      ensures Vertical() == VerticalState(0.0, config.jumpCooldown, 0.0, config.fallTimeout, false)
      ensures grounded
      ensures Camera() == CameraState(1.0, 0.0, 0.0, Point(0.0, 0.0, 0.0))
    {
      this.config := config;
      speed, animationBlend, targetRotation := 0.0, 0.0, 0.0;
      verticalVelocity := 0.0;
      doubleJump := false;
      grounded := true;
      doubleJumpDelta := 0.0;
      sensitivity := 1.0;
      cinemachineTargetYaw, cinemachineTargetPitch := 0.0, 0.0;
      mouseWorldPosition := Point(0.0, 0.0, 0.0);
      jumpCooldownDelta := config.jumpCooldown;
      fallTimeoutDelta := config.fallTimeout;
    }

    /** Speed, blend and heading for this tick, and the move they produce.
        The move's vertical part uses the vertical velocity as it stands
        before this tick's JumpAndGravity. */
    method Move(movement: Vec2, movementMagnitude: real, sprint: bool, currentHorizontalSpeed: real,
                inputHeading: real, cameraYaw: real, dt: real, hasAnimator: bool)
      returns (step: Displacement, signals: seq<AnimSignal>)
      modifies this
      ensures Motion() == MotionStep(config, old(Motion()), movement, movementMagnitude, sprint,
                                     currentHorizontalSpeed, inputHeading, cameraYaw, dt)
      ensures Vertical() == old(Vertical()) && grounded == old(grounded) && Camera() == old(Camera())
      ensures step == Travel(Motion(), verticalVelocity, dt)
      ensures signals == if hasAnimator
                         then [SetSpeed(animationBlend), SetMotionSpeed(InputMagnitude(config, movementMagnitude))]
                         else []
    {
      ghost var before := Motion();
      ghost var next := MotionStep(config, before, movement, movementMagnitude, sprint,
                                   currentHorizontalSpeed, inputHeading, cameraYaw, dt);
      NextSpeedBranches(currentHorizontalSpeed, TargetSpeed(config, movement, sprint),
                        InputMagnitude(config, movementMagnitude), dt * config.speedChangeRate);
      var targetSpeed := if sprint then config.sprintSpeed else config.walkSpeed;
      if IsZero(movement) {
        targetSpeed := 0.0;
      }
      assert targetSpeed == TargetSpeed(config, movement, sprint);
      var inputMagnitude := if config.analogMovement then movementMagnitude else 1.0;
      assert inputMagnitude == InputMagnitude(config, movementMagnitude);
      if currentHorizontalSpeed < targetSpeed - SpeedOffset || currentHorizontalSpeed > targetSpeed + SpeedOffset {
        speed := Lerp(currentHorizontalSpeed, ScaledTarget(targetSpeed, inputMagnitude), dt * config.speedChangeRate);
        speed := Round3(speed);
      } else {
        speed := targetSpeed;
      }
      animationBlend := Lerp(animationBlend, targetSpeed, dt * config.speedChangeRate);
      if !IsZero(movement) {
        targetRotation := inputHeading + cameraYaw;
      }
      assert targetRotation == NextRotation(old(targetRotation), movement, inputHeading, cameraYaw);
      assert animationBlend == Lerp(old(animationBlend), TargetSpeed(config, movement, sprint), dt * config.speedChangeRate);
      assert speed == next.speed;
      assert animationBlend == next.animationBlend;
      assert targetRotation == next.targetRotation;
      step := Travel(MotionState(speed, animationBlend, targetRotation), verticalVelocity, dt);
      signals := [];
      if hasAnimator {
        signals := [SetSpeed(animationBlend), SetMotionSpeed(inputMagnitude)];
      }
    }

    /** Jump, double jump, timers and gravity, driven by the grounded flag of
        the previous probe. `launch` is the jump launch speed. */
    method JumpAndGravity(jumpTriggered: bool, launch: real, dt: real, hasAnimator: bool)
      returns (signals: seq<AnimSignal>)
      modifies this
      ensures Vertical() == VerticalStep(config, old(Vertical()), grounded, jumpTriggered, launch, dt)
      ensures grounded == old(grounded) && Motion() == old(Motion()) && Camera() == old(Camera())
      ensures signals == JumpSignals(old(Vertical()), grounded, jumpTriggered, hasAnimator)
    {
      VerticalStepIsPhaseThenGravity(config, Vertical(), grounded, jumpTriggered, launch, dt);
      signals := [];
      if grounded {
        fallTimeoutDelta := config.fallTimeout;
        doubleJumpDelta := config.doubleJumpTimeout;
        doubleJump := true;
        if hasAnimator {
          signals := signals + [SetJump(false), SetFreeFall(false)];
        }
        if verticalVelocity < 0.0 {
          verticalVelocity := GroundedVelocity;
        }
        if jumpTriggered && jumpCooldownDelta <= 0.0 {
          verticalVelocity := launch;
          if hasAnimator {
            signals := signals + [SetJump(true)];
          }
        }
        if jumpCooldownDelta >= 0.0 {
          jumpCooldownDelta := jumpCooldownDelta - dt;
        }
      } else {
        if jumpTriggered && doubleJumpDelta <= 0.0 && doubleJump {
          verticalVelocity := launch;
          if hasAnimator {
            signals := signals + [PlayFlip];
          }
          doubleJump := false;
        } else {
          jumpCooldownDelta := config.jumpCooldown;
          if fallTimeoutDelta >= 0.0 {
            fallTimeoutDelta := fallTimeoutDelta - dt;
          } else if hasAnimator {
            signals := signals + [SetFreeFall(true)];
          }
        }
        if doubleJumpDelta >= 0.0 {
          doubleJumpDelta := doubleJumpDelta - dt;
        }
      }
      if verticalVelocity < config.terminalVelocity {
        verticalVelocity := verticalVelocity + config.gravity * dt;
      }
    }

    /** Stores the ground probe's answer for the next tick's JumpAndGravity. */
    method GroundedCheck(groundProbe: bool, hasAnimator: bool) returns (signals: seq<AnimSignal>)
      modifies this`grounded
      ensures grounded == groundProbe
      ensures signals == if hasAnimator then [SetGrounded(groundProbe)] else []
    {
      grounded := groundProbe;
      signals := if hasAnimator then [SetGrounded(grounded)] else [];
    }

    /** The simulation tick: Move, then JumpAndGravity, then GroundedCheck.
        So the vertical step sees the grounded flag probed on the previous
        tick, and the move uses the vertical velocity from before this step. */
    method Update(movement: Vec2, movementMagnitude: real, jumpTriggered: bool, sprint: bool,
                  currentHorizontalSpeed: real, inputHeading: real, cameraYaw: real,
                  groundProbe: bool, launch: real, dt: real, hasAnimator: bool)
      returns (step: Displacement, signals: seq<AnimSignal>)
      modifies this
      ensures Motion() == MotionStep(config, old(Motion()), movement, movementMagnitude, sprint,
                                     currentHorizontalSpeed, inputHeading, cameraYaw, dt)
      ensures Vertical() == VerticalStep(config, old(Vertical()), old(grounded), jumpTriggered, launch, dt)
      ensures grounded == groundProbe
      ensures Camera() == old(Camera())
      ensures step == Travel(Motion(), old(verticalVelocity), dt)
      ensures signals ==
                (if hasAnimator
                 then [SetSpeed(animationBlend), SetMotionSpeed(InputMagnitude(config, movementMagnitude))]
                 else [])
                + JumpSignals(old(Vertical()), old(grounded), jumpTriggered, hasAnimator)
                + (if hasAnimator then [SetGrounded(groundProbe)] else [])
    {
      var moveSignals, jumpSignals, groundSignals;
      step, moveSignals := Move(movement, movementMagnitude, sprint, currentHorizontalSpeed,
                                inputHeading, cameraYaw, dt, hasAnimator);
      jumpSignals := JumpAndGravity(jumpTriggered, launch, dt, hasAnimator);
      groundSignals := GroundedCheck(groundProbe, hasAnimator);
      signals := moveSignals + jumpSignals + groundSignals;
    }

    method SetSensitivity(newSensitivity: real)
      modifies this`sensitivity
      ensures sensitivity == newSensitivity
    {
      sensitivity := newSensitivity;
    }

    /** The spawn request of a shot: from the spawn point towards the aim point. */
    method Shoot(spawnPoint: Point) returns (request: SpawnRequest)
      ensures request.origin == spawnPoint && request.target == mouseWorldPosition
    {
      request := SpawnRequest(spawnPoint, mouseWorldPosition);
    }

    /** The late tick's camera work: the aim ray, the aim mode, the shot, the
        look accumulation and the clamps, in the source's order. */
    method CameraRotation(aim: bool, shoot: bool, look: Vec2, ray: Option<Point>, spawnPoint: Point, dt: real)
      returns (rig: RigCommands)
      modifies this
      ensures Camera() == CameraStep(config, old(Camera()), aim, look, ray, dt)
      ensures Motion() == old(Motion()) && Vertical() == old(Vertical()) && grounded == old(grounded)
      ensures rig == RigOutput(config, Camera(), aim, shoot, spawnPoint)
    {
      CameraStepIsGatedTurnThenClamp(config, Camera(), aim, look, ray, dt);
      if ray.Some? {
        mouseWorldPosition := ray.value;
      }
      var aimCameraActive, crosshairActive;
      var spawn: Option<SpawnRequest> := None;
      if aim {
        SetSensitivity(config.aimSensitivity);
        aimCameraActive, crosshairActive := true, true;
        if shoot {
          var request := Shoot(spawnPoint);
          spawn := Some(request);
        }
      } else {
        SetSensitivity(config.normalSensitivity);
        aimCameraActive, crosshairActive := false, false;
      }
      if look.SqrMagnitude() >= LookThreshold && !config.lockCameraPosition {
        cinemachineTargetYaw := Turned(cinemachineTargetYaw, look.x, dt, sensitivity);
        cinemachineTargetPitch := Turned(cinemachineTargetPitch, look.y, dt, sensitivity);
      }
      cinemachineTargetYaw := ClampAngle(cinemachineTargetYaw, -FloatMax, FloatMax);
      cinemachineTargetPitch := ClampAngle(cinemachineTargetPitch, config.bottomClamp, config.topClamp);
      rig := RigCommands(aimCameraActive, crosshairActive,
                         cinemachineTargetPitch + config.cameraAngleOverride, cinemachineTargetYaw, 0.0, spawn);
    }

    /** The late tick. A yaw within one turn stays within one turn when this
        tick's increment is at most a full turn. */
    method LateUpdate(aim: bool, shoot: bool, look: Vec2, ray: Option<Point>, spawnPoint: Point, dt: real)
      returns (rig: RigCommands)
      modifies this
      ensures Camera() == CameraStep(config, old(Camera()), aim, look, ray, dt)
      ensures Motion() == old(Motion()) && Vertical() == old(Vertical()) && grounded == old(grounded)
      ensures rig == RigOutput(config, Camera(), aim, shoot, spawnPoint)
      ensures -360.0 <= old(cinemachineTargetYaw) <= 360.0
              && YawIncrementBounded(config, CameraTick(aim, look, ray, dt))
              ==> -360.0 <= cinemachineTargetYaw <= 360.0
    {
      ghost var before := Camera();
      rig := CameraRotation(aim, shoot, look, ray, spawnPoint, dt);
      if -360.0 <= before.yaw <= 360.0 && YawIncrementBounded(config, CameraTick(aim, look, ray, dt)) {
        YawStaysWithinOneTurn(config, before, [CameraTick(aim, look, ray, dt)]);
        assert CameraRun(config, before, [CameraTick(aim, look, ray, dt)]) == Camera();
      }
    }
  }
}
