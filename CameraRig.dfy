/** The camera rig of the late tick: aim mode, sensitivity, yaw and pitch
    accumulation with their clamps, the retained aim point and the shoot gate. */
module CameraRig {
  import opened Types
  import opened Angles

  /** Look input whose squared length is below this does not turn the camera. */
  const LookThreshold: real := 0.01

  /** The part of the controller's state that CameraRotation updates. */
  datatype CameraState = CameraState(sensitivity: real, yaw: real, pitch: real, aimPoint: Point)

  /** A request to spawn a projectile at `origin` facing `target`. */
  datatype SpawnRequest = SpawnRequest(origin: Point, target: Point)

  /** What CameraRotation sends to the scene: whether the aim camera and the
      crosshair are shown, the pivot's orientation (pitch, yaw, roll) and at
      most one projectile spawn. */
  datatype RigCommands = RigCommands(
    aimCameraActive: bool,
    crosshairActive: bool,
    pivotPitch: real,
    pivotYaw: real,
    pivotRoll: real,
    spawn: Option<SpawnRequest>)

  function Sensitivity(c: Config, aim: bool): real {
    if aim then c.aimSensitivity else c.normalSensitivity
  }

  /** The look input turns the camera: it is large enough and the camera is not locked. */
  predicate LookApplies(c: Config, look: Vec2) {
    look.SqrMagnitude() >= LookThreshold && !c.lockCameraPosition
  }

  /** An angle turned by one look component for one tick at the given sensitivity. */
  function Turned(angle: real, lookComponent: real, dt: real, sensitivity: real): real {
    angle + lookComponent * dt * sensitivity
  }

  /** The aim point: the ray's hit, or the last one when the ray misses. */
  function NextAimPoint(previous: Point, ray: Option<Point>): (r: Point)
    ensures ray.None? ==> r == previous
    ensures ray.Some? ==> r == ray.value
  {
    match ray
    case Some(hit) => hit
    case None => previous
  }

  /** One CameraRotation step on the camera state. */
  function CameraStep(c: Config, s: CameraState, aim: bool, look: Vec2, ray: Option<Point>, dt: real): (r: CameraState)
    // the sensitivity follows the aim flag on the same tick
    ensures r.sensitivity == (if aim then c.aimSensitivity else c.normalSensitivity)
    // the aim point changes only on a ray hit
    ensures r.aimPoint == (if ray.Some? then ray.value else s.aimPoint)
    // without usable look input the angles are only re-clamped, not incremented
    ensures !LookApplies(c, look) ==>
              r.yaw == ClampAngle(s.yaw, -FloatMax, FloatMax)
              && r.pitch == ClampAngle(s.pitch, c.bottomClamp, c.topClamp)
    // with it they grow by look * dt * the sensitivity just chosen, then are clamped
    ensures LookApplies(c, look) ==>
              r.yaw == ClampAngle(Turned(s.yaw, look.x, dt, r.sensitivity), -FloatMax, FloatMax)
              && r.pitch == ClampAngle(Turned(s.pitch, look.y, dt, r.sensitivity), c.bottomClamp, c.topClamp)
    // the pitch always ends within its clamp
    ensures c.bottomClamp <= c.topClamp ==> c.bottomClamp <= r.pitch <= c.topClamp
    // a yaw within one turn stays put without look input
    ensures !LookApplies(c, look) && -360.0 <= s.yaw <= 360.0 ==> r.yaw == s.yaw
  {
    var sensitivity := Sensitivity(c, aim);
    var yaw := if LookApplies(c, look) then Turned(s.yaw, look.x, dt, sensitivity) else s.yaw;
    var pitch := if LookApplies(c, look) then Turned(s.pitch, look.y, dt, sensitivity) else s.pitch;
    CameraState(
      sensitivity,
      ClampAngle(yaw, -FloatMax, FloatMax),
      ClampAngle(pitch, c.bottomClamp, c.topClamp),
      NextAimPoint(s.aimPoint, ray))
  }

  /** CameraStep unfolded: the sensitivity, the gated increments, the clamps and the aim point. */
  lemma CameraStepIsGatedTurnThenClamp(c: Config, s: CameraState, aim: bool, look: Vec2, ray: Option<Point>, dt: real)
    ensures var sensitivity := Sensitivity(c, aim);
            CameraStep(c, s, aim, look, ray, dt)
            == CameraState(
                 sensitivity,
                 ClampAngle(if LookApplies(c, look) then Turned(s.yaw, look.x, dt, sensitivity) else s.yaw,
                            -FloatMax, FloatMax),
                 ClampAngle(if LookApplies(c, look) then Turned(s.pitch, look.y, dt, sensitivity) else s.pitch,
                            c.bottomClamp, c.topClamp),
                 NextAimPoint(s.aimPoint, ray))
  {
  }

  /** The commands sent after the camera state `s` of this tick is computed. */
  function RigOutput(c: Config, s: CameraState, aim: bool, shoot: bool, spawnPoint: Point): (r: RigCommands)
    // the aim camera and the crosshair are shown exactly while aiming
    ensures r.aimCameraActive == aim && r.crosshairActive == aim
    // a projectile is spawned only when aiming and shooting, towards the retained aim point
    ensures r.spawn.Some? <==> aim && shoot
    ensures r.spawn.Some? ==> r.spawn.value == SpawnRequest(spawnPoint, s.aimPoint)
    // the pivot takes the clamped angles, pitch shifted by the override, roll zero
    ensures r.pivotPitch == s.pitch + c.cameraAngleOverride && r.pivotYaw == s.yaw && r.pivotRoll == 0.0
  {
    var spawn := if aim && shoot then Some(SpawnRequest(spawnPoint, s.aimPoint)) else None;
    RigCommands(aim, aim, s.pitch + c.cameraAngleOverride, s.yaw, 0.0, spawn)
  }

  /** One late tick's inputs to the camera rig. */
  datatype CameraTick = CameraTick(aim: bool, look: Vec2, ray: Option<Point>, dt: real)

  function CameraRun(c: Config, s: CameraState, ticks: seq<CameraTick>): CameraState
    decreases |ticks|
  {
    if ticks == [] then s
    else CameraRun(c, CameraStep(c, s, ticks[0].aim, ticks[0].look, ticks[0].ray, ticks[0].dt), ticks[1..])
  }

  /** A tick whose look input applies adds at most a full turn to the yaw. */
  predicate YawIncrementBounded(c: Config, t: CameraTick) {
    LookApplies(c, t.look) ==> -360.0 <= Turned(0.0, t.look.x, t.dt, Sensitivity(c, t.aim)) <= 360.0
  }

  /** Yaw that starts within one turn stays within one turn over any run of
      late ticks whose increments are at most a full turn each. */
  lemma {:induction false} YawStaysWithinOneTurn(c: Config, s: CameraState, ticks: seq<CameraTick>)
    requires -360.0 <= s.yaw <= 360.0
    requires forall i :: 0 <= i < |ticks| ==> YawIncrementBounded(c, ticks[i])
    ensures -360.0 <= CameraRun(c, s, ticks).yaw <= 360.0
    decreases |ticks|
  {
    if ticks != [] {
      var t := ticks[0];
      var s1 := CameraStep(c, s, t.aim, t.look, t.ray, t.dt);
      assert YawIncrementBounded(c, t);
      if LookApplies(c, t.look) {
        var increment := Turned(0.0, t.look.x, t.dt, Sensitivity(c, t.aim));
        assert Turned(s.yaw, t.look.x, t.dt, Sensitivity(c, t.aim)) == s.yaw + increment;
        YawStepStaysWithinOneTurn(s.yaw, increment);
      }
      assert -360.0 <= s1.yaw <= 360.0;
      assert forall i :: 0 <= i < |ticks[1..]| ==> YawIncrementBounded(c, ticks[1..][i]) by {
        forall i | 0 <= i < |ticks[1..]| ensures YawIncrementBounded(c, ticks[1..][i]) {
          assert ticks[1..][i] == ticks[i + 1];
        }
      }
      YawStaysWithinOneTurn(c, s1, ticks[1..]);
    }
  }

  /** After any non-empty run of late ticks the pitch lies within its clamp,
      and it never leaves it again. */
  lemma {:induction false} PitchStaysClamped(c: Config, s: CameraState, ticks: seq<CameraTick>)
    requires c.bottomClamp <= c.topClamp
    requires ticks != [] || c.bottomClamp <= s.pitch <= c.topClamp
    ensures c.bottomClamp <= CameraRun(c, s, ticks).pitch <= c.topClamp
    decreases |ticks|
  {
    if ticks != [] {
      var t := ticks[0];
      var s1 := CameraStep(c, s, t.aim, t.look, t.ray, t.dt);
      PitchStaysClamped(c, s1, ticks[1..]);
    }
  }

  /** Releasing aim switches back to the normal sensitivity and hides the aim
      camera and the crosshair on the same tick, and nothing is spawned. */
  lemma ReleasingAimRestoresFreeLook(c: Config, s: CameraState, shoot: bool, look: Vec2,
                                     ray: Option<Point>, spawnPoint: Point, dt: real)
    ensures var r := CameraStep(c, s, false, look, ray, dt);
            var out := RigOutput(c, r, false, shoot, spawnPoint);
            r.sensitivity == c.normalSensitivity
            && !out.aimCameraActive && !out.crosshairActive && out.spawn == None
  {
  }
}
