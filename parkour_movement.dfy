/** The parkour movement component: the custom movement sub-modes, the
    dispatch of the custom physics step, starting a ledge climb, and the
    per-tick climb step that moves the owning character through the three
    climb phases and hands it back to walking. */
module ParkourMovement {
  import opened Options
  import opened Vectors
  import opened Engine
  import opened ClimbPhases
  import opened Detector

  /** The engine's base value for custom movement modes (MOVE_Custom). */
  const MoveCustom: nat := 6

  /** The custom sub-modes, as offsets from the custom base. */
  const MoveClimb: nat := MoveCustom + 0
  const MoveWallRun: nat := MoveCustom + 1
  const MoveVault: nat := MoveCustom + 2

  /** Which step function a custom physics update runs. */
  datatype PhysHandler = ClimbStep | WallRunStep | VaultStep | BaseStep

  /** The dispatch of the custom physics update on the sub-mode byte. */
  function Dispatch(sub: nat): PhysHandler {
    if sub == MoveClimb then ClimbStep
    else if sub == MoveWallRun then WallRunStep
    else if sub == MoveVault then VaultStep
    else BaseStep
  }

  /** The three sub-modes are distinct consecutive values, so every handler
      is reached from exactly one sub-mode, and the climb mode set by a climb
      start dispatches to the climb step. */
  lemma DispatchUnambiguous(sub: nat)
    ensures MoveWallRun == MoveClimb + 1 && MoveVault == MoveWallRun + 1
    ensures Dispatch(sub) == ClimbStep <==> sub == MoveClimb
    ensures Dispatch(sub) == WallRunStep <==> sub == MoveWallRun
    ensures Dispatch(sub) == VaultStep <==> sub == MoveVault
    ensures Dispatch(CustomSubMode(Custom(MoveClimb))) == ClimbStep
    ensures Dispatch(CustomSubMode(Walking)) == BaseStep
  {
  }

  /** Interpolation speed of the facing turn during the approach. */
  const FacingInterpSpeed: real := 8.0
  /** Camera pitch the grab phase looks towards once a controller is seen. */
  const GrabLookPitch: real := -15.0

  /** The part of the owning character a climb tick touches. */
  datatype Body = Body(location: Vec3, hasCapsule: bool, collision: CollisionEnabled, control: Option<Rotator>)

  /** Everything a climb tick reads or writes: the phase timer, the
      waypoints, the facing, the pitch pair, the movement mode and the body. */
  datatype ClimbState = ClimbState(
    timer: ClimbTimer,
    waypoints: Waypoints,
    facing: Rotator,
    startPitch: real,
    targetPitch: real,
    mode: MovementMode,
    body: Body)

  /** The engine's rotator interpolation (current, target, frame time, speed). */
  type RInterp = (Rotator, Rotator, real, real) -> Rotator

  /** The grab point: 50 units back from the ledge top against the surface
      forward vector and 40 units down. */
  function GrabPoint(s: SurfaceResult): Vec3 {
    Add(Add(s.impactPoint, Scale(s.surfaceForward, -50.0)), Vec3(0.0, 0.0, -40.0))
  }

  /** The over-the-top point: 30 units past the ledge top and 120 units up. */
  function OverTopPoint(s: SurfaceResult): Vec3 {
    Add(Add(s.impactPoint, Scale(s.surfaceForward, 30.0)), Vec3(0.0, 0.0, 120.0))
  }

  /** The facing a climb turns to: the yaw of the surface's rotation, level. */
  function ClimbFacing(s: SurfaceResult, rotationOf: Vec3 -> Rotator): (r: Rotator)
    ensures r.pitch == 0.0 && r.roll == 0.0
    ensures r.yaw == rotationOf(s.surfaceForward).yaw
  {
    rotationOf(s.surfaceForward).(pitch := 0.0, roll := 0.0)
  }

  /** One climb tick over the whole climb state. */
  function StepClimb(s: ClimbState, dt: real, t: PhaseTimes, curve: Option<real -> real>, rinterp: RInterp): ClimbState
    requires PositiveTimes(t)
  {
    if !s.timer.active || s.timer.phase == ClimbPhase.None then
      s.(timer := Tick(s.timer, dt, t))
    else
      var p := s.timer.phase;
      var a := Alpha(s.timer.elapsed + dt, Duration(t, p));
      var ca := CurveAlpha(curve, a);
      var done := a >= 1.0;
      // the approach turns the controller towards the ledge
      var control1 :=
        if p == Approach && s.body.control.Some?
        then Some(rinterp(s.body.control.value, s.facing, dt, FacingInterpSpeed))
        else s.body.control;
      // the grab lifts the camera pitch from the start pitch to the target pitch
      var control2 :=
        if p == Grab && control1.Some?
        then Some(control1.value.(pitch := Lerp1(s.startPitch, s.targetPitch, ca)))
        else control1;
      var collision :=
        if !s.body.hasCapsule then s.body.collision
        else if done && p == PullUp then QueryAndPhysics
        else NoCollision;
      var captured := done && p == Approach && control2.Some?;
      ClimbState(
        Tick(s.timer, dt, t),
        s.waypoints,
        s.facing,
        if captured then control2.value.pitch else s.startPitch,
        if captured then GrabLookPitch else s.targetPitch,
        if done && p == PullUp then Walking else s.mode,
        Body(Lerp(PhaseStart(s.waypoints, p), PhaseEnd(s.waypoints, p), ca), s.body.hasCapsule, collision, control2))
  }

  /** The climb state advances exactly as the phase timer does; the waypoints,
      the facing and whether there is a capsule or a controller never change. */
  lemma StepClimbFollowsTimer(s: ClimbState, dt: real, t: PhaseTimes, curve: Option<real -> real>, rinterp: RInterp)
    requires PositiveTimes(t)
    ensures var r := StepClimb(s, dt, t, curve, rinterp);
      r.timer == Tick(s.timer, dt, t) && r.waypoints == s.waypoints && r.facing == s.facing &&
      r.body.hasCapsule == s.body.hasCapsule && r.body.control.Some? == s.body.control.Some?
  {
  }

  /** A tick with no running climb, or with no phase set, changes nothing but
      the timer. */
  lemma StepClimbIdle(s: ClimbState, dt: real, t: PhaseTimes, curve: Option<real -> real>, rinterp: RInterp)
    requires PositiveTimes(t)
    requires !s.timer.active || s.timer.phase == ClimbPhase.None
    ensures StepClimb(s, dt, t, curve, rinterp) == s.(timer := Tick(s.timer, dt, t))
    ensures !s.timer.active ==> StepClimb(s, dt, t, curve, rinterp) == s
  {
  }

  /** During a running phase the capsule does not collide; on the tick that
      completes PullUp the climb ends, movement returns to walking and full
      collision is restored. Only that tick ends a climb. */
  lemma StepClimbCollisionAndTeardown(s: ClimbState, dt: real, t: PhaseTimes, curve: Option<real -> real>, rinterp: RInterp)
    requires PositiveTimes(t) && WellFormed(s.timer, t) && s.timer.active
    ensures var r := StepClimb(s, dt, t, curve, rinterp);
      var ends := s.timer.phase == PullUp && s.timer.elapsed + dt >= Duration(t, PullUp);
      (!r.timer.active <==> ends) &&
      (ends ==> r.mode == Walking && r.timer.phase == ClimbPhase.None) &&
      (!ends ==> r.mode == s.mode) &&
      (s.body.hasCapsule ==> r.body.collision == if ends then QueryAndPhysics else NoCollision)
  {
  }

  /** Without a progress curve the character is placed on the straight
      segment of the current phase, and on the tick where the phase completes
      it lands exactly on the phase's end point, which is where the next
      phase starts. */
  lemma StepClimbReachesPhaseEnd(s: ClimbState, dt: real, t: PhaseTimes, rinterp: RInterp)
    requires PositiveTimes(t) && WellFormed(s.timer, t) && s.timer.active
    requires s.timer.elapsed + dt >= Duration(t, s.timer.phase)
    ensures var r := StepClimb(s, dt, t, Options.None, rinterp);
      r.body.location == PhaseEnd(s.waypoints, s.timer.phase) &&
      (r.timer.active ==> r.body.location == PhaseStart(s.waypoints, r.timer.phase)) &&
      (!r.timer.active ==> r.body.location == s.waypoints.target)
  {
    WaypointsContinuous(s.waypoints);
  }

  /** Leaving the approach with a controller records the current camera pitch
      as the grab's start pitch and aims the grab at -15 degrees; during the
      grab the camera pitch runs between those two values. */
  lemma StepClimbGrabPitch(s: ClimbState, dt: real, t: PhaseTimes, curve: Option<real -> real>, rinterp: RInterp)
    requires PositiveTimes(t) && WellFormed(s.timer, t) && s.timer.active && s.body.control.Some?
    ensures var r := StepClimb(s, dt, t, curve, rinterp);
      (s.timer.phase == Approach && r.timer.phase == Grab ==>
        r.targetPitch == GrabLookPitch && r.startPitch == r.body.control.value.pitch) &&
      (s.timer.phase == Grab ==>
        r.body.control.value.pitch ==
          Lerp1(s.startPitch, s.targetPitch, CurveAlpha(curve, Alpha(s.timer.elapsed + dt, t.grab)))) &&
      (s.timer.phase != Approach ==> r.startPitch == s.startPitch && r.targetPitch == s.targetPitch)
  {
  }

  class ParkourMovementComponent {
    /** The character that owns this component; null before registration. */
    const owner: Character?

    var waypoints: Waypoints
    var facing: Rotator
    var climbElapsed: real
    var climbActive: bool
    var climbStartPitch: real
    var climbPhase: ClimbPhase
    var climbTargetPitch: real
    var mode: MovementMode

    /** Editor configuration: the progress curve and the phase durations. */
    const progressCurve: Option<real -> real>
    const approachTime: real
    const grabTime: real
    const pullUpTime: real

    /** Vault hand-off state (only its defaults are part of this model). */
    var pendingPostVaultVelocity: Vec3
    var shouldApplyPostVaultVelocity: bool

    function Times(): PhaseTimes {
      PhaseTimes(approachTime, grabTime, pullUpTime)
    }

    function Timer(): ClimbTimer reads this {
      ClimbTimer(climbPhase, climbElapsed, climbActive)
    }

    ghost predicate Valid() reads this {
      PositiveTimes(Times()) && WellFormed(Timer(), Times())
    }

    /** The climb state together with the owner's body. */
    function State(): ClimbState
      reads this, owner
      requires owner != null
    {
      ClimbState(Timer(), waypoints, facing, climbStartPitch, climbTargetPitch, mode,
        Body(owner.location, owner.hasCapsule, owner.collision, owner.control))
    }

    constructor (owner: Character?)
      ensures this.owner == owner && Valid()
      ensures climbPhase == ClimbPhase.None && !climbActive && climbElapsed == 0.0
      ensures Times() == DefaultPhaseTimes() && progressCurve == Option.None
      ensures climbTargetPitch == 20.0 && climbStartPitch == 0.0
      ensures pendingPostVaultVelocity == Zero && !shouldApplyPostVaultVelocity
      ensures mode == Walking
    {
      this.owner := owner;
      waypoints := Waypoints(Zero, Zero, Zero);
      facing := Rotator(0.0, 0.0, 0.0);
      climbElapsed := 0.0;
      climbActive := false;
      climbStartPitch := 0.0;
      climbPhase := ClimbPhase.None;
      climbTargetPitch := 20.0;
      mode := Walking;
      progressCurve := Option.None;
      approachTime := 0.25;
      grabTime := 0.25;
      pullUpTime := 0.5;
      pendingPostVaultVelocity := Zero;
      shouldApplyPostVaultVelocity := false;
    }

    /** The state a climb start leaves: phase Approach with no time spent,
        running, in the custom climb mode, waypoints from the current
        location and the ledge, and a level facing towards the surface. */
    ghost predicate ClimbBegun(surface: SurfaceResult, from: Vec3, rotationOf: Vec3 -> Rotator)
      reads this
    {
      climbPhase == Approach && climbElapsed == 0.0 && climbActive &&
      mode == Custom(MoveClimb) &&
      waypoints == Waypoints(from, GrabPoint(surface), OverTopPoint(surface)) &&
      facing == ClimbFacing(surface, rotationOf)
    }

    /** Starts a climb over the given surface. Without an owner it does
        nothing; otherwise any climb in progress is replaced. The surface
        type is not checked. */
    method BeginClimb(surface: SurfaceResult, rotationOf: Vec3 -> Rotator)
      requires Valid()
      modifies this
      ensures Valid()
      ensures owner == null ==> unchanged(this)
      ensures owner != null ==> ClimbBegun(surface, owner.location, rotationOf)
      ensures climbStartPitch == old(climbStartPitch) && climbTargetPitch == old(climbTargetPitch)
      ensures pendingPostVaultVelocity == old(pendingPostVaultVelocity)
      ensures shouldApplyPostVaultVelocity == old(shouldApplyPostVaultVelocity)
    {
      if owner == null {
        return;
      }
      climbPhase := Approach;
      climbElapsed := 0.0;
      climbActive := true;
      var start := owner.location;
      var mid := Add(Add(surface.impactPoint, Scale(surface.surfaceForward, -50.0)), Vec3(0.0, 0.0, -40.0));
      var target := Add(Add(surface.impactPoint, Scale(surface.surfaceForward, 30.0)), Vec3(0.0, 0.0, 120.0));
      waypoints := Waypoints(start, mid, target);
      mode := Custom(MoveClimb);
      var rot := rotationOf(surface.surfaceForward);
      rot := rot.(pitch := 0.0);
      rot := rot.(roll := 0.0);
      facing := rot;
    }

    /** One climb tick: the owner's body and the climb fields move exactly as
        StepClimb says; without an owner nothing changes. */
    method PhysClimb(dt: real, rinterp: RInterp)
      requires Valid()
      modifies this, owner
      ensures Valid()
      ensures owner == null ==> unchanged(this)
      ensures owner != null ==>
        State() == StepClimb(old(State()), dt, Times(), progressCurve, rinterp) &&
        owner.forward == old(owner.forward) && owner.jumpPressed == old(owner.jumpPressed)
      ensures pendingPostVaultVelocity == old(pendingPostVaultVelocity)
      ensures shouldApplyPostVaultVelocity == old(shouldApplyPostVaultVelocity)
    {
      if !climbActive || owner == null {
        return;
      }
      ghost var before := State();
      climbElapsed := climbElapsed + dt;
      if climbPhase == ClimbPhase.None {
        return;
      }
      var alpha := MoveAlongPhase(dt, rinterp);
      CompletePhase(alpha >= 1.0);
      assert Timer() == Tick(before.timer, dt, Times());
    }

    /** The middle of a climb tick, once the elapsed time has been
        advanced: turn the controller towards the ledge during the approach,
        switch the capsule's collision off, place the character on the
        phase's segment at the (curved) progress, and lift the camera pitch
        during the grab. Returns the phase progress. */
    method MoveAlongPhase(dt: real, rinterp: RInterp) returns (alpha: real)
      requires owner != null && climbPhase != ClimbPhase.None && PositiveTimes(Times())
      modifies owner`control, owner`collision, owner`location
      ensures alpha == Alpha(climbElapsed, Duration(Times(), climbPhase))
      ensures owner.location ==
        Lerp(PhaseStart(waypoints, climbPhase), PhaseEnd(waypoints, climbPhase), CurveAlpha(progressCurve, alpha))
      ensures owner.collision == if owner.hasCapsule then NoCollision else old(owner.collision)
      ensures var control1 :=
          if climbPhase == Approach && old(owner.control).Some?
          then Some(rinterp(old(owner.control).value, facing, dt, FacingInterpSpeed))
          else old(owner.control);
        owner.control ==
          if climbPhase == Grab && control1.Some?
          then Some(control1.value.(pitch := Lerp1(climbStartPitch, climbTargetPitch, CurveAlpha(progressCurve, alpha))))
          else control1
    {
      var duration, phaseStart, phaseEnd;
      match climbPhase {
        case Approach =>
          duration, phaseStart, phaseEnd := approachTime, waypoints.start, waypoints.mid;
        case Grab =>
          duration, phaseStart := grabTime, waypoints.mid;
          phaseEnd := Vec3(waypoints.mid.x, waypoints.mid.y, waypoints.target.z);
        case PullUp =>
          duration := pullUpTime;
          phaseStart := Vec3(waypoints.mid.x, waypoints.mid.y, waypoints.target.z);
          phaseEnd := waypoints.target;
      }
      if climbPhase == Approach && owner.control.Some? {
        owner.control := Some(rinterp(owner.control.value, facing, dt, FacingInterpSpeed));
      }
      if owner.hasCapsule {
        owner.collision := NoCollision;
      }
      alpha := Clamp(climbElapsed / duration, 0.0, 1.0);
      var curveAlpha := if progressCurve.Some? then progressCurve.value(alpha) else alpha;
      var newLocation := Lerp(phaseStart, phaseEnd, curveAlpha);
      if climbPhase == Grab && owner.control.Some? {
        var pitch := Lerp1(climbStartPitch, climbTargetPitch, curveAlpha);
        owner.control := Some(owner.control.value.(pitch := pitch));
      }
      // the collision-aware move: the capsule no longer collides, so the
      // requested displacement is applied in full
      var deltaMove := Sub(newLocation, owner.location);
      owner.location := Add(owner.location, deltaMove);
    }

    /** The end of a climb tick: once the phase's progress has reached 1,
        reset the elapsed time and move to the next phase; leaving the
        approach records the camera pitch for the grab, and leaving the
        pull-up ends the climb. */
    method CompletePhase(done: bool)
      requires owner != null && climbActive && climbPhase != ClimbPhase.None
      modifies this, owner`collision
      ensures done ==>
        climbElapsed == 0.0 && climbPhase == Next(old(climbPhase)) && climbActive == (old(climbPhase) != PullUp)
      ensures !done ==> climbElapsed == old(climbElapsed) && climbPhase == old(climbPhase) && climbActive
      ensures done && old(climbPhase) == Approach && owner.control.Some? ==>
        climbStartPitch == owner.control.value.pitch && climbTargetPitch == GrabLookPitch
      ensures !(done && old(climbPhase) == Approach && owner.control.Some?) ==>
        climbStartPitch == old(climbStartPitch) && climbTargetPitch == old(climbTargetPitch)
      ensures mode == if done && old(climbPhase) == PullUp then Walking else old(mode)
      ensures owner.collision ==
        if done && old(climbPhase) == PullUp && owner.hasCapsule then QueryAndPhysics else old(owner.collision)
      ensures waypoints == old(waypoints) && facing == old(facing)
      ensures pendingPostVaultVelocity == old(pendingPostVaultVelocity)
      ensures shouldApplyPostVaultVelocity == old(shouldApplyPostVaultVelocity)
    {
      if done {
        climbElapsed := 0.0;
        match climbPhase {
          case Approach =>
            climbPhase := Grab;
            if owner.control.Some? {
              climbStartPitch := owner.control.value.pitch;
              climbTargetPitch := GrabLookPitch;
            }
          case Grab =>
            climbPhase := PullUp;
          case PullUp =>
            climbActive := false;
            climbPhase := ClimbPhase.None;
            mode := Walking;
            if owner.hasCapsule {
              owner.collision := QueryAndPhysics;
            }
        }
      }
    }

    /** The custom physics update: runs the step of the current custom
        sub-mode. The wall-run and vault steps are empty, and any other
        sub-mode goes to the engine's base step, which this model leaves out. */
    method PhysCustom(dt: real, rinterp: RInterp) returns (handler: PhysHandler)
      requires Valid()
      modifies this, owner
      ensures Valid()
      ensures handler == Dispatch(CustomSubMode(old(mode)))
      ensures handler != ClimbStep ==> unchanged(this) && (owner != null ==> unchanged(owner))
      ensures handler == ClimbStep && owner == null ==> unchanged(this)
      ensures handler == ClimbStep && owner != null ==>
        State() == StepClimb(old(State()), dt, Times(), progressCurve, rinterp)
      ensures owner != null ==> owner.forward == old(owner.forward) && owner.jumpPressed == old(owner.jumpPressed)
      ensures pendingPostVaultVelocity == old(pendingPostVaultVelocity)
      ensures shouldApplyPostVaultVelocity == old(shouldApplyPostVaultVelocity)
    {
      handler := Dispatch(CustomSubMode(mode));
      match handler {
        case ClimbStep => PhysClimb(dt, rinterp);
        case WallRunStep =>
        case VaultStep =>
        case BaseStep =>
      }
    }
  }
}
