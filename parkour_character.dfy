/** The player character: it owns the body, the climbable-surface detector
    and the parkour movement component, and its jump input either starts a
    ledge climb or falls back to the ordinary jump. */
module ParkourPawn {
  import opened Options
  import opened Vectors
  import opened Engine
  import opened Detector
  import opened ParkourMovement

  /** What a jump press led to. */
  datatype JumpOutcome = NoDetector | Climbed | Jumped

  class ParkourCharacter {
    /** The engine character this class extends. */
    const body: Character
    /** The detector sub-object; the code tests it for null before use. */
    const detector: ClimbableDetectorComponent?
    /** The character movement component, created as the parkour subclass. */
    const movement: ParkourMovementComponent

    /** The movement component and the detector both work on this character. */
    ghost predicate Valid()
      reads this, movement, detector
    {
      movement.owner == body && movement.Valid() &&
      (detector != null ==> detector.owner == body)
    }

    /** Creates the movement component for this character and the detector,
        and points the detector at this character. */
    constructor (id: ActorId, location: Vec3, forward: Vec3, control: Option<Rotator>)
      ensures Valid() && fresh(body) && fresh(movement)
      ensures detector != null && fresh(detector)
      ensures body.location == location && body.forward == forward && body.control == control
      ensures !movement.climbActive && movement.mode == Walking
    {
      var b := new Character(id, location, forward, control);
      var d := new ClimbableDetectorComponent();
      d.SetOwnerCharacter(b);
      body := b;
      detector := d;
      movement := new ParkourMovementComponent(b);
    }

    /** The jump input. With a detector, a detected ledge starts a climb over
        it and anything else requests an ordinary jump; without a detector the
        input is ignored. */
    method BeginJump(world: World, rotationOf: Vec3 -> Rotator) returns (outcome: JumpOutcome)
      requires Valid()
      modifies body, movement
      ensures Valid()
      ensures outcome == NoDetector <==> detector == null
      ensures detector != null ==>
        var d := old(Classify(detector.config, detector.OwnerPose(), world, DefaultSurfaceResult()));
        (outcome == Climbed <==> d.found && d.result.surfaceType == Ledge) &&
        (outcome == Climbed ==> movement.ClimbBegun(d.result, old(body.location), rotationOf))
      ensures outcome == Climbed ==> unchanged(body)
      ensures outcome != Climbed ==> unchanged(movement)
      ensures outcome == Jumped ==> body.jumpPressed
      ensures outcome != Jumped ==> body.jumpPressed == old(body.jumpPressed)
      ensures body.location == old(body.location) && body.forward == old(body.forward)
      ensures body.control == old(body.control) && body.collision == old(body.collision)
      ensures body.hasCapsule == old(body.hasCapsule)
      ensures movement.climbStartPitch == old(movement.climbStartPitch)
      ensures movement.climbTargetPitch == old(movement.climbTargetPitch)
      ensures movement.pendingPostVaultVelocity == old(movement.pendingPostVaultVelocity)
      ensures movement.shouldApplyPostVaultVelocity == old(movement.shouldApplyPostVaultVelocity)
    {
      if detector == null {
        return NoDetector;
      }
      var found, result := detector.DetectClimbableSurface(world, DefaultSurfaceResult());
      if found && result.surfaceType == Ledge {
        movement.BeginClimb(result, rotationOf);
        outcome := Climbed;
      } else {
        body.Jump();
        outcome := Jumped;
      }
    }
  }
}
