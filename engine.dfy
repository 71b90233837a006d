/** The parts of the engine's character actor that the parkour code reads and
    writes: its location and facing, its capsule's collision setting, the
    control rotation of the controller that possesses it, and the jump request
    flag. Everything else about the actor is outside this model. */
module Engine {
  import opened Options
  import opened Vectors

  /** Identity of an actor in the world (what a trace may ignore or report). */
  type ActorId = nat

  /** The capsule collision settings the climb switches between. */
  datatype CollisionEnabled = NoCollision | QueryOnly | QueryAndPhysics

  /** The base locomotion state; a custom mode carries its sub-mode byte. */
  datatype MovementMode = Walking | Falling | Custom(sub: nat)

  /** The sub-mode byte the engine keeps beside the base mode: it is reset to
      zero whenever the base mode is not the custom one. */
  function CustomSubMode(m: MovementMode): (sub: nat)
    ensures !m.Custom? ==> sub == 0
    ensures m.Custom? ==> sub == m.sub
  {
    match m
    case Custom(s) => s
    case _ => 0
  }

  /** The owning character of the movement and detector components. */
  class Character {
    const id: ActorId
    var location: Vec3
    var forward: Vec3
    var hasCapsule: bool
    var collision: CollisionEnabled
    /** Control rotation of the possessing controller; None when no controller. */
    var control: Option<Rotator>
    /** Set by the engine's jump request. */
    var jumpPressed: bool

    constructor (id: ActorId, location: Vec3, forward: Vec3, control: Option<Rotator>)
      ensures this.id == id && this.location == location && this.forward == forward
      ensures this.control == control
      ensures hasCapsule && collision == QueryAndPhysics && !jumpPressed
    {
      this.id := id;
      this.location := location;
      this.forward := forward;
      this.control := control;
      hasCapsule := true;
      collision := QueryAndPhysics;
      jumpPressed := false;
    }

    /** The engine's jump request: it only raises the jump flag; the base
        movement component performs the jump on its next update. */
    method Jump()
      modifies this`jumpPressed
      ensures jumpPressed
    {
      jumpPressed := true;
    }
  }
}
