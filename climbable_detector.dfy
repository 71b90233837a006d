/** The ledge detector: two line traces from the owner's pose (forward, then
    down onto the ledge top) and a height band decide whether the character
    faces a climbable ledge. The traces are the engine's; here they are a
    world oracle that answers a probe with a hit or a miss. */
module Detector {
  import opened Options
  import opened Vectors
  import opened Engine

  /** The surface classes, in declaration order; only Ledge is produced. */
  datatype SurfaceType = None | Vaultable | Ledge | Wall | Climbable | WallRunLeft | WallRunRight

  function SurfaceTypeOrdinal(t: SurfaceType): (n: nat)
    ensures n < 7
    ensures n == 0 <==> t == SurfaceType.None
  {
    match t
    case None => 0
    case Vaultable => 1
    case Ledge => 2
    case Wall => 3
    case Climbable => 4
    case WallRunLeft => 5
    case WallRunRight => 6
  }

  /** The seven surface types have seven distinct values. */
  lemma SurfaceTypesDistinct()
    ensures forall a, b :: SurfaceTypeOrdinal(a) == SurfaceTypeOrdinal(b) ==> a == b
  {
  }

  /** What a detection reports about the surface ahead. */
  datatype SurfaceResult = SurfaceResult(
    isValid: bool,
    impactPoint: Vec3,
    impactNormal: Vec3,
    surfaceForward: Vec3,
    surfaceType: SurfaceType,
    surfaceHeight: real,
    hitActor: Option<ActorId>,
    headBlocked: bool)

  /** A freshly declared result: invalid, of no type, zero height, no actor,
      head not blocked (the vectors are taken as zero). */
  function DefaultSurfaceResult(): (r: SurfaceResult)
    ensures !r.isValid && r.surfaceType == SurfaceType.None && r.surfaceHeight == 0.0
    ensures r.hitActor == Option.None && !r.headBlocked
  {
    SurfaceResult(false, Zero, Zero, Zero, SurfaceType.None, 0.0, Option.None, false)
  }

  /** The detector's configuration. */
  datatype DetectorConfig = DetectorConfig(
    forwardTraceDistance: real,
    verticalTraceHeight: real,
    upTraceHeight: real,
    minLedgeHeight: real,
    maxLedgeHeight: real,
    vaultForwardTraceDistance: real,
    vaultObstacleHeightMin: real,
    vaultObstacleHeightMax: real,
    vaultObstacleDistance: real)

  /** The declared defaults: a 150-unit forward trace from half of a 100-unit
      vertical trace height, and ledge and vault bands that are not empty. */
  function DefaultConfig(): (c: DetectorConfig)
    ensures c.forwardTraceDistance == 150.0 && c.verticalTraceHeight == 100.0
    ensures 0.0 < c.minLedgeHeight <= c.maxLedgeHeight
    ensures c.minLedgeHeight == 40.0 && c.maxLedgeHeight == 140.0
    ensures 0.0 < c.vaultObstacleHeightMin <= c.vaultObstacleHeightMax
    ensures c.vaultObstacleHeightMin == 40.0 && c.vaultObstacleHeightMax == 100.0
  {
    DetectorConfig(150.0, 100.0, 100.0, 40.0, 140.0, 150.0, 40.0, 100.0, 100.0)
  }

  /** A line trace request: from start to end, ignoring one actor. */
  datatype Probe = Probe(start: Vec3, end: Vec3, ignored: ActorId)

  /** A blocking hit reported by a trace. */
  datatype Hit = Hit(impactPoint: Vec3, impactNormal: Vec3, actor: Option<ActorId>)

  /** The world as the detector sees it: each probe hits or misses. */
  type World = Probe -> Option<Hit>

  /** Where the owner stands and faces. */
  datatype Pose = Pose(id: ActorId, location: Vec3, forward: Vec3)

  /** The forward trace: from half the vertical trace height above the actor,
      along its forward vector for the forward trace distance, ignoring it. */
  function ForwardProbe(c: DetectorConfig, pose: Pose): (p: Probe)
    ensures p.ignored == pose.id
    ensures p.start == Add(pose.location, Vec3(0.0, 0.0, c.verticalTraceHeight * 0.5))
    ensures Sub(p.end, p.start) == Scale(pose.forward, c.forwardTraceDistance)
  {
    var start := Add(pose.location, Vec3(0.0, 0.0, c.verticalTraceHeight * 0.5));
    Probe(start, Add(start, Scale(pose.forward, c.forwardTraceDistance)), pose.id)
  }

  /** The ledge-top trace: 20 units behind the forward hit (against its
      normal), straight down from the maximum to the minimum ledge height
      above that point. */
  function LedgeTopProbe(c: DetectorConfig, hit: Hit, self: ActorId): (p: Probe)
    ensures var base := Sub(hit.impactPoint, Scale(hit.impactNormal, 20.0));
      p.start == Vec3(base.x, base.y, base.z + c.maxLedgeHeight) &&
      p.end == Vec3(base.x, base.y, base.z + c.minLedgeHeight) &&
      p.ignored == self
  {
    var base := Sub(hit.impactPoint, Scale(hit.impactNormal, 20.0));
    Probe(Add(base, Vec3(0.0, 0.0, c.maxLedgeHeight)), Add(base, Vec3(0.0, 0.0, c.minLedgeHeight)), self)
  }

  /** The outcome of a detection: whether it succeeded and the result record
      as the caller sees it afterwards. */
  datatype Detection = Detection(found: bool, result: SurfaceResult)

  /** The detection decision. It fails on a missing owner, a missed forward
      trace, a missed ledge-top trace, or a ledge height (ledge top above the
      actor location) outside the inclusive band; a failure leaves the
      caller's record as it was. A success reports a valid Ledge at the
      ledge top, with the forward hit's normal and actor, the reversed normal
      as the surface forward, and the height; the head flag is not written. */
  function Classify(c: DetectorConfig, owner: Option<Pose>, world: World, prior: SurfaceResult): (d: Detection)
    ensures !d.found ==> d.result == prior
    ensures d.found ==> owner.Some?
    ensures d.found ==>
      d.result.isValid && d.result.surfaceType == Ledge &&
      c.minLedgeHeight <= d.result.surfaceHeight <= c.maxLedgeHeight &&
      d.result.surfaceForward == Neg(d.result.impactNormal) &&
      d.result.headBlocked == prior.headBlocked
  {
    match owner
    case None => Detection(false, prior)
    case Some(pose) =>
      match world(ForwardProbe(c, pose))
      case None => Detection(false, prior)
      case Some(forwardHit) =>
        match world(LedgeTopProbe(c, forwardHit, pose.id))
        case None => Detection(false, prior)
        case Some(ledgeHit) =>
          var height := ledgeHit.impactPoint.z - pose.location.z;
          if height < c.minLedgeHeight || height > c.maxLedgeHeight then
            Detection(false, prior)
          else
            Detection(true, prior.(
              isValid := true,
              impactPoint := ledgeHit.impactPoint,
              impactNormal := forwardHit.impactNormal,
              surfaceForward := Neg(forwardHit.impactNormal),
              hitActor := forwardHit.actor,
              surfaceHeight := height,
              surfaceType := Ledge))
  }

  /** Detection succeeds exactly when there is an owner, both traces hit and
      the ledge height lies in the band, both ends included; the reported
      point and height are those of the ledge-top hit. */
  lemma ClassifySucceedsIff(c: DetectorConfig, pose: Pose, world: World, prior: SurfaceResult)
    ensures var d := Classify(c, Some(pose), world, prior);
      var fwd := world(ForwardProbe(c, pose));
      d.found <==>
        (fwd.Some? &&
         var top := world(LedgeTopProbe(c, fwd.value, pose.id));
         top.Some? &&
         c.minLedgeHeight <= top.value.impactPoint.z - pose.location.z <= c.maxLedgeHeight)
    ensures var d := Classify(c, Some(pose), world, prior);
      var fwd := world(ForwardProbe(c, pose));
      d.found ==>
        var top := world(LedgeTopProbe(c, fwd.value, pose.id));
        d.result.impactPoint == top.value.impactPoint &&
        d.result.impactNormal == fwd.value.impactNormal &&
        d.result.hitActor == fwd.value.actor &&
        d.result.surfaceHeight == top.value.impactPoint.z - pose.location.z
    ensures Classify(c, Options.None, world, prior) == Detection(false, prior)
  {
  }

  /** A world whose traces report hits only on the traced segment (by height). */
  ghost predicate HitsOnSegment(world: World) {
    forall p :: world(p).Some? ==>
      (p.start.z <= world(p).value.impactPoint.z <= p.end.z ||
       p.end.z <= world(p).value.impactPoint.z <= p.start.z)
  }

  /** The ledge-top window is measured from the forward hit, the height band
      from the actor. With a level forward vector and a vertical wall, the
      forward hit is half the vertical trace height above the actor, so the
      heights that can be detected are those in
      [minLedgeHeight + verticalTraceHeight / 2, maxLedgeHeight]: any lower
      ledge inside the band is never reported. */
  lemma LevelDetectionWindow(c: DetectorConfig, pose: Pose, world: World, prior: SurfaceResult)
    requires HitsOnSegment(world)
    requires pose.forward.z == 0.0
    requires var fwd := world(ForwardProbe(c, pose)); fwd.Some? ==> fwd.value.impactNormal.z == 0.0
    requires c.minLedgeHeight <= c.maxLedgeHeight
    ensures var d := Classify(c, Some(pose), world, prior);
      d.found ==> c.minLedgeHeight + c.verticalTraceHeight * 0.5 <= d.result.surfaceHeight <= c.maxLedgeHeight
  {
  }

  /** With the default configuration and a level pose, a ledge 80 units
      above the actor is never detected: the ledge-top trace starts 90
      units above it. */
  lemma DefaultLedgeAt80NotDetected(pose: Pose, world: World, prior: SurfaceResult)
    requires HitsOnSegment(world)
    requires pose.forward.z == 0.0
    requires var fwd := world(ForwardProbe(DefaultConfig(), pose)); fwd.Some? ==> fwd.value.impactNormal.z == 0.0
    ensures var d := Classify(DefaultConfig(), Some(pose), world, prior);
      d.found ==> d.result.surfaceHeight >= 90.0
  {
    LevelDetectionWindow(DefaultConfig(), pose, world, prior);
  }

  class ClimbableDetectorComponent {
    const config: DetectorConfig
    var owner: Character?

    constructor ()
      ensures owner == null && config == DefaultConfig()
    {
      owner := null;
      config := DefaultConfig();
    }

    /** The owner's pose, if there is an owner. */
    function OwnerPose(): Option<Pose>
      reads this, owner
    {
      if owner == null then Option.None else Some(Pose(owner.id, owner.location, owner.forward))
    }

    /** Sets the owning character; a null character keeps the previous one. */
    method SetOwnerCharacter(character: Character?)
      modifies this`owner
      ensures owner == if character != null then character else old(owner)
    {
      if character != null {
        owner := character;
      }
    }

    /** Looks for a climbable ledge ahead of the owner. The result record is
        an in-out parameter: `result` is what the caller holds afterwards. */
    method DetectClimbableSurface(world: World, outResult: SurfaceResult) returns (found: bool, result: SurfaceResult)
      ensures Detection(found, result) == Classify(config, OwnerPose(), world, outResult)
      ensures !found ==> result == outResult
      ensures found ==>
        owner != null && result.isValid && result.surfaceType == Ledge &&
        config.minLedgeHeight <= result.surfaceHeight <= config.maxLedgeHeight
    {
      result := outResult;
      if owner == null {
        return false, result;
      }
      var forwardHit := world(ForwardProbe(config, Pose(owner.id, owner.location, owner.forward)));
      if forwardHit.None? {
        return false, result;
      }
      var ledgeTop := world(LedgeTopProbe(config, forwardHit.value, owner.id));
      if ledgeTop.None? {
        return false, result;
      }
      var height := ledgeTop.value.impactPoint.z - owner.location.z;
      if height < config.minLedgeHeight || height > config.maxLedgeHeight {
        return false, result;
      }
      result := result.(isValid := true);
      result := result.(impactPoint := ledgeTop.value.impactPoint);
      result := result.(impactNormal := forwardHit.value.impactNormal);
      result := result.(surfaceForward := Neg(forwardHit.value.impactNormal));
      result := result.(hitActor := forwardHit.value.actor);
      result := result.(surfaceHeight := height);
      result := result.(surfaceType := Ledge);
      found := true;
    }
  }
}
