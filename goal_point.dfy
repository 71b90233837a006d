/** A goal point: a trigger volume that announces, once, that a character
    reached it, and that registers a marker for itself on the player's world
    map (once) and takes it off the map when the goal is reached. The world
    the goal asks about (the first player controller, its pawn, the pawn's
    map widget, the actor that overlapped) is passed in. */
module Goal {
  import opened Options
  import opened Vectors
  import opened Engine
  import opened WorldMap

  /** A pawn as the goal sees it: whether it is a parkour character, and the
      world map widget such a character offers (possibly none). */
  datatype Pawn = Pawn(id: ActorId, isParkour: bool, mapWidget: WorldMapWidget?)

  /** The first player controller and the pawn it possesses, if any. */
  datatype PlayerController = PlayerController(pawn: Option<Pawn>)

  /** The actor that entered the trigger volume. */
  datatype OverlapActor = OverlapActor(id: ActorId, isCharacter: bool)

  /** The cast of a pawn to a parkour character. */
  function AsParkour(p: Option<Pawn>): (r: Option<Pawn>)
    ensures r.Some? <==> p.Some? && p.value.isParkour
    ensures r.Some? ==> r == p
  {
    if p.Some? && p.value.isParkour then p else Option.None
  }

  /** The map widget of the player's parkour character, when there is one. */
  function PlayerMap(pc: Option<PlayerController>): (m: WorldMapWidget?)
    ensures m != null ==> pc.Some? && AsParkour(pc.value.pawn).Some? && m == pc.value.pawn.value.mapWidget
  {
    if pc.Some? && AsParkour(pc.value.pawn).Some? then pc.value.pawn.value.mapWidget else null
  }

  /** The objects a goal may change on the player's map. */
  function MapObjects(pc: Option<PlayerController>): set<object> {
    var m := PlayerMap(pc);
    if m == null then {}
    else if m.markerCanvas == null then {m}
    else {m, m.markerCanvas}
  }

  ghost predicate MapValid(pc: Option<PlayerController>)
    reads MapObjects(pc)
  {
    var m := PlayerMap(pc);
    m != null ==> m.Valid()
  }

  class GoalPoint {
    const id: ActorId
    /** The actor's location. */
    const location: Vec3
    /** Whether a marker widget class is configured. */
    const hasMarkerClass: bool
    var isActive: bool
    var markerAdded: bool
    var goalMarkerWidget: UserWidget?
    /** The player character last seen, when it was a parkour character. */
    var playerChar: Option<Pawn>
    /** The goal actors announced by the goal-reached event, in order. */
    var goalReached: seq<ActorId>

    constructor (id: ActorId, location: Vec3, hasMarkerClass: bool)
      ensures this.id == id && this.location == location && this.hasMarkerClass == hasMarkerClass
      ensures isActive && !markerAdded && goalMarkerWidget == null
      ensures playerChar == Option.None && goalReached == []
    {
      this.id := id;
      this.location := location;
      this.hasMarkerClass := hasMarkerClass;
      isActive := true;
      markerAdded := false;
      goalMarkerWidget := null;
      playerChar := Option.None;
      goalReached := [];
    }

    /** The location shown on the map: the actor's own location. */
    function GetGoalLocation(): (l: Vec3)
      ensures l == location
    {
      location
    }

    /** Overlap handler. The first character to arrive while the goal is
        active is announced with this goal, the goal goes inactive for good,
        and the goal's marker widget, if any, is forgotten; it is also taken
        off the player's map when the player is a parkour character with a
        map. Anything else changes nothing. */
    method OnOverlapBegin(other: Option<OverlapActor>, pc: Option<PlayerController>)
      requires MapValid(pc)
      modifies this, MapObjects(pc)
      ensures MapValid(pc)
      ensures var fires := other.Some? && other.value.isCharacter && old(isActive);
        (!fires ==> unchanged(this) && unchanged(MapObjects(pc))) &&
        (fires ==>
          goalReached == old(goalReached) + [id] && !isActive && goalMarkerWidget == null &&
          markerAdded == old(markerAdded))
      ensures var removes := other.Some? && other.value.isCharacter && old(isActive) && old(goalMarkerWidget) != null;
        (removes && pc.Some? ==> playerChar == AsParkour(pc.value.pawn)) &&
        (!(removes && pc.Some?) ==> playerChar == old(playerChar)) &&
        (removes && PlayerMap(pc) != null ==>
          var m := PlayerMap(pc);
          m.persistentMarkers == RemoveAllFor(old(m.persistentMarkers), old(goalMarkerWidget)) &&
          (forall mk :: mk in m.persistentMarkers ==> mk.widget != old(goalMarkerWidget)) &&
          m.worldBounds == old(m.worldBounds) && m.zoomLevel == old(m.zoomLevel) &&
          (m.markerCanvas != null ==>
            !m.markerCanvas.HasChild(old(goalMarkerWidget)) &&
            m.markerCanvas.children == Without<UserWidget>(old(m.markerCanvas.children), old(goalMarkerWidget)) &&
            m.markerCanvas.slots == old(m.markerCanvas.slots) - {old(goalMarkerWidget)} &&
            m.markerCanvas.localSize == old(m.markerCanvas.localSize))) &&
        (!removes ==> unchanged(MapObjects(pc)))
    {
      if other.Some? && other.value.isCharacter && isActive {
        goalReached := goalReached + [id];
        isActive := false;
        if goalMarkerWidget != null {
          if pc.Some? {
            playerChar := AsParkour(pc.value.pawn);
            if playerChar.Some? {
              var m := playerChar.value.mapWidget;
              if m != null {
                m.RemoveMarker(goalMarkerWidget);
              }
            }
          }
          goalMarkerWidget := null;
        }
      }
    }

    /** Per-frame registration. While a marker class is configured and no
        marker has been added, each frame with a player controller creates a
        new marker widget (creation may fail) and, when the player is a
        parkour character with a map, records a marker at the goal's location
        and stops trying. */
    method Tick(pc: Option<PlayerController>, createSucceeds: bool)
      requires MapValid(pc)
      modifies this, MapObjects(pc)
      ensures MapValid(pc)
      ensures isActive == old(isActive) && goalReached == old(goalReached)
      ensures var tries := hasMarkerClass && !old(markerAdded) && pc.Some?;
        (!tries ==> unchanged(this) && unchanged(MapObjects(pc))) &&
        (tries && !createSucceeds ==>
          goalMarkerWidget == null && !markerAdded && playerChar == old(playerChar) &&
          unchanged(MapObjects(pc))) &&
        (tries && createSucceeds ==>
          goalMarkerWidget != null && fresh(goalMarkerWidget) &&
          playerChar == (if pc.value.pawn.Some? then AsParkour(pc.value.pawn) else old(playerChar)) &&
          (markerAdded <==> PlayerMap(pc) != null) &&
          (PlayerMap(pc) != null ==>
            var m := PlayerMap(pc);
            m.persistentMarkers == old(m.persistentMarkers) + [WorldMapMarker(goalMarkerWidget, GetGoalLocation())] &&
            m.worldBounds == old(m.worldBounds) && m.zoomLevel == old(m.zoomLevel) &&
            (m.markerCanvas != null ==>
              m.markerCanvas.HasChild(goalMarkerWidget) &&
              m.markerCanvas.children == old(m.markerCanvas.children) + [goalMarkerWidget] &&
              m.markerCanvas.slots == old(m.markerCanvas.slots)[goalMarkerWidget := DefaultSlot] &&
              m.markerCanvas.localSize == old(m.markerCanvas.localSize))) &&
          (PlayerMap(pc) == null ==> unchanged(MapObjects(pc))))
    {
      if hasMarkerClass && !markerAdded {
        if pc.Some? {
          if createSucceeds {
            goalMarkerWidget := new UserWidget();
          } else {
            goalMarkerWidget := null;
          }
          if goalMarkerWidget != null {
            if pc.value.pawn.Some? {
              playerChar := AsParkour(pc.value.pawn);
              if playerChar.Some? {
                var m := playerChar.value.mapWidget;
                if m != null {
                  m.AddMarkerPersistent(goalMarkerWidget, GetGoalLocation());
                  markerAdded := true;
                }
              }
            }
          }
        }
      }
    }
  }
}
