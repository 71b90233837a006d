# KiwiJam2025 parkour core in Dafny

This project models the gameplay core of KiwiJam2025, a first-person parkour
game built on Unreal Engine. The model covers four parts:

- **Ledge detection.** `UClimbableDetectorComponent` fires a forward line
  trace from the owner, then a downward trace onto the ledge top. It accepts
  the ledge when its height above the actor lies in a band.
- **The three-phase ledge climb.** `UParkourMovementComponent` runs a custom
  movement mode. The character moves along waypoints through the phases
  Approach, Grab and PullUp, with the capsule's collision off, the camera
  pitch interpolated, and a hand-back to walking at the end.
- **The jump input.** `AParkourCharacter::BeginJump` starts a climb when a
  ledge is detected and jumps otherwise.
- **Map and goal bookkeeping.** `UWorldMapWidget` keeps a persistent list of
  markers and shows them on a canvas. `AGoalPoint` fires its goal-reached
  event once, registers one marker on the map and removes it when the goal
  is reached.

Files:

- `vectors.dfy`: the optional type and the engine's vector and rotator values over exact reals, with clamp and lerp.
- `engine.dfy`: the parts of the engine character the core touches.
- `climb_phases.dfy`: the phase enum, durations, waypoints and the phase timer one tick advances.
- `climbable_detector.dfy`: the surface result, the configuration, the two traces as probes of a world oracle, the pure detection decision `Classify`, and the component class.
- `parkour_movement.dfy`: the custom-mode dispatch, the pure climb step `StepClimb`, and the component class whose methods are proved against it.
- `parkour_character.dfy`: the character that wires the detector and movement component together, and its jump input.
- `world_map.dfy`: the map widget, the engine canvas panel it drives, and the world-to-map mapping.
- `goal_point.dfy`: the goal actor.

The engine's world is passed in as data. A line trace is a function from a
probe (start, end, ignored actor) to an optional hit. `FRotator` interpolation,
`FVector::Rotation` and the progress curve are function parameters. The first
player controller, its pawn and the map widget a parkour pawn offers are
values the goal point's methods receive.

The model follows the code on these behaviours:

- A climb start does not touch collision. Every running climb tick switches it off, and the tick that ends PullUp switches it back on.
- Ledge height is measured from the actor location (the capsule centre).
- The ledge-top trace window is measured from the forward hit. With a level pose, a vertical wall and hits that lie on the traced segments, the forward hit lies half the vertical trace height above the actor, so with the default configuration only ledges 90 to 140 units up are found. On a sloped face the downward trace starts 20 units behind the hit along its normal, so the window shifts by up to 20 units. A ledge 80 units up is not (`Detector.DefaultLedgeAt80NotDetected`).
- The head-blocked flag of the result is never written. A detection keeps the caller's value.
- A climb that is running with no phase set still accumulates elapsed time each tick.

## Model

| member | source | states |
|---|---|---|
| ClimbPhases.OrdinalDeclarationOrder | Source/KiwiJam2025/Public/Character/ParkourMovementComponent.h:13-19 | The phases are declared None, Approach, Grab, PullUp, with distinct values |
| ClimbPhases.DefaultPhaseTimes | Source/KiwiJam2025/Public/Character/ParkourMovementComponent.h:79-86 | Default durations are positive and total one second (0.25, 0.25, 0.5) |
| ClimbPhases.WaypointsContinuous | Source/KiwiJam2025/Private/Character/ParkourMovementComponent.cpp:76-90 | Each phase starts where the previous ends (grab point, then the hold point at target height), from the start location to the target |
| ClimbPhases.Alpha | Source/KiwiJam2025/Private/Character/ParkourMovementComponent.cpp:112 | Progress lies in [0,1], equals 1 exactly when the duration has elapsed, and is elapsed/duration before that |
| ClimbPhases.Tick | Source/KiwiJam2025/Private/Character/ParkourMovementComponent.cpp:133-165 | A tick keeps the timer invariant and leaves an idle timer alone; a running phase advances to the next one exactly when elapsed plus the frame time reaches its duration, with the clock reset, and otherwise stays with the frame time added; only leaving PullUp ends a climb |
| ClimbPhases.RunInactiveUnchanged | Source/KiwiJam2025/Private/Character/ParkourMovementComponent.cpp:67 | After a climb ends, any number of further ticks changes nothing |
| ClimbPhases.RunNeverSkips | Source/KiwiJam2025/Private/Character/ParkourMovementComponent.cpp:137-161 | Over n ticks the phase never goes back and advances by at most n steps |
| ClimbPhases.RunWellFormed | Source/KiwiJam2025/Private/Character/ParkourMovementComponent.cpp:133-165 | The timer invariant (running iff a phase is set; elapsed below the phase duration) holds after any tick sequence |
| ClimbPhases.RunVisitsEveryPhase | Source/KiwiJam2025/Private/Character/ParkourMovementComponent.cpp:137-161 | Every phase between the first and last reached is the phase after some prefix of the ticks |
| ClimbPhases.TickMakesProgress | Source/KiwiJam2025/Private/Character/ParkourMovementComponent.cpp:133-135 | A running tick either advances the phase or leaves strictly fewer ticks in it |
| ClimbPhases.ClimbTerminates | Source/KiwiJam2025/Private/Character/ParkourMovementComponent.cpp:65-167 | With any fixed positive frame time, a well-formed climb ends after finitely many ticks |
| Detector.SurfaceTypesDistinct | Source/KiwiJam2025/Public/Character/ClimbableDetectorComponent.h:11-20 | The seven surface types are distinct, with None first |
| Detector.DefaultSurfaceResult | Source/KiwiJam2025/Public/Character/ClimbableDetectorComponent.h:27-49 | A new result is invalid, of type None, at height 0, with no actor and the head not blocked |
| Detector.DefaultConfig | Source/KiwiJam2025/Public/Character/ClimbableDetectorComponent.h:70-103 | Default trace distance 150 and height 100; ledge band [40,140] and vault band [40,100] are non-empty |
| Detector.ForwardProbe | Source/KiwiJam2025/Private/Character/ClimbableDetectorComponent.cpp:101-115 | The forward trace starts half the vertical trace height above the actor, runs the forward distance along its forward vector, and ignores the owner |
| Detector.LedgeTopProbe | Source/KiwiJam2025/Private/Character/ClimbableDetectorComponent.cpp:117-136 | The ledge-top trace runs down from max to min ledge height above the point 20 units behind the forward hit |
| Detector.Classify | Source/KiwiJam2025/Private/Character/ClimbableDetectorComponent.cpp:25-88 | Failure leaves the caller's record untouched; success needs an owner and yields a valid Ledge in the band, facing against the wall normal, with the head flag kept |
| Detector.ClassifySucceedsIff | Source/KiwiJam2025/Private/Character/ClimbableDetectorComponent.cpp:27-65 | Detection succeeds iff there is an owner, both traces hit and the height is in the inclusive band; it reports the ledge-top point, the wall normal and actor, and the height |
| Detector.LevelDetectionWindow | Source/KiwiJam2025/Private/Character/ClimbableDetectorComponent.cpp:43-57 | For a level pose and vertical wall, detected heights lie in [min + verticalTraceHeight/2, max] |
| Detector.DefaultLedgeAt80NotDetected | Source/KiwiJam2025/Private/Character/ClimbableDetectorComponent.cpp:43-57 | With the defaults, a level pose, a vertical wall and hits on the traced segments, no ledge below 90 units is reported |
| Detector.ClimbableDetectorComponent.constructor | Source/KiwiJam2025/Public/Character/ClimbableDetectorComponent.h:70-103 | A new detector has no owner and the default configuration |
| Detector.ClimbableDetectorComponent.SetOwnerCharacter | Source/KiwiJam2025/Private/Character/ClimbableDetectorComponent.cpp:17-23 | A non-null character becomes the owner; null keeps the previous owner |
| Detector.ClimbableDetectorComponent.DetectClimbableSurface | Source/KiwiJam2025/Private/Character/ClimbableDetectorComponent.cpp:25-89 | The field-by-field writes give exactly `Classify`'s decision and record |
| ParkourMovement.DispatchUnambiguous | Source/KiwiJam2025/Private/Character/ParkourMovementComponent.cpp:14-31 | Climb, wall-run and vault are consecutive custom sub-modes; each handler is reached from exactly its own sub-mode, and a non-custom mode reaches the base step |
| ParkourMovement.ClimbFacing | Source/KiwiJam2025/Private/Character/ParkourMovementComponent.cpp:52-54 | The climb facing has the surface's yaw with pitch and roll zeroed |
| ParkourMovement.StepClimbFollowsTimer | Source/KiwiJam2025/Private/Character/ParkourMovementComponent.cpp:65-167 | A climb tick advances the phase timer exactly as `Tick` does and never changes waypoints, facing, capsule or controller presence |
| ParkourMovement.StepClimbIdle | Source/KiwiJam2025/Private/Character/ParkourMovementComponent.cpp:67-93 | With no climb running nothing changes; with no phase set only the elapsed time grows |
| ParkourMovement.StepClimbCollisionAndTeardown | Source/KiwiJam2025/Private/Character/ParkourMovementComponent.cpp:107-161 | During a climb the capsule does not collide; the climb ends exactly when PullUp completes, which restores walking and full collision |
| ParkourMovement.StepClimbReachesPhaseEnd | Source/KiwiJam2025/Private/Character/ParkourMovementComponent.cpp:112-114 | Without a curve, the tick that completes a phase puts the character on the phase end, which is the next phase's start or the target |
| ParkourMovement.StepClimbGrabPitch | Source/KiwiJam2025/Private/Character/ParkourMovementComponent.cpp:116-148 | Leaving Approach records the current pitch and aims at -15; during Grab the pitch is the lerp between those; other phases keep both |
| ParkourMovement.ParkourMovementComponent.constructor | Source/KiwiJam2025/Public/Character/ParkourMovementComponent.h:60-89 | Starts idle with phase None, no curve, default durations, target pitch 20 and no pending vault velocity |
| ParkourMovement.ParkourMovementComponent.BeginClimb | Source/KiwiJam2025/Private/Character/ParkourMovementComponent.cpp:33-63 | Without an owner nothing changes; otherwise Approach from zero, the waypoints from the current location and the ledge, the climb mode, and a level facing |
| ParkourMovement.ParkourMovementComponent.PhysClimb | Source/KiwiJam2025/Private/Character/ParkourMovementComponent.cpp:65-167 | The fields and the owner's body change exactly as `StepClimb` says, and the timer invariant is kept |
| ParkourMovement.ParkourMovementComponent.MoveAlongPhase | Source/KiwiJam2025/Private/Character/ParkourMovementComponent.cpp:71-131 | Progress is the clamped elapsed/duration; collision goes off; the character lands on the phase segment at the curved progress; the controller turns during Approach and its pitch lerps during Grab |
| ParkourMovement.ParkourMovementComponent.CompletePhase | Source/KiwiJam2025/Private/Character/ParkourMovementComponent.cpp:133-165 | At full progress the clock resets and the phase advances; leaving Approach captures the pitch, leaving PullUp restores walking and collision |
| ParkourMovement.ParkourMovementComponent.PhysCustom | Source/KiwiJam2025/Private/Character/ParkourMovementComponent.cpp:14-31 | Runs the handler of the current sub-mode; only the climb handler changes state, and then exactly as `StepClimb` (nothing without an owner); the owner's forward vector and jump flag and the vault hand-off pair never change |
| ParkourPawn.ParkourCharacter.constructor | Source/KiwiJam2025/Private/Character/ParkourCharacter.cpp:16-33 | The detector and the movement component are created and both work on this character |
| ParkourPawn.ParkourCharacter.BeginJump | Source/KiwiJam2025/Private/Character/ParkourCharacter.cpp:68-83 | With a detector, a climb starts iff a Ledge is detected, otherwise a jump is requested; without one nothing happens. A climb leaves the body as it was; the camera pitch pair and the vault hand-off pair of the movement component are never touched, nor the body's capsule |
| WorldMap.WorldMapWidget.constructor | Source/KiwiJam2025/Public/UI/WorldMapWidget.h:72-76 | No markers and zoom 1 |
| WorldMap.WorldMapWidget.SetWorldBounds | Source/KiwiJam2025/Private/UI/WorldMapWidget.cpp:9-12 | The bounds are stored as given |
| WorldMap.WorldMapWidget.WorldToMapPosition | Source/KiwiJam2025/Private/UI/WorldMapWidget.cpp:14-30 | The origin without a canvas, otherwise the linear map position over the canvas size; reads only |
| WorldMap.MapPositionCorners | Source/KiwiJam2025/Private/UI/WorldMapWidget.cpp:20-29 | Bounds min goes to (0,0) and bounds max to the map size |
| WorldMap.MapPositionIgnoresHeight | Source/KiwiJam2025/Private/UI/WorldMapWidget.cpp:20-29 | Height does not affect the map position |
| WorldMap.MapPositionMonotone | Source/KiwiJam2025/Private/UI/WorldMapWidget.cpp:20-29 | Order is kept on both axes (no y flip) |
| WorldMap.MapRoundTrip | Source/KiwiJam2025/Private/UI/WorldMapWidget.cpp:20-29 | Mapping back from the map recovers the horizontal world position |
| WorldMap.WorldMapWidget.AddMarkerPersistent | Source/KiwiJam2025/Private/UI/WorldMapWidget.cpp:32-44 | Null is ignored; otherwise exactly one (widget, location) marker is appended, and the widget joins the canvas only if not already a child |
| WorldMap.RemoveAllFor | Source/KiwiJam2025/Private/UI/WorldMapWidget.cpp:57-60 | Every remaining marker was listed and uses another widget, and the list does not grow |
| WorldMap.RemoveAllForMembers | Source/KiwiJam2025/Private/UI/WorldMapWidget.cpp:57-60 | A marker remains iff it was listed and belongs to another widget, and it remains as often as it was listed |
| WorldMap.RemoveAllForCount | Source/KiwiJam2025/Private/UI/WorldMapWidget.cpp:57-60 | After removal a marker of the widget occurs zero times and any other marker as often as before |
| WorldMap.RemoveAllForKeepsOrder | Source/KiwiJam2025/Private/UI/WorldMapWidget.cpp:57-60 | Removal distributes over concatenation and drops a single marker exactly when it uses the widget, so the kept markers stay in their order |
| WorldMap.RemoveAllForLastLocation | Source/KiwiJam2025/Private/UI/WorldMapWidget.cpp:57-60 | For every other widget the last listed marker, which decides its map position, is the same after removal |
| WorldMap.WorldMapWidget.RemoveMarker | Source/KiwiJam2025/Private/UI/WorldMapWidget.cpp:46-61 | Null changes nothing; otherwise the marker list keeps, in order, exactly the markers of other widgets, and the canvas loses just that widget as a child and its slot, keeping its size |
| WorldMap.ClampZoom | Source/KiwiJam2025/Private/UI/WorldMapWidget.cpp:65 | The stored zoom lies in [0.5, 4] and equals the request when the request is in range |
| WorldMap.ClampZoomIdempotent | Source/KiwiJam2025/Private/UI/WorldMapWidget.cpp:65 | Clamping the zoom twice is the same as once |
| WorldMap.WorldMapWidget.SetZoom | Source/KiwiJam2025/Private/UI/WorldMapWidget.cpp:63-74 | The zoom becomes the clamped request |
| WorldMap.AttachProperties | Source/KiwiJam2025/Private/UI/WorldMapWidget.cpp:84-96 | The open-map loop keeps old children first, adds no duplicates, adds only marker widgets, and shows every non-null marker widget |
| WorldMap.WorldMapWidget.NativeConstruct | Source/KiwiJam2025/Private/UI/WorldMapWidget.cpp:76-97 | The children become `Attach` of the old children and the markers: every marker with a widget is a canvas child, with no duplicates; existing slots are untouched and each new slot has the default layout |
| WorldMap.PlaceLastWins | Source/KiwiJam2025/Private/UI/WorldMapWidget.cpp:116-133 | No slot is created or removed; a slot gets the centred 32x32 layout at the map position of its widget's last marker, else keeps its layout |
| WorldMap.WorldMapWidget.UpdateMarkerPositions | Source/KiwiJam2025/Private/UI/WorldMapWidget.cpp:116-133 | The loop leaves the slots exactly as `Place` computes, and the children unchanged |
| Goal.GoalPoint.constructor | Source/KiwiJam2025/Public/GoalPoint.h:38-57 | A new goal is active, with no marker added and no widget |
| Goal.GoalPoint.GetGoalLocation | Source/KiwiJam2025/Private/GoalPoint.cpp:99-102 | The goal location is the actor's location |
| Goal.GoalPoint.OnOverlapBegin | Source/KiwiJam2025/Private/GoalPoint.cpp:42-66 | Only the first character overlap while active fires the event, once, with this goal; it deactivates and drops the widget, removing it from the map only for a parkour player with a map: its markers and its canvas child and slot go, while the map's bounds, zoom, canvas size and other children and slots stay |
| Goal.GoalPoint.Tick | Source/KiwiJam2025/Private/GoalPoint.cpp:68-97 | Until registered, each tick with a controller makes a fresh widget; the marker flag is set exactly when it was added to the player's map, as one new marker at the goal's location and one new canvas child in a default slot, with the map's bounds, zoom, size and other children and slots unchanged; once set, nothing changes |

## Left out

- Floating point: all quantities are exact reals. `float` rounding and IEEE division by zero or NaN are not modelled.
- WorldMap.WorldMapWidget.WorldToMapPosition: requires bounds with extent on both horizontal axes when a canvas exists. The code divides regardless and would yield infinities or NaN for flat bounds.
- WorldMap.WorldMapWidget.UpdateMarkerPositions: requires bounds with extent for the same reason.
- WorldMap.WorldMapWidget.NativeConstruct: requires a bound canvas, as the code dereferences it without a check. `Super::NativeConstruct`, `UpdateMapSize` and the log lines are not modelled.
- Engine calls are modelled abstractly:
  - Line traces are a world oracle.
  - `SafeMoveUpdatedComponent` is an exact move to the requested location.
  - `SetCollisionEnabled` is a field.
  - `FMath::RInterpTo`, `FVector::Rotation` and the progress curve are function parameters.
- Only the marker canvas is modelled as a parent panel, so a widget's slot is a canvas slot exactly when it is a child of that canvas.
- The engine's `AddChild` is modelled as moving an existing child to the end. The map only calls it for widgets that are not yet children.
- ParkourMovement.ParkourMovementComponent.PhysCustom: the engine's base `Super::PhysCustom` for other sub-modes is reported but not modelled.
- Vault, wall-run and head clearance are not modelled:
  - `BeginVault`, `TickComponent`, `CheckVaultSurface` and `TraceHead` have no definitions in the repository.
  - `PhysWallRun` and `PhysVault` are empty.
  - The vault fields are kept only with their defaults.
- Debug drawing and `UE_LOG` calls never affect control flow and are not modelled.
- Slot sizing of the map image in `SetZoom`, `UpdateMapSize` and `NativeTick` depend on widget geometry. The canvas size is an input.
- The editor-configurable durations and progress curve of the movement component, and the detector's trace distances and height bands, are constants fixed at construction to the header defaults. Editing them is not modelled; `Classify` and its lemmas hold for any configuration.
- The default constructor of `FWorldMapMarker` (null widget, zero location) is not modelled: the map only ever builds markers from a widget and a location.
- Vector fields without initialisers (`ImpactPoint`, waypoints, `WorldBounds`) are taken as zero.
- Goal.GoalPoint.Tick: `CreateWidget` is a boolean input saying whether creation succeeds. A successful creation yields a fresh widget.
- `GetWorldMapWidget` is not declared in the repository's character header. The map widget a parkour pawn offers is part of the pawn value the goal receives.
- Input plumbing (`Move`, `Look`, input mapping setup), the camera and capsule setup, and the empty `BeginPlay`/`Tick` bodies are not modelled.
- The delegate broadcast is modelled as appending the goal actor to an event log. Its listeners are outside the model.
