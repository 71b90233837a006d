/** The timing core of the ledge climb: the ordered phase enum, the per-phase
    durations, the clamped progress value and the waypoint pair each phase
    moves between, and the phase timer that one physics tick advances. The
    movement component drives its fields through exactly this machine. */
module ClimbPhases {
  import opened Vectors
  import Options

  /** The climb phases in declaration order. */
  datatype ClimbPhase = None | Approach | Grab | PullUp

  /** Position in the enum's declaration. */
  function Ordinal(p: ClimbPhase): (n: nat)
    ensures n < 4
  {
    match p
    case None => 0
    case Approach => 1
    case Grab => 2
    case PullUp => 3
  }

  lemma OrdinalDeclarationOrder()
    ensures Ordinal(ClimbPhase.None) < Ordinal(Approach) < Ordinal(Grab) < Ordinal(PullUp)
    ensures forall p, q :: Ordinal(p) == Ordinal(q) ==> p == q
  {
  }

  /** The phase a completed phase hands over to; None is terminal. */
  function Next(p: ClimbPhase): ClimbPhase {
    match p
    case Approach => Grab
    case Grab => PullUp
    case PullUp => ClimbPhase.None
    case None => ClimbPhase.None
  }

  /** How far along a climb a phase is: the terminal None comes last. */
  function Progress(p: ClimbPhase): (n: nat)
    ensures n <= 3
    ensures p == ClimbPhase.None <==> n == 3
  {
    match p
    case Approach => 0
    case Grab => 1
    case PullUp => 2
    case None => 3
  }

  /** The configured duration of each phase, in seconds. */
  datatype PhaseTimes = PhaseTimes(approach: real, grab: real, pullUp: real)

  ghost predicate PositiveTimes(t: PhaseTimes) {
    t.approach > 0.0 && t.grab > 0.0 && t.pullUp > 0.0
  }

  /** ApproachTime 0.25, GrabTime 0.25, PullUpTime 0.5. */
  function DefaultPhaseTimes(): (t: PhaseTimes)
    ensures PositiveTimes(t)
    ensures t.approach + t.grab + t.pullUp == 1.0
  {
    PhaseTimes(0.25, 0.25, 0.5)
  }

  function Duration(t: PhaseTimes, p: ClimbPhase): (d: real)
    requires PositiveTimes(t) && p != ClimbPhase.None
    ensures d > 0.0
  {
    match p
    case Approach => t.approach
    case Grab => t.grab
    case PullUp => t.pullUp
  }

  /** The three climb waypoints: where the climb started, the ledge grab
      point and the over-the-top point. */
  datatype Waypoints = Waypoints(start: Vec3, mid: Vec3, target: Vec3)

  /** The hold point at the top of the grab: the grab point raised to the
      target's height. */
  function HoldPoint(w: Waypoints): Vec3 {
    Vec3(w.mid.x, w.mid.y, w.target.z)
  }

  function PhaseStart(w: Waypoints, p: ClimbPhase): Vec3
    requires p != ClimbPhase.None
  {
    match p
    case Approach => w.start
    case Grab => w.mid
    case PullUp => HoldPoint(w)
  }

  function PhaseEnd(w: Waypoints, p: ClimbPhase): Vec3
    requires p != ClimbPhase.None
  {
    match p
    case Approach => w.mid
    case Grab => HoldPoint(w)
    case PullUp => w.target
  }

  /** The climb path has no jumps: each phase begins where the previous one
      ends, and the whole path runs from the start to the target. */
  lemma WaypointsContinuous(w: Waypoints)
    ensures PhaseEnd(w, Approach) == PhaseStart(w, Grab) == w.mid
    ensures PhaseEnd(w, Grab) == PhaseStart(w, PullUp) == Vec3(w.mid.x, w.mid.y, w.target.z)
    ensures PhaseStart(w, Approach) == w.start && PhaseEnd(w, PullUp) == w.target
  {
  }

  /** Phase progress: elapsed over duration, clamped into [0, 1]. It reaches
      1 exactly when the phase's duration has elapsed. */
  function Alpha(elapsed: real, duration: real): (a: real)
    requires duration > 0.0
    ensures 0.0 <= a <= 1.0
    ensures a == 1.0 <==> elapsed >= duration
    ensures 0.0 <= elapsed < duration ==> a * duration == elapsed
  {
    Clamp(elapsed / duration, 0.0, 1.0)
  }

  /** The optional progress curve remaps alpha; without one alpha is used as is. */
  function CurveAlpha(curve: Options.Option<real -> real>, alpha: real): real {
    match curve
    case None => alpha
    case Some(f) => f(alpha)
  }

  /** The phase timer: current phase, time spent in it, and whether a climb
      is running. */
  datatype ClimbTimer = ClimbTimer(phase: ClimbPhase, elapsed: real, active: bool)

  /** The timer invariant: a climb is running exactly when a phase is set,
      and a running phase has not yet used up its duration. */
  ghost predicate WellFormed(s: ClimbTimer, t: PhaseTimes)
    requires PositiveTimes(t)
  {
    (s.active <==> s.phase != ClimbPhase.None) &&
    (s.active ==> s.elapsed < Duration(t, s.phase))
  }

  /** One tick of the phase timer: add the frame time; once the phase's
      progress reaches 1, reset the elapsed time and advance the phase, and
      leaving PullUp ends the climb. An inactive timer is left alone. */
  function Tick(s: ClimbTimer, dt: real, t: PhaseTimes): (r: ClimbTimer)
    requires PositiveTimes(t)
    ensures WellFormed(s, t) ==> WellFormed(r, t)
    ensures !s.active ==> r == s
    ensures r.phase == s.phase || r.phase == Next(s.phase)
    ensures r.phase != s.phase ==> r.elapsed == 0.0
    ensures s.active && !r.active ==> s.phase == PullUp
    ensures s.active && s.phase != ClimbPhase.None ==>
      (r.phase == Next(s.phase) <==> s.elapsed + dt >= Duration(t, s.phase))
    ensures s.active && r.phase == s.phase ==> r.elapsed == s.elapsed + dt
  {
    if !s.active then s
    else if s.phase == ClimbPhase.None then s.(elapsed := s.elapsed + dt)
    else
      var e := s.elapsed + dt;
      if Alpha(e, Duration(t, s.phase)) >= 1.0 then
        ClimbTimer(Next(s.phase), 0.0, s.phase != PullUp)
      else
        s.(elapsed := e)
  }

  /** The timer after a sequence of ticks with the given frame times. */
  function Run(s: ClimbTimer, dts: seq<real>, t: PhaseTimes): ClimbTimer
    requires PositiveTimes(t)
    decreases |dts|
  {
    if |dts| == 0 then s else Run(Tick(s, dts[0], t), dts[1..], t)
  }

  /** n ticks of the same frame time. */
  function Repeat(dt: real, n: nat): (r: seq<real>)
    ensures |r| == n && forall i :: 0 <= i < n ==> r[i] == dt
  {
    seq(n, _ => dt)
  }

  /** Once the climb has ended, no number of further ticks changes anything:
      the teardown happens once. */
  lemma {:induction false} RunInactiveUnchanged(s: ClimbTimer, dts: seq<real>, t: PhaseTimes)
    requires PositiveTimes(t) && !s.active
    ensures Run(s, dts, t) == s
    decreases |dts|
  {
    if |dts| > 0 {
      RunInactiveUnchanged(Tick(s, dts[0], t), dts[1..], t);
    }
  }

  /** Ticks never move a climb backwards and never skip a phase: each tick
      advances the phase by at most one step. */
  lemma {:induction false} RunNeverSkips(s: ClimbTimer, dts: seq<real>, t: PhaseTimes)
    requires PositiveTimes(t)
    ensures Progress(s.phase) <= Progress(Run(s, dts, t).phase) <= Progress(s.phase) + |dts|
    decreases |dts|
  {
    if |dts| > 0 {
      RunNeverSkips(Tick(s, dts[0], t), dts[1..], t);
    }
  }

  /** The timer invariant holds after any sequence of ticks. */
  lemma {:induction false} RunWellFormed(s: ClimbTimer, dts: seq<real>, t: PhaseTimes)
    requires PositiveTimes(t) && WellFormed(s, t)
    ensures WellFormed(Run(s, dts, t), t)
    decreases |dts|
  {
    if |dts| > 0 {
      RunWellFormed(Tick(s, dts[0], t), dts[1..], t);
    }
  }

  /** Every phase between the first and the last one reached is visited:
      some prefix of the ticks ends in it. With RunNeverSkips this gives the
      strict order Approach, Grab, PullUp, end. */
  lemma {:induction false} RunVisitsEveryPhase(s: ClimbTimer, dts: seq<real>, t: PhaseTimes, m: nat)
    requires PositiveTimes(t)
    requires Progress(s.phase) <= m <= Progress(Run(s, dts, t).phase)
    ensures exists k :: 0 <= k <= |dts| && Progress(Run(s, dts[..k], t).phase) == m
    decreases |dts|
  {
    if m == Progress(s.phase) {
      assert dts[..0] == [];
      assert Progress(Run(s, dts[..0], t).phase) == m;
    } else {
      var s1 := Tick(s, dts[0], t);
      RunNeverSkips(s1, dts[1..], t);
      RunVisitsEveryPhase(s1, dts[1..], t, m);
      var k :| 0 <= k <= |dts[1..]| && Progress(Run(s1, dts[1..][..k], t).phase) == m;
      assert dts[..k + 1][0] == dts[0];
      assert dts[..k + 1][1..] == dts[1..][..k];
      assert Progress(Run(s, dts[..k + 1], t).phase) == m;
    }
  }

  /** Ticks left in the current phase beyond the next one, for a fixed frame time. */
  function StepsLeft(s: ClimbTimer, dt: real, t: PhaseTimes): nat
    requires PositiveTimes(t) && WellFormed(s, t) && dt > 0.0
  {
    if !s.active then 0
    else
      var q := (Duration(t, s.phase) - s.elapsed) / dt;
      assert q > 0.0;
      q.Floor
  }

  /** One tick of a running climb either moves to the next phase or keeps the
      phase with one tick fewer left in it. */
  lemma TickMakesProgress(s: ClimbTimer, dt: real, t: PhaseTimes)
    requires PositiveTimes(t) && WellFormed(s, t) && dt > 0.0 && s.active
    ensures var r := Tick(s, dt, t);
      Progress(r.phase) == Progress(s.phase) + 1 ||
      (r.phase == s.phase && StepsLeft(r, dt, t) < StepsLeft(s, dt, t))
  {
    var r := Tick(s, dt, t);
    if r.phase == s.phase {
      var d := Duration(t, s.phase);
      var q := (d - s.elapsed) / dt;
      var q' := (d - r.elapsed) / dt;
      assert r.elapsed == s.elapsed + dt;
      assert (d - s.elapsed - dt) / dt == (d - s.elapsed) / dt - dt / dt;
      assert dt / dt == 1.0;
      assert q' == q - 1.0;
    }
  }

  /** The climb is total: with any fixed positive frame time, a running
      climb ends after finitely many ticks. */
  lemma {:induction false} ClimbTerminates(s: ClimbTimer, dt: real, t: PhaseTimes)
    requires PositiveTimes(t) && WellFormed(s, t) && dt > 0.0
    ensures exists n: nat :: !Run(s, Repeat(dt, n), t).active
    decreases 3 - Progress(s.phase), StepsLeft(s, dt, t)
  {
    if !s.active {
      assert Run(s, Repeat(dt, 0), t) == s;
    } else {
      var s1 := Tick(s, dt, t);
      TickMakesProgress(s, dt, t);
      ClimbTerminates(s1, dt, t);
      var n: nat :| !Run(s1, Repeat(dt, n), t).active;
      assert Repeat(dt, n + 1)[0] == dt;
      assert Repeat(dt, n + 1)[1..] == Repeat(dt, n);
      assert Run(s, Repeat(dt, n + 1), t) == Run(s1, Repeat(dt, n), t);
    }
  }
}
