/** The controller as a state machine: each tick the vehicle code calls exactly
    one of the four update entry points. This module names that choice, runs a
    sequence of ticks, and proves what holds of the state across all of them. */
module L1Guidance {
  import opened Numeric
  import opened Geometry
  import opened L1Control
  import opened L1Update

  /** The update entry point called on one tick, with its arguments. */
  datatype Command =
    | Waypoint(prevWp: Location, nextWp: Location, distMin: real)
    | Loiter(center: Location, radius: real, direction: int)
    | HeadingHold(headingCd: int)
    | LevelFlight
  {
    /** Waypoint and loiter need a position fix; the other two do not. */
    predicate NeedsFix() {
      Waypoint? || Loiter?
    }
  }

  /** One tick: this tick's AHRS/TECS readings and the entry point called. */
  datatype Tick = Tick(nav: NavInputs, cmd: Command)

  /** The conditions under which the source's unguarded divisions and asin are
      defined for this command. */
  predicate StepDefined(t: Trig, geo: Geodesy, p: Params, tick: Tick) {
    var nav := tick.nav;
    match tick.cmd
    case Waypoint(_, _, distMin) =>
      nav.location.Some? ==> LookaheadFloorPositive(p, distMin)
    case Loiter(center, radius, direction) =>
      nav.location.Some? ==> LoiterGeometryDefined(t, geo, p, nav, nav.location.value, center, radius, direction)
    case HeadingHold(_) =>
      p.period != 0.0
    case LevelFlight =>
      true
  }

  /** What every state the controller produces satisfies: the bearing error
      is an angle within half a turn, and the circling flag is clear (no live
      code path sets it). */
  predicate Consistent(s: L1State) {
    Abs(s.bearingError) <= PI && !s.wpCircle
  }

  /** One tick of the controller. The stale flag is set exactly when a command
      that needs a position fix has none, and then nothing else changes; the
      reverse flag is never written; consistency is preserved. */
  function Step(t: Trig, geo: Geodesy, p: Params, s: L1State, tick: Tick): (s': L1State)
    requires Sound(t)
    requires StepDefined(t, geo, p, tick)
    ensures s'.dataIsStale <==> tick.cmd.NeedsFix() && tick.nav.location.None?
    ensures tick.cmd.NeedsFix() && tick.nav.location.None? ==> s' == s.(dataIsStale := true)
    ensures s'.reverse == s.reverse
    ensures Consistent(s) ==> Consistent(s')
  {
    match tick.cmd
    case Waypoint(prevWp, nextWp, distMin) =>
      UpdateWaypoint(t, geo, p, tick.nav, s, prevWp, nextWp, distMin)
    case Loiter(center, radius, direction) =>
      UpdateLoiter(t, geo, p, tick.nav, s, center, radius, direction)
    case HeadingHold(headingCd) =>
      UpdateHeadingHold(t, p, tick.nav, s, headingCd)
    case LevelFlight =>
      UpdateLevelFlight(tick.nav, s)
  }

  /** The state after a sequence of ticks. */
  function Run(t: Trig, geo: Geodesy, p: Params, s: L1State, ticks: seq<Tick>): L1State
    requires Sound(t)
    requires forall i :: 0 <= i < |ticks| ==> StepDefined(t, geo, p, ticks[i])
    decreases |ticks|
  {
    if |ticks| == 0 then s
    else Run(t, geo, p, Step(t, geo, p, s, ticks[0]), ticks[1..])
  }

  /** Consistency holds after any number of ticks, and the reverse flag set by
      the vehicle code is never changed by the controller. */
  lemma {:induction false} RunPreservesConsistency(t: Trig, geo: Geodesy, p: Params, s: L1State, ticks: seq<Tick>)
    requires Sound(t)
    requires forall i :: 0 <= i < |ticks| ==> StepDefined(t, geo, p, ticks[i])
    requires Consistent(s)
    ensures Consistent(Run(t, geo, p, s, ticks))
    ensures Run(t, geo, p, s, ticks).reverse == s.reverse
    decreases |ticks|
  {
    if |ticks| > 0 {
      var s1 := Step(t, geo, p, s, ticks[0]);
      assert forall i :: 0 <= i < |ticks[1..]| ==> StepDefined(t, geo, p, ticks[1..][i]) by {
        forall i | 0 <= i < |ticks[1..]|
          ensures StepDefined(t, geo, p, ticks[1..][i])
        {
          assert ticks[1..][i] == ticks[i + 1];
        }
      }
      RunPreservesConsistency(t, geo, p, s1, ticks[1..]);
    }
  }

  /** After a non-empty run the stale flag reports exactly whether the last tick
      was a waypoint or loiter update without a position fix. */
  lemma {:induction false} RunStaleFlagReportsLastTick(t: Trig, geo: Geodesy, p: Params, s: L1State, ticks: seq<Tick>)
    requires Sound(t)
    requires forall i :: 0 <= i < |ticks| ==> StepDefined(t, geo, p, ticks[i])
    requires |ticks| > 0
    ensures var last := ticks[|ticks| - 1];
            Run(t, geo, p, s, ticks).dataIsStale <==> last.cmd.NeedsFix() && last.nav.location.None?
    decreases |ticks|
  {
    var s1 := Step(t, geo, p, s, ticks[0]);
    if |ticks| > 1 {
      assert forall i :: 0 <= i < |ticks[1..]| ==> StepDefined(t, geo, p, ticks[1..][i]) by {
        forall i | 0 <= i < |ticks[1..]|
          ensures StepDefined(t, geo, p, ticks[1..][i])
        {
          assert ticks[1..][i] == ticks[i + 1];
        }
      }
      RunStaleFlagReportsLastTick(t, geo, p, s1, ticks[1..]);
      assert ticks[1..][|ticks[1..]| - 1] == ticks[|ticks| - 1];
    }
  }

  /** A run of ticks none of which has a position fix for the waypoint or
      loiter update it requests leaves everything but the stale flag as it was:
      the last navigation and target bearings are held. */
  lemma {:induction false} RunWithoutFixHoldsState(t: Trig, geo: Geodesy, p: Params, s: L1State, ticks: seq<Tick>)
    requires Sound(t)
    requires forall i :: 0 <= i < |ticks| ==> StepDefined(t, geo, p, ticks[i])
    requires forall i :: 0 <= i < |ticks| ==> ticks[i].cmd.NeedsFix() && ticks[i].nav.location.None?
    requires |ticks| > 0
    ensures Run(t, geo, p, s, ticks) == s.(dataIsStale := true)
    decreases |ticks|
  {
    var s1 := Step(t, geo, p, s, ticks[0]);
    assert s1 == s.(dataIsStale := true);
    if |ticks| > 1 {
      forall i | 0 <= i < |ticks[1..]|
        ensures StepDefined(t, geo, p, ticks[1..][i])
        ensures ticks[1..][i].cmd.NeedsFix() && ticks[1..][i].nav.location.None?
      {
        assert ticks[1..][i] == ticks[i + 1];
      }
      RunWithoutFixHoldsState(t, geo, p, s1, ticks[1..]);
      assert s1.(dataIsStale := true) == s.(dataIsStale := true);
    }
  }

  /** Heading hold stores groundSpeed / omegaA as the look-ahead with no speed
      floor, so a vehicle at zero ground speed reports a zero look-ahead
      distance, whereas the waypoint law's look-ahead is strictly positive. */
  lemma LookaheadPositivityDependsOnEntryPoint(t: Trig, geo: Geodesy, p: Params, nav: NavInputs, s: L1State,
                                               prevWp: Location, nextWp: Location, distMin: real)
    requires Sound(t)
    requires nav.location.Some? && LookaheadFloorPositive(p, distMin)
    requires p.period != 0.0 && Length(t, nav.groundVelocity) == 0.0
    ensures UpdateWaypoint(t, geo, p, nav, s, prevWp, nextWp, distMin).l1Dist > 0.0
    ensures UpdateHeadingHold(t, p, nav, s, 0).l1Dist == 0.0
  {
  }

  /** Level flight reads the AHRS yaw without the reverse rotation: the reverse
      flag has no influence on anything it writes. */
  lemma LevelFlightIgnoresReverse(nav: NavInputs, s: L1State)
    ensures UpdateLevelFlight(nav, s.(reverse := true)) == UpdateLevelFlight(nav, s.(reverse := false)).(reverse := true)
  {
  }

  /** Heading hold, too, compares the demand with the raw AHRS yaw, so the
      reverse flag has no influence on anything it writes. */
  lemma HeadingHoldIgnoresReverse(t: Trig, p: Params, nav: NavInputs, s: L1State, headingCd: int)
    requires p.period != 0.0
    ensures UpdateHeadingHold(t, p, nav, s.(reverse := true), headingCd)
            == UpdateHeadingHold(t, p, nav, s.(reverse := false), headingCd).(reverse := true)
  {
  }

  /** A waypoint leg from A = (0, 0) to B = (1000, 0) metres North-East, the
      aircraft 50 m south of A flying at 10 m/s, with period 17, damping 0.75 and
      the speed-scaled look-ahead: the look-ahead is 0.3183099 * 0.75 * 17 * 10 =
      40.58451225 m, shorter than the 50 m to A, and the aircraft lies straight
      behind A, so the law steers directly at A. */
  lemma WaypointScenarioBehindA(t: Trig, p: Params, distMin: real)
    requires Sound(t)
    requires p.period == 17.0 && p.damping == 0.75 && p.lMethod == 1.0
    requires distMin <= 40.0
    ensures WaypointLookahead(t, p, 10.0, distMin, 0.0) == 40.58451225
    ensures BehindPrevWaypoint(t, Vec2(-50.0, 0.0), Vec2(1.0, 0.0), 40.58451225)
  {
    SqrtOfSquare(t, 50.0);
    assert SquaredLength(Vec2(-50.0, 0.0)) == 50.0 * 50.0;
  }
}
