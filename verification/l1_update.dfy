/** The four update entry points of the L1 controller (waypoint, loiter, heading
    hold, level flight). Each is a pure function from the previous state, this
    tick's AHRS/TECS readings and the parameters to the next state. */
module L1Update {
  import opened Numeric
  import opened Geometry
  import opened L1Control

  /** Below this ground speed (m/s) the waypoint law steers by compass heading. */
  const MIN_WAYPOINT_GROUND_SPEED: real := 0.1
  /** A track vector shorter than this (m) counts as zero length. */
  const MIN_TRACK_LENGTH: real := 0.000001
  /** 1/pi, turning damping * period * speed into a look-ahead distance. */
  const L1_DIST_SCALE: real := 0.3183099
  /** sin(45 degrees): the steepest capture angle towards the track. */
  const MAX_SINE_NU1: real := 0.7071
  /** cos(135 degrees) as a bound: the aircraft is behind waypoint A. */
  const BEHIND_COSINE: real := -0.7071
  /** The literal pi/2 the waypoint law clamps Nu to. */
  const WAYPOINT_NU_LIMIT: real := 1.5708
  /** Floor on ground speed (m/s) in the loiter law. */
  const MIN_LOITER_GROUND_SPEED: real := 1.0
  /** sqrt(2) * pi: the heading-hold loop frequency times the period. */
  const HEADING_OMEGA_SCALE: real := 4.4428

  // ---------------------------------------------------------------------------
  // update_waypoint

  /** The ground velocity and speed the waypoint law works with. */
  datatype GroundTrack = GroundTrack(velocity: Vec2, speed: real)

  /** Ground speed floored at 0.1 m/s; below it the measured velocity is replaced
      by a 0.1 m/s vector along the (reverse-aware) yaw. */
  function WaypointGroundTrack(t: Trig, nav: NavInputs, yaw: real): (g: GroundTrack)
    requires Sound(t)
    ensures g.speed >= MIN_WAYPOINT_GROUND_SPEED
    ensures g.speed == Length(t, g.velocity)
    ensures Length(t, nav.groundVelocity) >= MIN_WAYPOINT_GROUND_SPEED ==>
              g == GroundTrack(nav.groundVelocity, Length(t, nav.groundVelocity))
    ensures Length(t, nav.groundVelocity) < MIN_WAYPOINT_GROUND_SPEED ==>
              g.velocity == Scale(Heading(t, yaw), MIN_WAYPOINT_GROUND_SPEED)
              && g.speed == MIN_WAYPOINT_GROUND_SPEED
  {
    var speed := Length(t, nav.groundVelocity);
    if speed < MIN_WAYPOINT_GROUND_SPEED then
      HeadingScaledLength(t, yaw, MIN_WAYPOINT_GROUND_SPEED);
      GroundTrack(Scale(Heading(t, yaw), MIN_WAYPOINT_GROUND_SPEED), MIN_WAYPOINT_GROUND_SPEED)
    else
      GroundTrack(nav.groundVelocity, speed)
  }

  /** The direction of the track before normalisation: the leg from A to B; if
      that is degenerate, the line from the aircraft to B; if that too is
      degenerate, the heading. The result is never (near) zero, so normalising
      it is defined. */
  function TrackDirection(t: Trig, geo: Geodesy, prevWp: Location, nextWp: Location, loc: Location, yaw: real): (ab: Vec2)
    requires Sound(t)
    ensures Length(t, ab) >= MIN_TRACK_LENGTH
    ensures Length(t, geo.distanceNE(prevWp, nextWp)) >= MIN_TRACK_LENGTH ==> ab == geo.distanceNE(prevWp, nextWp)
    ensures Length(t, geo.distanceNE(prevWp, nextWp)) < MIN_TRACK_LENGTH ==>
              Length(t, geo.distanceNE(loc, nextWp)) >= MIN_TRACK_LENGTH ==> ab == geo.distanceNE(loc, nextWp)
    ensures Length(t, geo.distanceNE(prevWp, nextWp)) < MIN_TRACK_LENGTH ==>
              Length(t, geo.distanceNE(loc, nextWp)) < MIN_TRACK_LENGTH ==> ab == Heading(t, yaw)
  {
    var leg := geo.distanceNE(prevWp, nextWp);
    if Length(t, leg) < MIN_TRACK_LENGTH then
      var direct := geo.distanceNE(loc, nextWp);
      if Length(t, direct) < MIN_TRACK_LENGTH then
        HeadingIsUnit(t, yaw);
        Heading(t, yaw)
      else
        direct
    else
      leg
  }

  /** The look-ahead distance can only be zero through a parameter choice: the
      source divides by it unguarded, so these parameters are required. */
  predicate LookaheadFloorPositive(p: Params, distMin: real) {
    if p.lMethod > 0.0 then p.damping * p.period > 0.0 || distMin > 0.0
    else p.lDist != 0.0
  }

  /** The L1 distance: with L_METHOD positive, damping * period * speed / pi
      floored at `distMin`; otherwise the distance to a point `lDist` ahead on
      the track, sqrt(lDist^2 + crosstrack^2). */
  function WaypointLookahead(t: Trig, p: Params, speed: real, distMin: real, xtrack: real): (l1: real)
    requires Sound(t)
    ensures p.lMethod > 0.0 ==> l1 >= distMin && l1 >= L1_DIST_SCALE * p.damping * p.period * speed
    ensures p.lMethod > 0.0 ==> l1 == distMin || l1 == L1_DIST_SCALE * p.damping * p.period * speed
    ensures p.lMethod <= 0.0 ==> l1 >= 0.0 && l1 * l1 == Sq(p.lDist) + Sq(xtrack)
    ensures p.lMethod <= 0.0 ==> l1 >= Abs(p.lDist) && l1 >= Abs(xtrack)
  {
    if p.lMethod > 0.0 then
      Max(L1_DIST_SCALE * p.damping * p.period * speed, distMin)
    else
      SqrtDominatesLeg(t, p.lDist, xtrack);
      SqrtDominatesLeg(t, xtrack, p.lDist);
      t.sqrt(Sq(p.lDist) + Sq(xtrack))
  }

  /** Under the parameter condition, and with the 0.1 m/s speed floor, the
      look-ahead distance is strictly positive. */
  lemma WaypointLookaheadPositive(t: Trig, p: Params, speed: real, distMin: real, xtrack: real)
    requires Sound(t)
    requires speed >= MIN_WAYPOINT_GROUND_SPEED
    requires LookaheadFloorPositive(p, distMin)
    ensures WaypointLookahead(t, p, speed, distMin, xtrack) > 0.0
  {
  }

  /** sin(Nu1): the crosstrack error over the look-ahead (floored at 0.1 m),
      limited to +-sin(45 degrees). */
  function SineNu1(xtrack: real, l1: real): (r: real)
    ensures -MAX_SINE_NU1 <= r <= MAX_SINE_NU1
    ensures -MAX_SINE_NU1 <= xtrack / Max(l1, 0.1) <= MAX_SINE_NU1 ==> r == xtrack / Max(l1, 0.1)
    ensures xtrack / Max(l1, 0.1) < -MAX_SINE_NU1 ==> r == -MAX_SINE_NU1
    ensures xtrack / Max(l1, 0.1) > MAX_SINE_NU1 ==> r == MAX_SINE_NU1
  {
    Constrain(xtrack / Max(l1, 0.1), -MAX_SINE_NU1, MAX_SINE_NU1)
  }

  /** More than the look-ahead from waypoint A and outside the 135-degree cone
      around the track behind it. */
  predicate BehindPrevWaypoint(t: Trig, aAir: Vec2, abUnit: Vec2, l1: real) {
    var distA := Length(t, aAir);
    distA > l1 && Dot(aAir, abUnit) / Max(distA, 1.0) < BEHIND_COSINE
  }

  /** A turn angle Nu and the bearing of the reference point. */
  datatype Steer = Steer(nu: real, navBearing: real)

  /** The turn angle from a velocity towards the direction `toward`. */
  function TurnAngle(t: Trig, velocity: Vec2, toward: Vec2): real {
    t.atan2(Cross(velocity, toward), Dot(velocity, toward))
  }

  /** Behind waypoint A: fly straight at A. Otherwise: Nu2 (velocity against the
      track) plus Nu1 (the capture angle towards the track). */
  function WaypointSteer(t: Trig, velocity: Vec2, aAir: Vec2, abUnit: Vec2, xtrack: real, l1: real): Steer
    requires l1 >= 0.0
  {
    if BehindPrevWaypoint(t, aAir, abUnit, l1) then
      var toA := Neg(Normalize(t, aAir));
      Steer(TurnAngle(t, velocity, toA), t.atan2(toA.y, toA.x))
    else
      var nu2 := TurnAngle(t, velocity, abUnit);
      var nu1 := t.asin(SineNu1(xtrack, l1));
      Steer(nu1 + nu2, t.atan2(abUnit.y, abUnit.x) + nu1)
  }

  /** The lateral-acceleration law: 4 * damping^2 * V^2 / L1 * sin(Nu) for the
      upwind-distance method, 2 * V^2 / L1 * sin(Nu) otherwise. */
  function WaypointLatAccel(p: Params, speed: real, l1: real, sinNu: real): real
    requires l1 != 0.0
  {
    if p.lMethod < 1.0 then
      4.0 * p.damping * p.damping * speed * speed / l1 * sinNu
    else
      2.0 * speed * speed / l1 * sinNu
  }

  /** Two consecutive recorded turn angles that both point nearly straight back,
      with the target more than 120 degrees off the yaw, turn the same way. */
  predicate KeepsTurnDirection(before: real, after: real, targetBearingCd: int, yawSensorCd: int) {
    Abs(before) > NU_INDECISION_LIMIT && Abs(after) > NU_INDECISION_LIMIT
      && AbsInt(Wrap180Cd(targetBearingCd - yawSensorCd)) > 12000
    ==> before * after > 0.0
  }

  /** The guard's output, recorded as the next previous turn angle, never
      reverses the previous turn inside the band. */
  lemma GuardKeepsTurnDirection(s: L1State, ahrsYawCd: int, nu: real)
    ensures KeepsTurnDirection(s.lastNu, PreventIndecision(s, ahrsYawCd, nu), s.targetBearingCd, YawSensorCd(s.reverse, ahrsYawCd))
  {
  }

  /** update_waypoint: track the straight line from `prevWp` to `nextWp`.
      Without a position fix only the stale flag is set. Otherwise the guard
      output is recorded as the previous turn angle before the +-pi/2 clamp, the
      clamped value is the bearing error, and the acceleration is computed from
      it and the strictly positive look-ahead distance. */
  function UpdateWaypoint(t: Trig, geo: Geodesy, p: Params, nav: NavInputs, s: L1State,
                          prevWp: Location, nextWp: Location, distMin: real): (s': L1State)
    requires Sound(t)
    requires nav.location.Some? ==> LookaheadFloorPositive(p, distMin)
    ensures nav.location.None? ==> s' == s.(dataIsStale := true)
    ensures nav.location.Some? ==>
              && !s'.dataIsStale
              && !s'.wpCircle
              && s'.reverse == s.reverse
              && s'.reachedLoiterTargetMs == s.reachedLoiterTargetMs
              && s'.targetBearingCd == geo.bearingToCd(nav.location.value, nextWp)
    ensures nav.location.Some? ==>
              && s'.l1Dist > 0.0
              && (p.lMethod > 0.0 ==> s'.l1Dist >= distMin)
              && (p.lMethod <= 0.0 ==> s'.l1Dist >= Abs(p.lDist) && s'.l1Dist >= Abs(s'.crosstrackError))
    ensures nav.location.Some? ==>
              var loc := nav.location.value;
              var yaw := GetYaw(s.reverse, nav.yaw);
              var g := WaypointGroundTrack(t, nav, yaw);
              var aAir := geo.distanceNE(prevWp, loc);
              var abUnit := Normalize(t, TrackDirection(t, geo, prevWp, nextWp, loc, yaw));
              && s'.crosstrackError == Cross(aAir, abUnit)
              && s'.l1Dist == WaypointLookahead(t, p, g.speed, distMin, s'.crosstrackError)
              && s'.navBearing == WaypointSteer(t, g.velocity, aAir, abUnit, s'.crosstrackError, s'.l1Dist).navBearing
              && s'.lastNu == PreventIndecision(s.(targetBearingCd := s'.targetBearingCd), nav.yawSensorCd,
                                                WaypointSteer(t, g.velocity, aAir, abUnit, s'.crosstrackError, s'.l1Dist).nu)
    ensures nav.location.Some? ==>
              && s'.bearingError == Constrain(s'.lastNu, -WAYPOINT_NU_LIMIT, WAYPOINT_NU_LIMIT)
              && KeepsTurnDirection(s.lastNu, s'.lastNu, s'.targetBearingCd, YawSensorCd(s.reverse, nav.yawSensorCd))
    ensures nav.location.Some? ==>
              var yaw := GetYaw(s.reverse, nav.yaw);
              var speed := WaypointGroundTrack(t, nav, yaw).speed;
              s'.latAccDem == WaypointLatAccel(p, speed, s'.l1Dist, t.sin(s'.bearingError))
  {
    match nav.location
    case None =>
      s.(dataIsStale := true)
    case Some(loc) =>
      var yaw := GetYaw(s.reverse, nav.yaw);
      var targetBearingCd := geo.bearingToCd(loc, nextWp);
      var g := WaypointGroundTrack(t, nav, yaw);
      var abUnit := Normalize(t, TrackDirection(t, geo, prevWp, nextWp, loc, yaw));
      var aAir := geo.distanceNE(prevWp, loc);
      var xtrack := Cross(aAir, abUnit);
      var l1 := WaypointLookahead(t, p, g.speed, distMin, xtrack);
      WaypointLookaheadPositive(t, p, g.speed, distMin, xtrack);
      var steer := WaypointSteer(t, g.velocity, aAir, abUnit, xtrack, l1);
      var guarded := s.(targetBearingCd := targetBearingCd);
      var nu := PreventIndecision(guarded, nav.yawSensorCd, steer.nu);
      GuardKeepsTurnDirection(guarded, nav.yawSensorCd, steer.nu);
      var nuClamped := Constrain(nu, -WAYPOINT_NU_LIMIT, WAYPOINT_NU_LIMIT);
      s.(targetBearingCd := targetBearingCd,
         crosstrackError := xtrack,
         l1Dist := l1,
         navBearing := steer.navBearing,
         lastNu := nu,
         latAccDem := WaypointLatAccel(p, g.speed, l1, t.sin(nuClamped)),
         wpCircle := false,
         bearingError := nuClamped,
         dataIsStale := false)
  }

  // ---------------------------------------------------------------------------
  // update_loiter

  /** The look-ahead vector of the loiter law: from the aircraft (at `centerVec`
      relative to the centre) to the point on the circle of radius `r` that lies
      the angle subtended by a chord of length `lDist` ahead of the aircraft's
      own angular position, in direction `direction`. */
  function LoiterL1Vector(t: Trig, centerVec: Vec2, r: real, lDist: real, direction: int): Vec2
    requires r != 0.0
  {
    var sigmaQ := t.atan2(centerVec.y, centerVec.x);
    var sigmaZero := 2.0 * t.asin(lDist / (2.0 * r));
    var sigmaT := sigmaQ + sigmaZero * direction as real;
    var target := Scale(Vec2(t.cos(sigmaT), t.sin(sigmaT)), r);
    Sub(target, centerVec)
  }

  /** What the loiter law needs and does not check: a non-zero scaled radius,
      an asin argument in [-1, 1], and a non-zero look-ahead vector. */
  predicate LoiterGeometryDefined(t: Trig, geo: Geodesy, p: Params, nav: NavInputs, loc: Location,
                                  center: Location, radius: real, direction: int) {
    var r := LoiterRadius(t, p, nav, Abs(radius));
    && r != 0.0
    && -1.0 <= p.lDist / (2.0 * r) <= 1.0
    && Length(t, LoiterL1Vector(t, geo.relativePos(loc, center), r, p.lDist, direction)) != 0.0
  }

  /** Ground speed floored at 1 m/s; the velocity itself is kept. */
  function LoiterGroundSpeed(t: Trig, nav: NavInputs): (v: real)
    ensures v >= MIN_LOITER_GROUND_SPEED
    ensures v >= Length(t, nav.groundVelocity)
    ensures v == Length(t, nav.groundVelocity) || v == MIN_LOITER_GROUND_SPEED
  {
    Max(Length(t, nav.groundVelocity), MIN_LOITER_GROUND_SPEED)
  }

  /** The loiter law's turn angle before the guard: from the ground velocity
      towards the look-ahead point on the circle. */
  function LoiterTurnAngle(t: Trig, geo: Geodesy, p: Params, nav: NavInputs, loc: Location,
                           center: Location, radius: real, direction: int): real
    requires LoiterGeometryDefined(t, geo, p, nav, loc, center, radius, direction)
  {
    var r := LoiterRadius(t, p, nav, Abs(radius));
    var l1 := LoiterL1Vector(t, geo.relativePos(loc, center), r, p.lDist, direction);
    TurnAngle(t, nav.groundVelocity, Neg(Normalize(t, l1)))
  }

  /** update_loiter: circle `center` at the altitude-scaled radius. Without a
      position fix only the stale flag is set; otherwise only the previous turn
      angle, the acceleration demand and the stale flag change. */
  function UpdateLoiter(t: Trig, geo: Geodesy, p: Params, nav: NavInputs, s: L1State,
                        center: Location, radius: real, direction: int): (s': L1State)
    requires nav.location.Some? ==> LoiterGeometryDefined(t, geo, p, nav, nav.location.value, center, radius, direction)
    ensures nav.location.None? ==> s' == s.(dataIsStale := true)
    ensures nav.location.Some? ==> s' == s.(lastNu := s'.lastNu, latAccDem := s'.latAccDem, dataIsStale := false)
    ensures nav.location.Some? ==>
              s'.lastNu == PreventIndecision(s, nav.yawSensorCd,
                                             LoiterTurnAngle(t, geo, p, nav, nav.location.value, center, radius, direction))
    ensures nav.location.Some? ==>
              KeepsTurnDirection(s.lastNu, s'.lastNu, s.targetBearingCd, YawSensorCd(s.reverse, nav.yawSensorCd))
    ensures nav.location.Some? ==>
              var r := LoiterRadius(t, p, nav, Abs(radius));
              var l1 := LoiterL1Vector(t, geo.relativePos(nav.location.value, center), r, p.lDist, direction);
              var speed := LoiterGroundSpeed(t, nav);
              s'.latAccDem == 2.0 * speed * speed / Length(t, l1) * t.sin(Constrain(s'.lastNu, -HALF_PI, HALF_PI))
  {
    var r := LoiterRadius(t, p, nav, Abs(radius));
    match nav.location
    case None =>
      s.(dataIsStale := true)
    case Some(loc) =>
      var speed := LoiterGroundSpeed(t, nav);
      var centerVec := geo.relativePos(loc, center);
      var l1 := LoiterL1Vector(t, centerVec, r, p.lDist, direction);
      var nuRaw := LoiterTurnAngle(t, geo, p, nav, loc, center, radius, direction);
      var nu := PreventIndecision(s, nav.yawSensorCd, nuRaw);
      GuardKeepsTurnDirection(s, nav.yawSensorCd, nuRaw);
      var nuClamped := Constrain(nu, -HALF_PI, HALF_PI);
      s.(lastNu := nu,
         latAccDem := 2.0 * speed * speed / Length(t, l1) * t.sin(nuClamped),
         dataIsStale := false)
  }

  // ---------------------------------------------------------------------------
  // update_heading_hold

  /** Centidegrees to radians, as radians(cd * 0.01f). */
  function CentidegreesToRadians(cd: int): (rad: real)
    ensures rad * 18000.0 == cd as real * PI
    ensures -18000 <= cd <= 18000 ==> -PI <= rad <= PI
    ensures cd == 0 ==> rad == 0.0
  {
    Radians(cd as real * 0.01)
  }

  /** The heading error of heading hold, in centidegrees: the wrapped difference
      of the wrapped demand and the wrapped raw AHRS yaw. */
  function HeadingErrorCd(headingCd: int, ahrsYawCd: int): (e: int)
    ensures -18000 <= e <= 18000
    ensures (e - (headingCd - ahrsYawCd)) % 36000 == 0
  {
    var tgt := Wrap180Cd(headingCd);
    var yaw := Wrap180Cd(ahrsYawCd);
    var e := Wrap180Cd(tgt - yaw);
    assert (e - (headingCd - ahrsYawCd)) == (e - (tgt - yaw)) + (tgt - headingCd) - (yaw - ahrsYawCd);
    e
  }

  /** A heading that coincides with the yaw, modulo a full turn, has no error. */
  lemma HeadingErrorZeroWhenAligned(headingCd: int, ahrsYawCd: int)
    ensures (headingCd - ahrsYawCd) % 36000 == 0 ==> HeadingErrorCd(headingCd, ahrsYawCd) == 0
  {
  }

  /** update_heading_hold: steer to the compass heading `headingCd`. The
      look-ahead keeps the loop frequency fixed, the unclamped heading error is
      reported as the bearing error, and the previous turn angle is untouched. */
  function UpdateHeadingHold(t: Trig, p: Params, nav: NavInputs, s: L1State, headingCd: int): (s': L1State)
    requires p.period != 0.0
    ensures !s'.dataIsStale && !s'.wpCircle && s'.reachedLoiterTargetMs == 0
    ensures s'.crosstrackError == 0.0
    ensures s'.lastNu == s.lastNu && s'.reverse == s.reverse
    ensures -18000 <= s'.targetBearingCd <= 18000 && (s'.targetBearingCd - headingCd) % 36000 == 0
    ensures s'.navBearing == CentidegreesToRadians(headingCd)
    ensures s'.bearingError == CentidegreesToRadians(HeadingErrorCd(headingCd, nav.yawSensorCd))
    ensures -PI <= s'.bearingError <= PI
    ensures (headingCd - nav.yawSensorCd) % 36000 == 0 ==> s'.bearingError == 0.0
    ensures s'.l1Dist * (HEADING_OMEGA_SCALE / p.period) == Length(t, nav.groundVelocity)
    ensures Length(t, nav.groundVelocity) == 0.0 ==> s'.l1Dist == 0.0
    ensures s'.latAccDem == 2.0 * t.sin(Constrain(s'.bearingError, -HALF_PI, HALF_PI))
                              * (Length(t, nav.groundVelocity) * (HEADING_OMEGA_SCALE / p.period))
  {
    var omegaA := HEADING_OMEGA_SCALE / p.period;
    var nuCd := HeadingErrorCd(headingCd, nav.yawSensorCd);
    var nu := CentidegreesToRadians(nuCd);
    HeadingErrorZeroWhenAligned(headingCd, nav.yawSensorCd);
    var speed := Length(t, nav.groundVelocity);
    s.(targetBearingCd := Wrap180Cd(headingCd),
       navBearing := CentidegreesToRadians(headingCd),
       l1Dist := speed / omegaA,
       wpCircle := false,
       reachedLoiterTargetMs := 0,
       crosstrackError := 0.0,
       bearingError := nu,
       latAccDem := 2.0 * t.sin(Constrain(nu, -HALF_PI, HALF_PI)) * (speed * omegaA),
       dataIsStale := false)
  }

  /** Holding the current heading commands no turn. */
  lemma HeadingHoldAlignedCommandsNoTurn(t: Trig, p: Params, nav: NavInputs, s: L1State, headingCd: int)
    requires Sound(t)
    requires p.period != 0.0
    requires (headingCd - nav.yawSensorCd) % 36000 == 0
    ensures UpdateHeadingHold(t, p, nav, s, headingCd).latAccDem == 0.0
  {
  }

  /** The bearing error is stored before the +-pi/2 clamp that only the
      acceleration sees: a demand 120 degrees off the yaw reports 2 pi / 3. */
  lemma HeadingHoldStoresUnclampedError(t: Trig, p: Params, nav: NavInputs, s: L1State)
    requires p.period != 0.0
    requires nav.yawSensorCd == 0
    ensures UpdateHeadingHold(t, p, nav, s, 12000).bearingError > HALF_PI
  {
    assert HeadingErrorCd(12000, 0) == 12000;
  }

  // ---------------------------------------------------------------------------
  // update_level_flight

  /** update_level_flight: hold the wings level on the current heading. Both
      bearings take the AHRS yaw as it is, without the reverse rotation. */
  function UpdateLevelFlight(nav: NavInputs, s: L1State): (s': L1State)
    ensures s'.latAccDem == 0.0 && s'.bearingError == 0.0 && s'.crosstrackError == 0.0
    ensures !s'.dataIsStale && !s'.wpCircle && s'.reachedLoiterTargetMs == 0
    ensures s'.targetBearingCd == nav.yawSensorCd && s'.navBearing == nav.yaw
    ensures s'.lastNu == s.lastNu && s'.l1Dist == s.l1Dist && s'.reverse == s.reverse
  {
    s.(targetBearingCd := nav.yawSensorCd,
       navBearing := nav.yaw,
       bearingError := 0.0,
       crosstrackError := 0.0,
       wpCircle := false,
       reachedLoiterTargetMs := 0,
       latAccDem := 0.0,
       dataIsStale := false)
  }
}
