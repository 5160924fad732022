/** The persistent state of the L1 guidance controller, what it reads from the
    AHRS and TECS each tick, and the pure helpers that read that state: the
    reverse-aware yaw accessors, the bank-angle command, the two turn-distance
    estimators, the loiter-radius scaling and the anti-indecision guard. */
module L1Control {
  import opened Numeric
  import opened Geometry

  datatype Option<T> = None | Some(value: T)

  /** The six tunable parameters: L1_PERIOD (s), L1_DAMPING, L1_XTRACK_I (stored,
      never read by the law), L1_L_DIST (m), L1_L_METHOD (a selector, read as a
      float: a positive value picks the speed-scaled look-ahead, a value below
      one the damping-scaled acceleration gain) and L1_LIM_BANK (degrees). */
  datatype Params = Params(
    period: real,
    damping: real,
    xtrackIGain: real,
    lDist: real,
    lMethod: real,
    loiterBankLimit: real)

  /** What one tick reads from the AHRS and the TECS: yaw in radians and in
      centidegrees, pitch, the position (None when there is no fix), the ground
      velocity, the EAS-to-TAS ratio, and the TECS target airspeed (None when no
      TECS is attached). */
  datatype NavInputs = NavInputs(
    yaw: real,
    yawSensorCd: int,
    pitch: real,
    location: Option<Location>,
    groundVelocity: Vec2,
    eas2tas: real,
    targetAirspeed: Option<real>)

  /** The controller's persistent fields. Angles are in radians except the
      target bearing, which is in integer centidegrees. */
  datatype L1State = L1State(
    latAccDem: real,
    bearingError: real,
    navBearing: real,
    targetBearingCd: int,
    crosstrackError: real,
    l1Dist: real,
    lastNu: real,
    wpCircle: bool,
    dataIsStale: bool,
    reachedLoiterTargetMs: int,
    reverse: bool)

  // ---------------------------------------------------------------------------
  // Yaw accessors

  /** get_yaw: the AHRS yaw, turned half a revolution when flying in reverse. */
  function GetYaw(reverse: bool, ahrsYaw: real): (r: real)
    ensures !reverse ==> r == ahrsYaw
    ensures reverse ==> -PI <= r <= PI
    ensures reverse ==> exists k: int {:trigger WholeTurns(k)} :: (ahrsYaw + PI) - r == WholeTurns(k)
  {
    if reverse then WrapPi(PI + ahrsYaw) else ahrsYaw
  }

  /** get_yaw_sensor: the same rotation in integer centidegrees. */
  function YawSensorCd(reverse: bool, ahrsYawCd: int): (r: int)
    ensures !reverse ==> r == ahrsYawCd
    ensures reverse ==> -18000 <= r <= 18000
    ensures reverse ==> (r - ahrsYawCd - 18000) % 36000 == 0
  {
    if reverse then Wrap180Cd(18000 + ahrsYawCd) else ahrsYawCd
  }

  /** In reverse, the reported yaw points exactly opposite the AHRS yaw. */
  lemma ReversedYawSensorIsOpposite(ahrsYawCd: int)
    ensures AbsInt(Wrap180Cd(YawSensorCd(true, ahrsYawCd) - ahrsYawCd)) == 18000
  {
  }

  // ---------------------------------------------------------------------------
  // Bank-angle command

  /** nav_roll_cd: the bank angle, in centidegrees, of a balanced turn producing
      `latAccDem`, with pitch limited to +-60 degrees so that its cosine stays
      away from zero, and the result limited to +-90 degrees. */
  function NavRollCd(t: Trig, latAccDem: real, pitch: real): (cd: int)
    requires Sound(t)
    ensures -9000 <= cd <= 9000
  {
    BankAngleCd(t, latAccDem, Constrain(pitch, -PITCH_LIMIT, PITCH_LIMIT))
  }

  /** The balanced-turn bank angle at a pitch inside the window, where the
      cosine is positive and the division is defined. */
  function BankAngleCd(t: Trig, latAccDem: real, pitchL1: real): (cd: int)
    requires Sound(t)
    requires -PITCH_LIMIT <= pitchL1 <= PITCH_LIMIT
    ensures -9000 <= cd <= 9000
  {
    var c := t.cos(pitchL1);
    assert c > 0.0;
    var ret := Degrees(t.atan(latAccDem * (1.0 / (GRAVITY_MSS * c)))) * 100.0;
    Truncate(Constrain(ret, -9000.0, 9000.0))
  }

  /** Pitch beyond the 60-degree window has the same effect as the window's edge. */
  lemma NavRollCdSaturatesPitch(t: Trig, latAccDem: real, pitch: real)
    requires Sound(t)
    ensures pitch >= PITCH_LIMIT ==> NavRollCd(t, latAccDem, pitch) == NavRollCd(t, latAccDem, PITCH_LIMIT)
    ensures pitch <= -PITCH_LIMIT ==> NavRollCd(t, latAccDem, pitch) == NavRollCd(t, latAccDem, -PITCH_LIMIT)
  {
  }

  /** No lateral acceleration demanded means wings level. */
  lemma NavRollCdZeroDemand(t: Trig, pitch: real)
    requires Sound(t)
    ensures NavRollCd(t, 0.0, pitch) == 0
  {
  }

  /** bearing_error_cd: the bearing error in centidegrees, the product rad *
      RAD_TO_DEG * 100 truncated to an integer. An error within half a turn
      reports within +-18000. */
  function BearingErrorCd(s: L1State): (cd: int)
    ensures AbsInt(cd) as real <= Abs(s.bearingError * RAD_TO_DEG * 100.0) < AbsInt(cd) as real + 1.0
    ensures -PI <= s.bearingError <= PI ==> -18000 <= cd <= 18000
    ensures s.bearingError >= 0.0 ==> cd >= 0
    ensures s.bearingError <= 0.0 ==> cd <= 0
  {
    Truncate(s.bearingError * RAD_TO_DEG * 100.0)
  }

  // ---------------------------------------------------------------------------
  // Turn-distance estimators

  /** turn_distance(wp_radius): the distance at which a 90-degree turn should
      begin, the radius scaled by EAS2TAS^2 but never more than the look-ahead. */
  function TurnDistance(s: L1State, eas2tas: real, wpRadius: real): (d: real)
    ensures d <= s.l1Dist
    ensures d <= wpRadius * Sq(eas2tas)
    ensures d == s.l1Dist || d == wpRadius * Sq(eas2tas)
  {
    Min(wpRadius * Sq(eas2tas), s.l1Dist)
  }

  /** turn_distance(wp_radius, turn_angle): the 90-degree distance, shortened in
      proportion to the turn angle (degrees) for turns shallower than 90. */
  function TurnDistanceForAngle(s: L1State, eas2tas: real, wpRadius: real, turnAngle: real): (d: real)
    ensures Abs(turnAngle) >= 90.0 ==> d == TurnDistance(s, eas2tas, wpRadius)
    ensures Abs(turnAngle) < 90.0 ==> d == AngleFraction(TurnDistance(s, eas2tas, wpRadius), Abs(turnAngle))
  {
    var distance90 := TurnDistance(s, eas2tas, wpRadius);
    var angle := Abs(turnAngle);
    if angle >= 90.0 then distance90 else AngleFraction(distance90, angle)
  }

  /** `distance` shortened in proportion to `angle` out of 90 degrees. */
  function AngleFraction(distance: real, angle: real): real {
    distance * angle / 90.0
  }

  /** Only the size of the turn matters, not its direction. */
  lemma TurnDistanceForAngleIsEven(s: L1State, eas2tas: real, wpRadius: real, turnAngle: real)
    ensures TurnDistanceForAngle(s, eas2tas, wpRadius, -turnAngle) == TurnDistanceForAngle(s, eas2tas, wpRadius, turnAngle)
  {
  }

  /** A right-angle turn gets the full turn distance, a straight-through waypoint
      none, and a 45-degree turn half of it. */
  lemma TurnDistanceForAngleLandmarks(s: L1State, eas2tas: real, wpRadius: real)
    ensures TurnDistanceForAngle(s, eas2tas, wpRadius, 90.0) == TurnDistance(s, eas2tas, wpRadius)
    ensures TurnDistanceForAngle(s, eas2tas, wpRadius, 0.0) == 0.0
    ensures TurnDistanceForAngle(s, eas2tas, wpRadius, 45.0) == TurnDistance(s, eas2tas, wpRadius) / 2.0
  {
  }

  /** With a non-negative 90-degree distance, a sharper turn never gets a
      shorter turn distance, and no turn gets more than the 90-degree one. */
  lemma TurnDistanceForAngleMonotone(s: L1State, eas2tas: real, wpRadius: real, a: real, b: real)
    requires TurnDistance(s, eas2tas, wpRadius) >= 0.0
    requires Abs(a) <= Abs(b)
    ensures 0.0 <= TurnDistanceForAngle(s, eas2tas, wpRadius, a) <= TurnDistanceForAngle(s, eas2tas, wpRadius, b)
    ensures TurnDistanceForAngle(s, eas2tas, wpRadius, b) <= TurnDistance(s, eas2tas, wpRadius)
  {
    var d := TurnDistance(s, eas2tas, wpRadius);
    AngleFractionMonotone(d, Abs(a), Abs(b));
    AngleFractionMonotone(d, Abs(a), 90.0);
    AngleFractionMonotone(d, Abs(b), 90.0);
  }

  /** AngleFraction(d, x) grows with x on [0, 90] and reaches d at 90. */
  lemma AngleFractionMonotone(d: real, x: real, y: real)
    requires d >= 0.0
    requires 0.0 <= x
    ensures x <= y ==> 0.0 <= AngleFraction(d, x) <= AngleFraction(d, y)
    ensures AngleFraction(d, 90.0) == d
  {
  }

  // ---------------------------------------------------------------------------
  // Loiter radius

  /** L1_LIM_BANK limited to [0, 89] degrees. */
  function SanitizedBankLimit(p: Params): (deg: real)
    ensures 0.0 <= deg <= 89.0
    ensures 0.0 <= p.loiterBankLimit <= 89.0 ==> deg == p.loiterBankLimit
    ensures p.loiterBankLimit < 0.0 ==> deg == 0.0
    ensures p.loiterBankLimit > 89.0 ==> deg == 89.0
  {
    Constrain(p.loiterBankLimit, 0.0, 89.0)
  }

  /** The lateral acceleration the bank limit allows at sea level. */
  function SeaLevelLateralAccel(t: Trig, p: Params): real {
    t.tan(Radians(SanitizedBankLimit(p))) * GRAVITY_MSS
  }

  /** The TECS target airspeed, zero when there is no TECS. */
  function NominalAirspeed(nav: NavInputs): real {
    match nav.targetAirspeed
    case None => 0.0
    case Some(v) => v
  }

  /** Bank-limit scaling is off: limit disabled, no airspeed target, or no
      lateral acceleration available. */
  predicate LoiterBankScalingOff(t: Trig, p: Params, nav: NavInputs) {
    || IsZero(SanitizedBankLimit(p))
    || IsZero(NominalAirspeed(nav))
    || IsZero(SeaLevelLateralAccel(t, p))
  }

  /** The tightest circle the bank limit allows at sea level, v^2 / a. */
  function SeaLevelRadius(t: Trig, p: Params, nav: NavInputs): real
    requires !LoiterBankScalingOff(t, p, nav)
  {
    Sq(NominalAirspeed(nav)) / SeaLevelLateralAccel(t, p)
  }

  /** loiter_radius: the requested radius scaled with altitude. Without a usable
      bank limit, or when the bank limit cannot reach the request even at sea
      level, it is the radius scaled by EAS2TAS^2; otherwise it is the larger of
      the request and the altitude-scaled sea-level radius. */
  function LoiterRadius(t: Trig, p: Params, nav: NavInputs, radius: real): (r: real)
    ensures LoiterBankScalingOff(t, p, nav) ==> r == radius * Sq(nav.eas2tas)
    ensures !LoiterBankScalingOff(t, p, nav) && SeaLevelRadius(t, p, nav) > radius ==>
              r == radius * Sq(nav.eas2tas)
    ensures !LoiterBankScalingOff(t, p, nav) && SeaLevelRadius(t, p, nav) <= radius ==>
              && r >= radius
              && r >= SeaLevelRadius(t, p, nav) * Sq(nav.eas2tas)
              && (r == radius || r == SeaLevelRadius(t, p, nav) * Sq(nav.eas2tas))
  {
    var eas2tasSq := Sq(nav.eas2tas);
    if LoiterBankScalingOff(t, p, nav) then
      radius * eas2tasSq
    else
      var seaLevelRadius := SeaLevelRadius(t, p, nav);
      if seaLevelRadius > radius then radius * eas2tasSq
      else Max(seaLevelRadius * eas2tasSq, radius)
  }

  /** A bank limit of zero or below, or a missing TECS, turns the loiter radius
      into plain altitude scaling. */
  lemma LoiterRadiusPlainScaling(t: Trig, p: Params, nav: NavInputs, radius: real)
    requires p.loiterBankLimit <= 0.0 || nav.targetAirspeed.None?
    ensures LoiterRadius(t, p, nav, radius) == radius * Sq(nav.eas2tas)
  {
  }

  /** Bank limits above 89 degrees behave exactly as 89. */
  lemma LoiterRadiusBankLimitSaturates(t: Trig, p: Params, nav: NavInputs, radius: real)
    requires p.loiterBankLimit >= 89.0
    ensures LoiterRadius(t, p, nav, radius) == LoiterRadius(t, p.(loiterBankLimit := 89.0), nav, radius)
  {
  }

  /** With plain altitude scaling the radius grows with the request. */
  lemma LoiterRadiusPlainScalingMonotone(t: Trig, p: Params, nav: NavInputs, r1: real, r2: real)
    requires LoiterBankScalingOff(t, p, nav)
    requires r1 <= r2
    ensures LoiterRadius(t, p, nav, r1) <= LoiterRadius(t, p, nav, r2)
  {
  }

  /** When true airspeed is at least equivalent airspeed (EAS2TAS >= 1, as at any
      altitude), the loiter radius never shrinks below a non-negative request. */
  lemma LoiterRadiusNeverBelowRequest(t: Trig, p: Params, nav: NavInputs, radius: real)
    requires radius >= 0.0
    requires Sq(nav.eas2tas) >= 1.0
    ensures LoiterRadius(t, p, nav, radius) >= radius
  {
  }

  // ---------------------------------------------------------------------------
  // Anti-indecision guard

  /** |Nu| above which the turn direction is numerically undecided: 0.9 * pi. */
  const NU_INDECISION_LIMIT: real := 0.9 * PI

  /** Both this and the previous turn angle point nearly straight back, and the
      target lies more than 120 degrees off the (reverse-aware) yaw. */
  predicate InIndecisionBand(s: L1State, ahrsYawCd: int, nu: real) {
    && Abs(nu) > NU_INDECISION_LIMIT
    && Abs(s.lastNu) > NU_INDECISION_LIMIT
    && AbsInt(Wrap180Cd(s.targetBearingCd - YawSensorCd(s.reverse, ahrsYawCd))) > 12000
  }

  /** _prevent_indecision: inside the band, keep the previous turn direction. */
  function PreventIndecision(s: L1State, ahrsYawCd: int, nu: real): (r: real)
    ensures r == nu || r == s.lastNu
    ensures r != nu ==> InIndecisionBand(s, ahrsYawCd, nu) && nu * s.lastNu < 0.0
    ensures InIndecisionBand(s, ahrsYawCd, nu) ==> r * s.lastNu > 0.0
  {
    if InIndecisionBand(s, ahrsYawCd, nu) && nu * s.lastNu < 0.0 then
      assert s.lastNu * s.lastNu > 0.0;
      s.lastNu
    else
      nu
  }

  /** Applying the guard to its own output changes nothing. */
  lemma PreventIndecisionIdempotent(s: L1State, ahrsYawCd: int, nu: real)
    ensures PreventIndecision(s, ahrsYawCd, PreventIndecision(s, ahrsYawCd, nu)) == PreventIndecision(s, ahrsYawCd, nu)
  {
  }

  /** The guard overrides exactly when the turn angle changed sign inside the band. */
  lemma PreventIndecisionOverridesOnSignFlip(s: L1State, ahrsYawCd: int, nu: real)
    requires InIndecisionBand(s, ahrsYawCd, nu)
    ensures nu * s.lastNu < 0.0 <==> PreventIndecision(s, ahrsYawCd, nu) == s.lastNu && s.lastNu != nu
  {
  }

  /** Two ticks nearly pointing away from the target: a turn angle of +0.99 pi
      followed by one of -0.99 pi keeps turning the +0.99 pi way. */
  lemma IndecisionScenario(s: L1State, ahrsYawCd: int)
    requires s.lastNu == 0.99 * PI
    requires AbsInt(Wrap180Cd(s.targetBearingCd - YawSensorCd(s.reverse, ahrsYawCd))) > 12000
    ensures PreventIndecision(s, ahrsYawCd, -0.99 * PI) == 0.99 * PI
  {
  }
}
