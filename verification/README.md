# L1 lateral guidance (AP_L1_Control), modelled in Dafny

The L1 controller computes a fixed-wing aircraft's lateral-acceleration demand
once per control tick. It also derives the bank angle that produces that demand
in a balanced turn. The vehicle code calls exactly one of four update entry
points on each tick:

- waypoint tracking along the straight leg A→B;
- loitering around a centre;
- holding a compass heading;
- wings-level flight.

It reads the resulting state through accessors.

This project models that decision and bounding logic. Floats are `real`. The C
library's transcendental functions are uninterpreted. They arrive as a `Trig`
record, and the only facts used about them are in `Numeric.Sound`:

- sin 0 = 0 and atan 0 = 0;
- sin² + cos² = 1;
- sqrt is a non-negative root of a non-negative number;
- cos is positive on ±60°.

The three Location queries arrive the same way, as a `Geodesy` record:

- `get_distance_NE`;
- `get_bearing_to`;
- `get_relative_pos`.

The AHRS and TECS readings of one tick are a `NavInputs` value. A missing
position fix is `None`, and so is a missing TECS.

Modules:

- `Numeric`:
  - the AP_Math constants;
  - min, max and clamp;
  - `wrap_180_cd` over integers and `wrap_PI` over reals;
  - the C++ float-to-int32 conversion (truncation toward zero);
  - `Trig`.
- `Geometry`: `Vector2f` as `Vec2`, plus dot, cross, length and normalise.
- `L1Control`:
  - parameters, inputs and persistent state;
  - the reverse-aware yaw accessors;
  - `nav_roll_cd` and `bearing_error_cd`;
  - both `turn_distance` overloads;
  - `loiter_radius`;
  - `_prevent_indecision`.
- `L1Update`: the four update entry points as pure functions from the old state
  to the new one, split into their stages.
- `L1Guidance`:
  - the choice of entry point per tick, as `Step`;
  - a run of ticks, as `Run`;
  - invariants over runs;
  - worked examples.

Points where the code's behaviour is easy to misread:

- **Waypoint bearing error.** `update_waypoint` stores the Nu clamped to
  ±1.5708 as `_bearing_error` (lines 334 and 350). The unclamped value goes to
  `_last_Nu` (line 331).
- **Heading-hold look-ahead.** `update_heading_hold` sets `_L1_dist` to
  groundSpeed / omegaA with no speed floor, so the look-ahead is 0 at rest
  (line 533). See `L1Guidance.LookaheadPositivityDependsOnEntryPoint`.
- **Raw yaw.** `update_heading_hold` and `update_level_flight` use the raw AHRS
  yaw (`_ahrs.yaw_sensor`, `_ahrs.get_yaw()`), not the reverse-aware
  accessors (lines 523 and 555-556). The reverse flag therefore has no effect on
  them.
- **Unguarded divisions in loiter.** `update_loiter` neither floors nor clamps:
  - the asin argument `_L_dist / (2 * radius)` (line 398);
  - the L1 vector length it divides by (line 465).

  `update_waypoint` does not guard its division by `_L1_dist` (lines 340 and
  344) either. The model makes these conditions `requires`:
  - `L1Update.LookaheadFloorPositive`;
  - `L1Update.LoiterGeometryDefined`;
  - `period != 0` for heading hold.

  Under them the waypoint look-ahead is proved strictly positive.
- **Behind-A example.** In the example of `L1Guidance.WaypointScenarioBehindA`,
  the aircraft is 50 m behind waypoint A with a 40.58 m look-ahead, so it is
  classified as behind A, the case in which the law steers at A (line 303).
- **Look-ahead method.** `update_waypoint` copies `_L_method` into the float
  `L_use` (line 234). It then tests `L_use > 0` for the look-ahead (line 282)
  and `L_use < 1` for the gain (line 336). The model keeps `Params.lMethod` as a
  real and keeps both tests as written, so a value in (0, 1) takes the
  speed-scaled look-ahead and the damping-scaled gain together.

## Model

All source paths are in `libraries/AP_L1_Control/AP_L1_Control.cpp`; the table
gives them in full.

| member | source | states |
|---|---|---|
| L1Control.GetYaw | libraries/AP_L1_Control/AP_L1_Control.cpp:75-81 | Not reversed: the AHRS yaw unchanged. Reversed: an angle in [-pi, pi] that differs from yaw + pi by whole turns. |
| L1Control.YawSensorCd | libraries/AP_L1_Control/AP_L1_Control.cpp:86-92 | Not reversed: the AHRS centidegrees unchanged. Reversed: a value in [-18000, 18000] congruent to yaw + 18000 modulo 36000. |
| L1Control.ReversedYawSensorIsOpposite | libraries/AP_L1_Control/AP_L1_Control.cpp:86-92 | In reverse, the reported yaw is exactly half a turn (18000 cd) from the AHRS yaw. |
| L1Control.NavRollCd | libraries/AP_L1_Control/AP_L1_Control.cpp:98-114 | The bank command is always within [-9000, 9000] centidegrees, whatever the demand and the pitch. |
| L1Control.BankAngleCd | libraries/AP_L1_Control/AP_L1_Control.cpp:109-113 | Inside the ±60° pitch window the cosine is positive, the division is defined, and the result is within ±9000. |
| L1Control.NavRollCdSaturatesPitch | libraries/AP_L1_Control/AP_L1_Control.cpp:109-110 | Pitch beyond ±60° commands the same bank as pitch at ±60°. |
| L1Control.NavRollCdZeroDemand | libraries/AP_L1_Control/AP_L1_Control.cpp:111-113 | Zero lateral demand gives wings level (0 cd) at any pitch. |
| L1Control.BearingErrorCd | libraries/AP_L1_Control/AP_L1_Control.cpp:130-133 | The result is rad·RAD_TO_DEG·100 truncated toward zero: its magnitude is the integer part of that product's magnitude, with the same sign. A bearing error within half a turn reports within ±18000 cd. |
| L1Control.TurnDistance | libraries/AP_L1_Control/AP_L1_Control.cpp:143-147 | The 90° turn distance never exceeds the look-ahead or the EAS2TAS²-scaled radius, and equals one of them. |
| L1Control.TurnDistanceForAngle | libraries/AP_L1_Control/AP_L1_Control.cpp:157-165 | Turns of 90° or more get the full 90° distance. Shallower turns get it in proportion to the angle out of 90°. |
| L1Control.TurnDistanceForAngleIsEven | libraries/AP_L1_Control/AP_L1_Control.cpp:157-165 | Left and right turns of the same size get the same distance. |
| L1Control.TurnDistanceForAngleLandmarks | libraries/AP_L1_Control/AP_L1_Control.cpp:157-165 | 90° gives the full distance, 0° gives 0, and 45° gives half. |
| L1Control.TurnDistanceForAngleMonotone | libraries/AP_L1_Control/AP_L1_Control.cpp:157-165 | With a non-negative 90° distance, the angle-based distance is non-negative, grows with the turn size and never exceeds the 90° distance. |
| L1Control.AngleFractionMonotone | libraries/AP_L1_Control/AP_L1_Control.cpp:164 | The proportional reduction grows with the angle and is the identity at 90°. |
| L1Control.SanitizedBankLimit | libraries/AP_L1_Control/AP_L1_Control.cpp:169-170 | L1_LIM_BANK clamped to [0, 89] degrees: unchanged inside, 0 below, 89 above. |
| L1Control.LoiterRadius | libraries/AP_L1_Control/AP_L1_Control.cpp:167-197 | Each of the three cases: plain EAS2TAS² scaling when bank scaling is off or the sea-level radius exceeds the request; otherwise at least the request and at least the scaled sea-level radius, and equal to one of them. |
| L1Control.LoiterRadiusPlainScaling | libraries/AP_L1_Control/AP_L1_Control.cpp:170-186 | A bank limit of zero or below, or no TECS, gives exactly radius × EAS2TAS². |
| L1Control.LoiterRadiusBankLimitSaturates | libraries/AP_L1_Control/AP_L1_Control.cpp:169-171 | A bank limit above 89° behaves exactly as 89°. |
| L1Control.LoiterRadiusPlainScalingMonotone | libraries/AP_L1_Control/AP_L1_Control.cpp:180-186 | With plain scaling, a larger request never gives a smaller radius. |
| L1Control.LoiterRadiusNeverBelowRequest | libraries/AP_L1_Control/AP_L1_Control.cpp:178-195 | With EAS2TAS ≥ 1, no branch returns less than a non-negative request. |
| L1Control.PreventIndecision | libraries/AP_L1_Control/AP_L1_Control.cpp:209-222 | The result is the new or the previous Nu. It differs from the new one only inside the band and on a sign change. Inside the band, the result turns the same way as the previous Nu. |
| L1Control.PreventIndecisionIdempotent | libraries/AP_L1_Control/AP_L1_Control.cpp:209-222 | Guarding an already guarded Nu changes nothing. |
| L1Control.PreventIndecisionOverridesOnSignFlip | libraries/AP_L1_Control/AP_L1_Control.cpp:212-221 | Inside the band, the guard overrides if and only if the new Nu has the opposite sign to the previous one. |
| L1Control.IndecisionScenario | libraries/AP_L1_Control/AP_L1_Control.cpp:211-221 | +0.99 pi followed by -0.99 pi, with the target more than 120° off the yaw, keeps +0.99 pi. |
| L1Update.WaypointGroundTrack | libraries/AP_L1_Control/AP_L1_Control.cpp:249-255 | The speed used is at least 0.1 m/s and is the length of the velocity used. At or above it, the measured velocity and speed are kept. Below it, the velocity is a 0.1 m/s vector along the reverse-aware yaw and the speed is exactly 0.1. |
| L1Update.TrackDirection | libraries/AP_L1_Control/AP_L1_Control.cpp:262-273 | The track vector is never shorter than 1e-6, so normalising it is defined. It is the A→B leg when that is long enough; otherwise the aircraft→B line when that is long enough; otherwise the unit heading. |
| L1Update.WaypointLookahead | libraries/AP_L1_Control/AP_L1_Control.cpp:282-288 | Method positive: at least dist_min and at least damping·period·speed/pi, and equal to one of them. Otherwise: the non-negative root of L_dist² + crosstrack², hence at least \|L_dist\| and at least \|crosstrack\|. |
| L1Update.WaypointLookaheadPositive | libraries/AP_L1_Control/AP_L1_Control.cpp:249-288 | With the 0.1 m/s speed floor and a non-degenerate parameter set, the look-ahead is strictly positive. |
| L1Update.SineNu1 | libraries/AP_L1_Control/AP_L1_Control.cpp:321-323 | sin(Nu1) is the crosstrack ratio (over the look-ahead floored at 0.1 m) saturated at ±0.7071: the ratio itself inside the limit, -0.7071 below it, +0.7071 above it. |
| L1Update.GuardKeepsTurnDirection | libraries/AP_L1_Control/AP_L1_Control.cpp:330-331 | The guarded Nu, recorded as the next previous Nu, never turns opposite to the previous one while both point nearly straight back with the target over 120° off. |
| L1Update.UpdateWaypoint | libraries/AP_L1_Control/AP_L1_Control.cpp:225-353 | No fix: only the stale flag is set. With a fix: target bearing to B; not stale, not circling; reverse and the loiter timer untouched; crosstrack error is A→aircraft crossed with the unit track; look-ahead computed from that crosstrack, positive and above its floor; nav bearing from the steering law; the recorded Nu is the guard applied to the steering law's Nu with the new target bearing; bearing error is that Nu clamped to ±1.5708; the guard keeps the turn direction; acceleration from the clamped error and the look-ahead. |
| L1Update.LoiterGroundSpeed | libraries/AP_L1_Control/AP_L1_Control.cpp:387 | The loiter speed is the larger of the measured ground speed and 1 m/s. |
| L1Update.UpdateLoiter | libraries/AP_L1_Control/AP_L1_Control.cpp:357-506 | No fix: only the stale flag is set. With a fix: only the previous Nu, the demand and the stale flag change; the recorded Nu is the guard applied to the turn angle towards the look-ahead point; the guard keeps the turn direction; demand = 2V²/\|L1\|·sin of the recorded Nu clamped to ±pi/2. |
| L1Update.CentidegreesToRadians | libraries/AP_L1_Control/AP_L1_Control.cpp:521-525 | The conversion is exact: rad·18000 = cd·pi. Centidegrees within ±18000 give radians within ±pi, and 0 gives 0. |
| L1Update.HeadingErrorCd | libraries/AP_L1_Control/AP_L1_Control.cpp:520-524 | The heading error lies in [-18000, 18000] and is congruent to demand minus yaw modulo a full turn. |
| L1Update.HeadingErrorZeroWhenAligned | libraries/AP_L1_Control/AP_L1_Control.cpp:520-524 | A demand equal to the yaw modulo 360° has zero error. |
| L1Update.UpdateHeadingHold | libraries/AP_L1_Control/AP_L1_Control.cpp:510-549 | Not stale or circling; timer and crosstrack zeroed; previous Nu and reverse untouched; target is the wrapped demand; nav bearing is the unwrapped demand in radians; bearing error is the unclamped heading error in radians, within ±pi and 0 when aligned; look-ahead times omegaA equals the ground speed, so 0 at rest; demand 2·sin(error clamped to ±pi/2)·V·omegaA. |
| L1Update.HeadingHoldStoresUnclampedError | libraries/AP_L1_Control/AP_L1_Control.cpp:523-546 | A demand 120° off the yaw stores a bearing error above pi/2: the ±pi/2 clamp applies only to the acceleration. |
| L1Update.HeadingHoldAlignedCommandsNoTurn | libraries/AP_L1_Control/AP_L1_Control.cpp:520-546 | Holding the current heading commands zero lateral acceleration. |
| L1Update.UpdateLevelFlight | libraries/AP_L1_Control/AP_L1_Control.cpp:552-567 | Demand, bearing error and crosstrack are exactly 0; not stale or circling; timer reset; both bearings are the raw AHRS yaw; previous Nu, look-ahead and reverse untouched. |
| L1Guidance.Step | libraries/AP_L1_Control/AP_L1_Control.cpp:225-567 | The stale flag is set exactly when waypoint or loiter runs without a fix, and then nothing else changes. Reverse is never written. Consistency (bearing error within ±pi, not circling) is preserved. |
| L1Guidance.RunPreservesConsistency | libraries/AP_L1_Control/AP_L1_Control.cpp:225-567 | After any number of ticks from a consistent state, the state is consistent (so `reached_loiter_target` stays false) and reverse is unchanged. |
| L1Guidance.RunStaleFlagReportsLastTick | libraries/AP_L1_Control/AP_L1_Control.cpp:237-241 | After a non-empty run, the stale flag is set if and only if the last tick was a waypoint or loiter update without a fix. |
| L1Guidance.RunWithoutFixHoldsState | libraries/AP_L1_Control/AP_L1_Control.cpp:378-382 | Any run of fix-less waypoint and loiter ticks leaves every field but the stale flag as it was. |
| L1Guidance.LookaheadPositivityDependsOnEntryPoint | libraries/AP_L1_Control/AP_L1_Control.cpp:530-533 | At zero ground speed, the waypoint look-ahead is positive but the heading-hold look-ahead is 0. |
| L1Guidance.LevelFlightIgnoresReverse | libraries/AP_L1_Control/AP_L1_Control.cpp:555-556 | Level flight writes the same state whether reversed or not, apart from the flag itself. |
| L1Guidance.HeadingHoldIgnoresReverse | libraries/AP_L1_Control/AP_L1_Control.cpp:523 | Heading hold writes the same state whether reversed or not, apart from the flag itself. |
| L1Guidance.WaypointScenarioBehindA | libraries/AP_L1_Control/AP_L1_Control.cpp:282-312 | Period 17, damping 0.75 and 10 m/s give a 40.58451225 m look-ahead. An aircraft 50 m straight behind A is classified as behind A. |

## Left out

- **Parameter table.** The `var_info` parameter table and its defaults (lines
  7-61) are not modelled. Parameters are a plain `Params` value.
- **Float precision.** Single-precision rounding, NaN and infinity are not
  modelled: arithmetic is over the reals. `constrain_float`'s NaN branch has no
  counterpart.
- **Transcendental and square-root functions.** These are uninterpreted
  beyond the facts in `Numeric.Sound`. Properties that depend on their actual
  values (the sign of `atan2`, the exact bank angle) are not stated.
- **Geodesy.** `Location::get_distance_NE`, `get_bearing_to` and
  `get_relative_pos` are caller-supplied functions. Their geometry is not
  modelled.
- **Dead code.** The commented-out loiter capture/circle blend (lines 412-432
  and 441-504) is not modelled, since it is commented out. As a result no live
  path sets `_WPcircle`.
- **Simple field readers.** `lateral_acceleration`, `reached_loiter_target` and
  `target_bearing_cd` are not separate members: they read a state field,
  optionally through `wrap_180_cd`.
- **`nav_bearing_cd`.** Not modelled (lines 125-128). It applies the float
  overload of `wrap_180_cd` to a float before the int32 conversion, and the
  model has only the integer wrap.
- **Integer widths.** int32 and int8 widths are not modelled. Centidegree
  values stay far from the int32 limits, and the loiter direction is any
  integer.
- **Concurrency.** Concurrent readers of the accessors are not modelled.
- **Time.** The loiter timer is set only to 0 by these entry points, so time
  does not appear.
- L1Update.UpdateWaypoint: does not state the direction of the commanded turn,
  because Nu and the reference bearing come from `atan2` and `asin`, which are
  uninterpreted.
- L1Update.UpdateLoiter: does not state the direction of the commanded turn,
  for the same reason.
