/** Scalar helpers the guidance law is written in: the AP_Math constants it uses,
    min/max/clamp, the two angle wraps, the float-to-int32 conversion of the
    centidegree accessors, and the uninterpreted transcendental functions. */
module Numeric {

  const PI: real := 3.141592653589793
  const TWO_PI: real := 6.283185307179586
  const HALF_PI: real := 1.5707963267948966
  const DEG_TO_RAD: real := PI / 180.0
  const RAD_TO_DEG: real := 180.0 / PI
  const GRAVITY_MSS: real := 9.80665
  /** Single-precision machine epsilon, the tolerance of AP_Math's is_zero. */
  const FLT_EPSILON: real := 0.00000011920928955078125

  function Min(a: real, b: real): (r: real)
    ensures r <= a && r <= b
    ensures r == a || r == b
  {
    if a < b then a else b
  }

  function Max(a: real, b: real): (r: real)
    ensures r >= a && r >= b
    ensures r == a || r == b
  {
    if a > b then a else b
  }

  /** AP_Math's sq(). */
  function Sq(x: real): (r: real)
    ensures r >= 0.0
  {
    x * x
  }

  function Abs(x: real): (r: real)
    ensures r >= 0.0
    ensures r == x || r == -x
  {
    if x < 0.0 then -x else x
  }

  function AbsInt(x: int): (r: int)
    ensures r >= 0
    ensures r == x || r == -x
  {
    if x < 0 then -x else x
  }

  /** constrain_float without its NaN branch: NaN does not exist over the reals. */
  function Constrain(x: real, lo: real, hi: real): (r: real)
    requires lo <= hi
    ensures lo <= r <= hi
    ensures lo <= x <= hi ==> r == x
    ensures x < lo ==> r == lo
    ensures x > hi ==> r == hi
  {
    if x < lo then lo else if x > hi then hi else x
  }

  predicate IsZero(x: real) {
    Abs(x) < FLT_EPSILON
  }

  function Radians(deg: real): real {
    deg * DEG_TO_RAD
  }

  function Degrees(rad: real): real {
    rad * RAD_TO_DEG
  }

  /** The implicit float-to-int32 conversion of C++: truncation toward zero. */
  function Truncate(x: real): (n: int)
    ensures AbsInt(n) as real <= Abs(x) < AbsInt(n) as real + 1.0
    ensures x >= 0.0 ==> n >= 0
    ensures x <= 0.0 ==> n <= 0
  {
    if x >= 0.0 then x.Floor else -((-x).Floor)
  }

  /** wrap_180_cd over integer centidegrees: the representative of `a` modulo a
      full turn that lies within half a turn of zero. */
  function Wrap180Cd(a: int): (r: int)
    ensures -18000 <= r <= 18000
    ensures (r - a) % 36000 == 0
  {
    var w := a % 36000;
    if w > 18000 then w - 36000 else w
  }

  /** wrap_PI: the representative of `x` modulo a full turn in (-PI, PI]. */
  function WrapPi(x: real): (r: real)
    ensures -PI <= r <= PI
    ensures exists k: int {:trigger WholeTurns(k)} :: x - r == WholeTurns(k)
  {
    var k := (x / TWO_PI).Floor;
    WholeTurnsDivide(x, k);
    var w := x - WholeTurns(k);
    if w > PI then
      assert x - (w - TWO_PI) == WholeTurns(k + 1);
      w - TWO_PI
    else
      assert x - w == WholeTurns(k);
      w
  }

  function WholeTurns(k: int): real {
    k as real * TWO_PI
  }

  lemma WholeTurnsDivide(x: real, k: int)
    requires k == (x / TWO_PI).Floor
    ensures 0.0 <= x - WholeTurns(k) < TWO_PI
  {
  }

  /** The transcendental functions of the C library, left uninterpreted. */
  datatype Trig = Trig(
    sin: real -> real,
    cos: real -> real,
    tan: real -> real,
    asin: real -> real,
    atan: real -> real,
    atan2: (real, real) -> real,
    sqrt: real -> real)

  /** The pitch window nav_roll_cd clamps to: 60 degrees each way. */
  const PITCH_LIMIT: real := 60.0 * DEG_TO_RAD

  /** The only facts about the transcendental functions this model relies on. */
  ghost predicate Sound(t: Trig) {
    && t.sin(0.0) == 0.0
    && t.atan(0.0) == 0.0
    && (forall x :: t.sin(x) * t.sin(x) + t.cos(x) * t.cos(x) == 1.0)
    && (forall x :: 0.0 <= x ==> 0.0 <= t.sqrt(x) && t.sqrt(x) * t.sqrt(x) == x)
    && (forall x :: -PITCH_LIMIT <= x <= PITCH_LIMIT ==> t.cos(x) > 0.0)
  }

  lemma SqrtOne(t: Trig)
    requires Sound(t)
    ensures t.sqrt(1.0) == 1.0
  {
    var s := t.sqrt(1.0);
    assert s >= 0.0 && s * s == 1.0;
    if s < 1.0 {
      SquareStrictMonotone(s, 1.0);
    } else if s > 1.0 {
      SquareStrictMonotone(1.0, s);
    }
  }

  /** sqrt(a^2 + b^2) is at least |a|: the hypotenuse is no shorter than a leg. */
  lemma SqrtDominatesLeg(t: Trig, a: real, b: real)
    requires Sound(t)
    ensures t.sqrt(Sq(a) + Sq(b)) >= Abs(a)
  {
    var h := t.sqrt(Sq(a) + Sq(b));
    assert 0.0 <= h && h * h == Sq(a) + Sq(b);
    assert Sq(a) == a * a;
    if h < a {
      SquareStrictMonotone(h, a);
    }
    if h < -a {
      SquareStrictMonotone(h, -a);
      assert (-a) * (-a) == a * a;
    }
  }

  /** sqrt undoes squaring on the non-negative reals. */
  lemma SqrtOfSquare(t: Trig, a: real)
    requires Sound(t)
    requires a >= 0.0
    ensures t.sqrt(a * a) == a
  {
    var h := t.sqrt(a * a);
    assert 0.0 <= h && h * h == a * a;
    if h < a {
      SquareStrictMonotone(h, a);
    } else if h > a {
      SquareStrictMonotone(a, h);
    }
  }

  lemma SquareStrictMonotone(a: real, b: real)
    requires 0.0 <= a < b
    ensures a * a < b * b
  {
    var c := b - a;
    var d := b + a;
    assert c > 0.0 && d > 0.0;
    assert c * d > 0.0;
    assert c * d == b * b - a * a;
  }
}
