/** Planar North-East vectors (AP_Math's Vector2f) and the geodetic points the
    guidance law is handed. Geodesy itself is not modelled: the three Location
    queries the law makes are supplied by the caller as a `Geodesy` record. */
module Geometry {
  import opened Numeric

  /** A 2-D vector in metres or metres per second; `x` is North, `y` is East. */
  datatype Vec2 = Vec2(x: real, y: real)

  function Sub(a: Vec2, b: Vec2): Vec2 {
    Vec2(a.x - b.x, a.y - b.y)
  }

  function Neg(a: Vec2): Vec2 {
    Vec2(-a.x, -a.y)
  }

  function Scale(a: Vec2, k: real): Vec2 {
    Vec2(a.x * k, a.y * k)
  }

  /** Vector2f's `*` between two vectors. */
  function Dot(a: Vec2, b: Vec2): real {
    a.x * b.x + a.y * b.y
  }

  /** Vector2f's `%`: the z-component of the 3-D cross product. */
  function Cross(a: Vec2, b: Vec2): real {
    a.x * b.y - a.y * b.x
  }

  function SquaredLength(a: Vec2): (q: real)
    ensures q >= 0.0
  {
    a.x * a.x + a.y * a.y
  }

  function Length(t: Trig, a: Vec2): real {
    t.sqrt(SquaredLength(a))
  }

  /** Vector2f::normalized(); the division is unguarded in AP_Math, so a
      zero-length argument is excluded here. */
  function Normalize(t: Trig, a: Vec2): (u: Vec2)
    requires Length(t, a) != 0.0
  {
    Vec2(a.x / Length(t, a), a.y / Length(t, a))
  }

  /** The unit vector along `yaw` (radians from North). */
  function Heading(t: Trig, yaw: real): Vec2 {
    Vec2(t.cos(yaw), t.sin(yaw))
  }

  /** Every heading vector has length one. */
  lemma HeadingIsUnit(t: Trig, yaw: real)
    requires Sound(t)
    ensures Length(t, Heading(t, yaw)) == 1.0
  {
    assert SquaredLength(Heading(t, yaw)) == t.cos(yaw) * t.cos(yaw) + t.sin(yaw) * t.sin(yaw);
    SqrtOne(t);
  }

  /** Scaling a heading vector by a non-negative factor gives a vector of that
      length. */
  lemma HeadingScaledLength(t: Trig, yaw: real, k: real)
    requires Sound(t)
    requires k >= 0.0
    ensures Length(t, Scale(Heading(t, yaw), k)) == k
  {
    var c := t.cos(yaw);
    var sn := t.sin(yaw);
    var v := Scale(Heading(t, yaw), k);
    assert c * c + sn * sn == 1.0;
    var kk := k * k;
    assert SquaredLength(v) == (c * c + sn * sn) * kk;
    assert SquaredLength(v) == kk;
    SqrtOfSquare(t, k);
    assert Length(t, v) == t.sqrt(SquaredLength(v));
  }

  /** A geodetic point; its fields are never read by the guidance law itself. */
  datatype Location = Location(lat: int, lng: int, alt: int)

  /** The Location queries the guidance law makes, supplied by the caller:
      Location::get_distance_NE, Location::get_bearing_to (centidegrees) and the
      relative position of the aircraft to a loiter centre. */
  datatype Geodesy = Geodesy(
    distanceNE: (Location, Location) -> Vec2,
    bearingToCd: (Location, Location) -> int,
    relativePos: (Location, Location) -> Vec2)
}
