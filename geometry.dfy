/**
 * Plane geometry shared by every entity: raylib's Vector2, the trigonometry
 * and square root the game calls (injected, not interpreted), the circle
 * overlap test and the screen-edge teleport `WrapPosition`.
 */
module Geometry {

  /** raylib's Vector2; single-precision floats are modelled as reals. */
  datatype Vec = Vec(x: real, y: real)

  const ORIGIN: Vec := Vec(0.0, 0.0)

  function Add(a: Vec, b: Vec): Vec { Vec(a.x + b.x, a.y + b.y) }

  function Sub(a: Vec, b: Vec): Vec { Vec(a.x - b.x, a.y - b.y) }

  function Scale(v: Vec, k: real): Vec { Vec(v.x * k, v.y * k) }

  function Neg(v: Vec): Vec { Vec(-v.x, -v.y) }

  /** Squared Euclidean length. */
  function LenSq(v: Vec): real { v.x * v.x + v.y * v.y }

  function DistSq(a: Vec, b: Vec): real { LenSq(Sub(a, b)) }

  /**
   * The C library's cos, sin, sqrt and atan2. The model does not interpret
   * them: every operation that needs them receives this record. Angles are in
   * degrees, so the source's DEG2RAD and RAD2DEG conversions are folded in.
   */
  datatype Math = Math(
    cosDeg: real -> real,
    sinDeg: real -> real,
    sqrt: real -> real,
    atan2Deg: (real, real) -> real)

  /** The vector of length `len` at heading `deg`: (cos(deg)*len, sin(deg)*len). */
  function Polar(m: Math, deg: real, len: real): Vec {
    Vec(m.cosDeg(deg) * len, m.sinDeg(deg) * len)
  }

  /** The trigonometric law cos(a + 180) = -cos(a), sin(a + 180) = -sin(a), at one angle. */
  predicate HalfTurnLaw(m: Math, deg: real) {
    m.cosDeg(deg + 180.0) == -m.cosDeg(deg) && m.sinDeg(deg + 180.0) == -m.sinDeg(deg)
  }

  /** Headings half a turn apart give opposite vectors of the same length. */
  lemma OppositeHeadings(m: Math, deg: real, len: real)
    requires HalfTurnLaw(m, deg)
    ensures Polar(m, deg + 180.0, len) == Neg(Polar(m, deg, len))
  {
  }

  /**
   * The law atan2 obeys at `d`: the heading it returns, scaled by the length
   * of `d`, gives back `d`.
   */
  predicate BearingLaw(m: Math, d: Vec) {
    var len := m.sqrt(LenSq(d));
    var deg := m.atan2Deg(d.y, d.x);
    0.0 < len && m.cosDeg(deg) * len == d.x && m.sinDeg(deg) * len == d.y
  }

  /** `m.sqrt` is exact at `x`. */
  predicate ExactRootAt(m: Math, x: real) {
    0.0 <= m.sqrt(x) && m.sqrt(x) * m.sqrt(x) == x
  }

  /**
   * raylib's CheckCollisionCircles: two discs touch or overlap when the
   * squared distance of their centres is at most the squared sum of radii.
   */
  predicate Overlap(c1: Vec, r1: real, c2: Vec, r2: real) {
    DistSq(c1, c2) <= (r1 + r2) * (r1 + r2)
  }

  /**
   * `p` is at least `d` away from `q`: the negation of
   * `Vector2Distance(p, q) < d` for an exact square root and d >= 0.
   */
  predicate FarFrom(p: Vec, q: Vec, d: real) {
    DistSq(p, q) >= d * d
  }

  lemma LenSqAtLeastX(v: Vec, d: real)
    requires 0.0 <= d && (d <= v.x || v.x <= -d)
    ensures LenSq(v) >= d * d
  {
  }

  /** Points at least `d` apart horizontally are at least `d` apart. */
  lemma FarAlongX(p: Vec, q: Vec, d: real)
    requires 0.0 <= d && (d <= p.x - q.x || d <= q.x - p.x)
    ensures FarFrom(p, q, d)
  {
    LenSqAtLeastX(Sub(p, q), d);
  }

  predicate InBounds(p: Vec, width: real, height: real) {
    0.0 <= p.x <= width && 0.0 <= p.y <= height
  }

  /**
   * One coordinate of the edge teleport: below 0 it jumps to the far edge,
   * beyond the far edge it jumps to 0, otherwise it stays.
   */
  function WrapCoord(c: real, extent: real): (r: real)
    ensures 0.0 <= extent ==> 0.0 <= r <= extent
    ensures 0.0 <= c <= extent ==> r == c
  {
    if c < 0.0 then extent else if c > extent then 0.0 else c
  }

  /** Wrapping a coordinate that was already wrapped changes nothing, for every extent. */
  lemma WrapCoordIdempotent(c: real, extent: real)
    ensures WrapCoord(WrapCoord(c, extent), extent) == WrapCoord(c, extent)
  {
  }

  /**
   * WrapPosition: the four tests run one after the other, as in the source;
   * the result is the coordinate-wise WrapCoord, lies on the screen when the
   * extents are non-negative and is a fixed point of a second wrap.
   */
  method WrapPosition(p: Vec, width: real, height: real) returns (q: Vec)
    ensures q == Vec(WrapCoord(p.x, width), WrapCoord(p.y, height))
    ensures 0.0 <= width && 0.0 <= height ==> InBounds(q, width, height)
    ensures WrapCoord(q.x, width) == q.x && WrapCoord(q.y, height) == q.y
  {
    q := p;
    if q.x < 0.0 { q := q.(x := width); }
    if q.x > width { q := q.(x := 0.0); }
    if q.y < 0.0 { q := q.(y := height); }
    if q.y > height { q := q.(y := 0.0); }
  }

  /** The wrap as a value, for use in specifications. */
  function Wrapped(p: Vec, width: real, height: real): Vec {
    Vec(WrapCoord(p.x, width), WrapCoord(p.y, height))
  }
}
