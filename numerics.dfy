/** The floating-point library routines the morphology code calls
    (`np.linalg.norm`, `np.sqrt`, `np.sin`, `np.cos`, `np.arctan2`) and the
    spherical-coordinate conversion built from them. The routines are not
    computed here: they are a parameter, and `Sound` lists the laws of real
    arithmetic and trigonometry that the rest of the model relies on. */
module Numerics {
  import opened Vectors

  datatype Math = Math(
    norm: Point -> real,          // np.linalg.norm of one row
    sqrt: real -> real,           // np.sqrt
    sin: real -> real,            // np.sin
    cos: real -> real,            // np.cos
    atan2: (real, real) -> real)  // np.arctan2(y, x)

  /** Angle of a displacement in the XY plane. */
  function Azimuth(m: Math, d: Point): real {
    m.atan2(d.y, d.x)
  }

  /** Angle of a displacement down from the Z axis. */
  function Polar(m: Math, d: Point): real {
    m.atan2(m.sqrt(d.x * d.x + d.y * d.y), d.z)
  }

  /** The conversion `spherical_to_cartesian(r, theta, phi)`; a zero radius
      gives the origin whatever the angles. */
  function SphericalToCartesian(m: Math, r: real, theta: real, phi: real): (p: Point)
    ensures r == 0.0 ==> p == Zero()
  {
    Point(r * m.sin(phi) * m.cos(theta), r * m.sin(phi) * m.sin(theta), r * m.cos(phi))
  }

  /** Radius s converted back with the two angles of displacement d. */
  function Reconvert(m: Math, s: real, d: Point): Point {
    SphericalToCartesian(m, s, Azimuth(m, d), Polar(m, d))
  }

  /** The laws the model assumes of the library routines:
      - the norm behaves as the Euclidean one: non-negative, zero exactly at
        the origin, and scaling a displacement by t >= 0 scales its norm by t;
      - `arctan2(0, 0) == 0` and `sqrt(0) == 0`, so a zero-length segment
        gets both angles 0;
      - converting the two angles of a non-zero displacement d back with a
        radius s yields d stretched to length s, that is (s / |d|) * d. */
  ghost predicate Sound(m: Math) {
    && (forall d :: 0.0 <= m.norm(d))
    && m.norm(Zero()) == 0.0
    && (forall d :: d != Zero() ==> 0.0 < m.norm(d))
    && (forall t, d :: 0.0 <= t ==> m.norm(Scale(t, d)) == t * m.norm(d))
    && m.sqrt(0.0) == 0.0
    && m.atan2(0.0, 0.0) == 0.0
    && (forall s, d {:trigger Reconvert(m, s, d)} :: d != Zero() ==>
          Reconvert(m, s, d) == Scale(s / m.norm(d), d))
  }

  /** The norm is zero exactly for a zero displacement. */
  lemma NormZero(m: Math, d: Point)
    requires Sound(m)
    ensures 0.0 <= m.norm(d)
    ensures m.norm(d) == 0.0 <==> d == Zero()
  {
  }

  /** A zero displacement gets both angles 0 (the `arctan2(0, 0)` convention). */
  lemma ZeroAngles(m: Math)
    requires Sound(m)
    ensures Azimuth(m, Zero()) == 0.0 && Polar(m, Zero()) == 0.0
  {
  }

  /** Converting a radius o shorter than a displacement d, with the angles of
      d, gives the point a fraction o / |d| of the way along d, at distance o. */
  lemma StepAlong(m: Math, d: Point, o: real)
    requires Sound(m) && 0.0 <= o < m.norm(d)
    ensures 0.0 <= o / m.norm(d) < 1.0
    ensures SphericalToCartesian(m, o, Azimuth(m, d), Polar(m, d)) == Scale(o / m.norm(d), d)
    ensures m.norm(Scale(o / m.norm(d), d)) == o
  {
    assert d != Zero();
    assert Reconvert(m, o, d) == Scale(o / m.norm(d), d);
    var t := o / m.norm(d);
    StepFraction(o, m.norm(d));
    assert m.norm(Scale(t, d)) == t * m.norm(d);
  }

  /** A point q reached by stepping o along d from p lies a fraction t in
      [0, 1) of the way along d, at distance o from p. */
  lemma StepFrom(m: Math, q: Point, p: Point, d: Point, o: real) returns (t: real)
    requires q == Add(p, SphericalToCartesian(m, o, Azimuth(m, d), Polar(m, d)))
    requires Sound(m)
    requires 0.0 <= o < m.norm(d)
    ensures 0.0 <= t < 1.0
    ensures q == Add(p, Scale(t, d))
    ensures m.norm(Sub(q, p)) == o
  {
    t := o / m.norm(d);
    StepAlong(m, d, o);
    SubAdd(p, Scale(t, d));
  }

  /** 0 <= o < r gives 0 <= o / r < 1 and (o / r) * r == o. */
  lemma StepFraction(o: real, r: real)
    requires 0.0 <= o < r
    ensures 0.0 <= o / r < 1.0
    ensures (o / r) * r == o
  {
  }
}
