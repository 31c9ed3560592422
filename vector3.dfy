/** The 3D vector helpers of projections.js (lines 42-145): arithmetic on
    Cartesian triples, conversion between lat/lon and points on a sphere of
    the Earth's radius, and the two distances built on them. */
module Vector3 {
  import opened JsMath
  import opened Geo

  /** Meters (projections.js:30). */
  const EARTH_RADIUS: real := 6378100.0

  datatype Vec3 = Vec3(x: real, y: real, z: real)

  const Zero: Vec3 := Vec3(0.0, 0.0, 0.0)

  function Dot3d(a: Vec3, b: Vec3): real {
    a.x * b.x + a.y * b.y + a.z * b.z
  }

  /** The cross product is perpendicular to both of its operands. */
  function Cross3d(a: Vec3, b: Vec3): (r: Vec3)
    ensures Dot3d(a, r) == 0.0 && Dot3d(b, r) == 0.0
  {
    Vec3(a.y * b.z - a.z * b.y,
         a.z * b.x - a.x * b.z,
         a.x * b.y - a.y * b.x)
  }

  function Add3d(a: Vec3, b: Vec3): Vec3 {
    Vec3(a.x + b.x, a.y + b.y, a.z + b.z)
  }

  function Sub3d(a: Vec3, b: Vec3): Vec3 {
    Vec3(a.x - b.x, a.y - b.y, a.z - b.z)
  }

  function Scale3d(a: Vec3, scale: real): Vec3 {
    Vec3(a.x * scale, a.y * scale, a.z * scale)
  }

  /** The midpoint of `a` and `b`: the average of the two, as far from `a` as from `b`. */
  function Bisect3d(a: Vec3, b: Vec3): (r: Vec3)
    ensures r == Scale3d(Add3d(a, b), 0.5)
    ensures Sub3d(r, a) == Sub3d(b, r)
  {
    Vec3((a.x + b.x) / 2.0, (a.y + b.y) / 2.0, (a.z + b.z) / 2.0)
  }

  /** The Euclidean length: zero for the zero vector and positive for every other. */
  function Length3d(m: MathLib, a: Vec3): (r: real)
    ensures a == Zero ==> r == 0.0
    ensures a != Zero ==> r > 0.0
  {
    SumOfSquares(a);
    m.sqrt(a.x * a.x + a.y * a.y + a.z * a.z)
  }

  /** Scales `a` by one over its length. For the zero vector the source divides
      by zero; the model returns the zero vector there. The result always points
      the way `a` does: it is parallel to `a` and never against it. */
  function Normalize3d(m: MathLib, a: Vec3): (n: Vec3)
    ensures Cross3d(a, n) == Zero
    ensures Dot3d(a, n) >= 0.0
    ensures a == Zero ==> n == Zero
    ensures a != Zero ==> n != Zero
  {
    var len := Length3d(m, a);
    if len == 0.0 then a
    else
      PositiveScaling(a, 1.0 / len);
      Scale3d(a, 1.0 / len)
  }

  /** The point at latitude `vert.lat` and longitude `vert.lon` on the sphere of
      radius EARTH_RADIUS around the origin. */
  function LatLonTo3d(m: MathLib, vert: LatLon): (r: Vec3)
    ensures Dot3d(r, r) == EARTH_RADIUS * EARTH_RADIUS
  {
    var sinTheta := m.sin(vert.lon * m.pi / 180.0);
    var cosTheta := m.cos(vert.lon * m.pi / 180.0);
    var sinPhi := m.sin(vert.lat * m.pi / 180.0);
    var cosPhi := m.cos(vert.lat * m.pi / 180.0);
    var r := Vec3(EARTH_RADIUS * cosTheta * cosPhi,
                  EARTH_RADIUS * sinTheta * cosPhi,
                  EARTH_RADIUS * sinPhi);
    OnSphere(EARTH_RADIUS, sinTheta, cosTheta, sinPhi, cosPhi);
    r
  }

  /** The latitude and longitude of the direction of `a`. The latitude is
      within [-90, 90]; the longitude is 0 unless |latitude| < 90, so at the
      poles it is 0. */
  function LatLonFrom3d(m: MathLib, a: Vec3): (p: LatLon)
    ensures p.OnGlobe()
    ensures !(Abs(p.lat) < 90.0) ==> p.lon == 0.0
  {
    LatLonOfUnit(m, Normalize3d(m, a))
  }

  /** The part of LatLonFrom3d after normalizing. */
  function LatLonOfUnit(m: MathLib, n: Vec3): (p: LatLon)
    ensures p.OnGlobe()
    ensures !(Abs(p.lat) < 90.0) ==> p.lon == 0.0
  {
    var lat0 := m.asin(n.z) * 180.0 / m.pi;
    DegreesOfQuarterTurn(m, m.asin(n.z));
    var lat := if lat0 > 90.0 then lat0 - 180.0 else lat0;
    var lon := if Abs(lat) < 90.0 then m.atan2(n.y, n.x) * 180.0 / m.pi else 0.0;
    LatLon(lat, lon)
  }

  /** The signed perpendicular distance from `c` to the line through `a` and
      `b`: zero when the line is shorter than one meter, otherwise as long as
      the cross product over the line length, positive only on the left. */
  function LeftDistance3d(m: MathLib, a: Vec3, b: Vec3, c: Vec3): (d: real)
    ensures Length3d(m, Sub3d(b, a)) < 1.0 ==> d == 0.0
    ensures Length3d(m, Sub3d(b, a)) >= 1.0 ==>
      Abs(d) == Length3d(m, Cross3d(Sub3d(b, a), Sub3d(c, a))) / Length3d(m, Sub3d(b, a))
    ensures d > 0.0 ==> Dot3d(a, Cross3d(Sub3d(b, a), Sub3d(c, a))) > 0.0
    ensures Dot3d(a, Cross3d(Sub3d(b, a), Sub3d(c, a))) > 0.0 ==> d >= 0.0
  {
    var ab := Sub3d(b, a);
    var ac := Sub3d(c, a);
    var cross := Cross3d(ab, ac);
    var dot := Dot3d(a, cross);
    var lineLength := Length3d(m, ab);
    if lineLength < 1.0 then 0.0
    else
      var perpendicularDistance := Length3d(m, cross) / lineLength;
      if dot > 0.0 then perpendicularDistance else -perpendicularDistance
  }

  /** The great-circle distance between two points on the Earth's surface: at
      least zero and at most half the circumference. */
  function EarthDistance3d(m: MathLib, a: Vec3, b: Vec3): (d: real)
    ensures 0.0 <= d <= EARTH_RADIUS * m.pi
  {
    var dot := Dot3d(Normalize3d(m, a), Normalize3d(m, b));
    var angle := m.acos(dot);
    EARTH_RADIUS * angle
  }

  /** Where `Math.sqrt` returns the exact root of the squared length, a
      nonzero vector normalizes to a unit vector. */
  lemma NormalizedUnitLength(m: MathLib, a: Vec3)
    requires a != Zero
    requires Length3d(m, a) * Length3d(m, a) == Dot3d(a, a)
    ensures Dot3d(Normalize3d(m, a), Normalize3d(m, a)) == 1.0
  {
    var len := Length3d(m, a);
    var s := 1.0 / len;
    assert s * len == 1.0;
    var n := Scale3d(a, s);
    assert Dot3d(n, n) == (s * s) * Dot3d(a, a);
    assert (s * s) * (len * len) == (s * len) * (s * len);
  }

  /** Every coordinate of a unit vector is within [-1, 1], so the argument
      latLonFrom3d passes to `Math.asin` is within its domain. */
  lemma UnitCoordinates(n: Vec3)
    requires Dot3d(n, n) == 1.0
    ensures -1.0 <= n.x <= 1.0 && -1.0 <= n.y <= 1.0 && -1.0 <= n.z <= 1.0
  {
    Square(n.x);
    Square(n.y);
    Square(n.z);
    AtMostOne(n.x);
    AtMostOne(n.y);
    AtMostOne(n.z);
  }

  lemma AtMostOne(x: real)
    requires x * x <= 1.0
    ensures -1.0 <= x <= 1.0
  {
    assert (x - 1.0) * (x + 1.0) == x * x - 1.0;
  }

  /** The dot product of two unit vectors is within [-1, 1], so the argument
      earthDistance3d passes to `Math.acos` is within its domain. */
  lemma UnitDotBounded(a: Vec3, b: Vec3)
    requires Dot3d(a, a) == 1.0 && Dot3d(b, b) == 1.0
    ensures -1.0 <= Dot3d(a, b) <= 1.0
  {
    var d := Sub3d(a, b);
    var s := Add3d(a, b);
    SumOfSquares(d);
    SumOfSquares(s);
    assert Dot3d(d, d) == 2.0 - 2.0 * Dot3d(a, b);
    assert Dot3d(s, s) == 2.0 + 2.0 * Dot3d(a, b);
  }

  lemma SumOfSquares(a: Vec3)
    ensures a.x * a.x + a.y * a.y + a.z * a.z >= 0.0
    ensures a == Zero ==> a.x * a.x + a.y * a.y + a.z * a.z == 0.0
    ensures a != Zero ==> a.x * a.x + a.y * a.y + a.z * a.z > 0.0
  {
    var x2, y2, z2 := a.x * a.x, a.y * a.y, a.z * a.z;
    Square(a.x);
    Square(a.y);
    Square(a.z);
  }

  lemma Square(x: real)
    ensures x * x >= 0.0
    ensures x != 0.0 ==> x * x > 0.0
    ensures x == 0.0 ==> x * x == 0.0
  {
    if x < 0.0 {
      var y := -x;
      assert y * y > 0.0;
      assert x * x == y * y;
    } else if x == 0.0 {
      assert x * x == 0.0 * x;
    } else {
      assert x * x > 0.0;
    }
  }

  /** Scaling by a positive factor keeps a vector's direction. */
  lemma PositiveScaling(a: Vec3, s: real)
    requires s > 0.0
    ensures Cross3d(a, Scale3d(a, s)) == Zero
    ensures Dot3d(a, Scale3d(a, s)) >= 0.0
    ensures a == Zero ==> Scale3d(a, s) == Zero
    ensures a != Zero ==> Scale3d(a, s) != Zero
  {
    ParallelCross(a, s);
    SelfDotScaled(a, s);
    ScaledNonZero(a, s);
  }

  lemma ScaledNonZero(a: Vec3, s: real)
    requires s > 0.0
    ensures a == Zero ==> Scale3d(a, s) == Zero
    ensures a != Zero ==> Scale3d(a, s) != Zero
  {
    NonZeroProduct(a.x, s);
    NonZeroProduct(a.y, s);
    NonZeroProduct(a.z, s);
  }

  lemma SelfDotScaled(a: Vec3, s: real)
    requires s > 0.0
    ensures Dot3d(a, Scale3d(a, s)) >= 0.0
  {
    var q := a.x * a.x + a.y * a.y + a.z * a.z;
    SumOfSquares(a);
    assert Dot3d(a, Scale3d(a, s)) == s * q;
  }

  lemma ParallelCross(a: Vec3, s: real)
    ensures Cross3d(a, Scale3d(a, s)) == Zero
  {
    var n := Scale3d(a, s);
    assert a.y * n.z - a.z * n.y == 0.0;
    assert a.z * n.x - a.x * n.z == 0.0;
    assert a.x * n.y - a.y * n.x == 0.0;
  }

  lemma NonZeroProduct(x: real, s: real)
    requires s > 0.0
    ensures x != 0.0 ==> x * s != 0.0
  {
    if x != 0.0 {
      assert (x * s) / s == x;
    }
  }

  lemma OnSphere(r: real, sinTheta: real, cosTheta: real, sinPhi: real, cosPhi: real)
    requires sinTheta * sinTheta + cosTheta * cosTheta == 1.0
    requires sinPhi * sinPhi + cosPhi * cosPhi == 1.0
    ensures var v := Vec3(r * cosTheta * cosPhi, r * sinTheta * cosPhi, r * sinPhi);
            Dot3d(v, v) == r * r
  {
    var v := Vec3(r * cosTheta * cosPhi, r * sinTheta * cosPhi, r * sinPhi);
    calc {
      Dot3d(v, v);
      r * r * (cosPhi * cosPhi) * (cosTheta * cosTheta + sinTheta * sinTheta) + r * r * (sinPhi * sinPhi);
      r * r * (cosPhi * cosPhi + sinPhi * sinPhi);
    }
  }

  /** The dot product does not depend on the order of its operands. */
  lemma Dot3dSymmetric(a: Vec3, b: Vec3)
    ensures Dot3d(a, b) == Dot3d(b, a)
  {
  }

  /** Subtraction undoes addition. */
  lemma Add3dSub3d(a: Vec3, b: Vec3)
    ensures Add3d(Sub3d(a, b), b) == a
    ensures Sub3d(Add3d(a, b), b) == a
  {
  }

  /** Swapping the operands of the cross product reverses it. */
  lemma Cross3dAntisymmetric(a: Vec3, b: Vec3)
    ensures Cross3d(b, a) == Scale3d(Cross3d(a, b), -1.0)
  {
  }
}
