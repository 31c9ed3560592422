/** The angle and location helpers of geplugin-helpers.js (lines 137-196):
    degree/radian conversion, the normalisation of an angle into
    [-180, 180] and the heading from one location to another. The linear
    interpolation between two locations is Geo.InterpolateLoc. */
module GeHelpers {
  import opened JsMath
  import opened Geo

  /** Radians to degrees (geplugin-helpers.js:157-159). */
  function Rad2Deg(m: MathLib, r: real): real {
    r * 180.0 / m.pi
  }

  /** Degrees to radians (geplugin-helpers.js:166-168). */
  function Deg2Rad(m: MathLib, d: real): real {
    d * m.pi / 180.0
  }

  /** Converting to degrees and back gives the angle back. */
  lemma Deg2RadRad2Deg(m: MathLib, r: real)
    ensures Deg2Rad(m, Rad2Deg(m, r)) == r
  {
    var x := r * 180.0 / m.pi;
    assert x * m.pi == r * 180.0;
  }

  /** Converting to radians and back gives the angle back. */
  lemma Rad2DegDeg2Rad(m: MathLib, d: real)
    ensures Rad2Deg(m, Deg2Rad(m, d)) == d
  {
    var x := d * m.pi / 180.0;
    assert x * 180.0 == d * m.pi;
    assert (d * m.pi) / m.pi == d;
  }

  /** The least integer at least `x`. */
  function Ceiling(x: real): (c: int)
    ensures c as real - 1.0 < x <= c as real
  {
    -((-x).Floor)
  }

  /** The whole turns fixAngle adds to `a` (negative when it takes turns
      away): none when `a` is within [-180, 180]; otherwise the fewest that
      bring it there, which land in [-180, 180) coming from below and in
      (-180, 180] coming from above. */
  function Turns(a: real): (k: int)
    ensures -180.0 <= a <= 180.0 ==> k == 0
    ensures a < -180.0 ==> -180.0 <= a + 360.0 * k as real < 180.0
    ensures a > 180.0 ==> -180.0 < a + 360.0 * k as real <= 180.0
  {
    if a < -180.0 then Ceiling((-180.0 - a) / 360.0)
    else if a > 180.0 then -Ceiling((a - 180.0) / 360.0)
    else 0
  }

  /** Two angles less than a turn apart that differ by whole turns differ by none. */
  lemma SameTurn(j: int, k: int)
    requires -360.0 < 360.0 * (j - k) as real < 360.0
    ensures j == k
  {
  }

  /** The angle fixAngle returns for `a`: `a` itself when it is already within
      [-180, 180], otherwise `a` moved by the fewest whole turns that bring it
      there. Always within [-180, 180], always a whole number of turns from `a`. */
  function FixedAngle(a: real): (r: real)
    ensures -180.0 <= r <= 180.0
    ensures -180.0 <= a <= 180.0 ==> r == a
    ensures ((r - a) / 360.0).Floor as real == (r - a) / 360.0
  {
    var k := Turns(a);
    assert (a + 360.0 * k as real - a) / 360.0 == k as real;
    a + 360.0 * k as real
  }

  /** fixAngle (geplugin-helpers.js:176-184): add whole turns while the angle
      is below -180, then take whole turns away while it is above 180. */
  method FixAngle(a0: real) returns (a: real)
    ensures a == FixedAngle(a0)
  {
    a := a0;
    ghost var up := 0;
    while a < -180.0
      invariant up >= 0 && a == a0 + 360.0 * up as real
      invariant a0 < -180.0 ==> a < 180.0
      invariant a0 >= -180.0 ==> up == 0
      decreases -180.0 - a
    {
      a := a + 360.0;
      up := up + 1;
    }
    if a0 < -180.0 {
      SameTurn(up, Turns(a0));
    }
    ghost var a1 := a;
    ghost var down := 0;
    while a > 180.0
      invariant down >= 0 && a == a1 - 360.0 * down as real
      invariant a1 > 180.0 ==> a > -180.0
      invariant a1 <= 180.0 ==> down == 0
      decreases a - 180.0
    {
      a := a - 360.0;
      down := down + 1;
    }
    if a0 > 180.0 {
      SameTurn(-down, Turns(a0));
    }
  }

  /** Normalising twice changes nothing more than normalising once. */
  lemma FixedAngleIdempotent(a: real)
    ensures FixedAngle(FixedAngle(a)) == FixedAngle(a)
  {
  }

  /** The heading from `loc1` to `loc2` in degrees (geplugin-helpers.js:137-150):
      the bearing formula under atan2, converted to degrees and normalised. */
  method GetHeading(m: MathLib, loc1: LatLon, loc2: LatLon) returns (heading: real)
    ensures -180.0 <= heading <= 180.0
    ensures heading == FixedAngle(Rad2Deg(m, Bearing(m, loc1, loc2)))
  {
    heading := FixAngle(Rad2Deg(m, Bearing(m, loc1, loc2)));
  }

  /** The initial bearing from `loc1` to `loc2` in radians, as the heading formula computes it. */
  function Bearing(m: MathLib, loc1: LatLon, loc2: LatLon): real {
    var lat1 := Deg2Rad(m, loc1.lat);
    var lon1 := Deg2Rad(m, loc1.lon);
    var lat2 := Deg2Rad(m, loc2.lat);
    var lon2 := Deg2Rad(m, loc2.lon);
    m.atan2(m.sin(lon2 - lon1) * m.cos(lat2),
            m.cos(lat1) * m.sin(lat2) - m.sin(lat1) * m.cos(lat2) * m.cos(lon2 - lon1))
  }
}
