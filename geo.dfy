/** Points on the Earth's surface, as the core passes them around: a
    `[lat, lon]` pair in projections.js and a `GLatLng` in
    geplugin-helpers.js, both in degrees. */
module Geo {
  import opened JsMath

  datatype LatLon = LatLon(lat: real, lon: real)
  {
    /** A latitude on the globe, between the poles. */
    predicate OnGlobe() { -90.0 <= lat <= 90.0 }
  }

  /** The point halfway between `a` and `b` in the lat/lon plane. */
  function Midpoint(a: LatLon, b: LatLon): LatLon {
    LatLon((a.lat + b.lat) / 2.0, (a.lon + b.lon) / 2.0)
  }

  /** The location `f` of the way from `loc1` to `loc2`, coordinate by
      coordinate: interpolateLoc of geplugin-helpers.js (lines 192-196), and the
      points drawLatLonLine of projections.js steps through. */
  function InterpolateLoc(loc1: LatLon, loc2: LatLon, f: real): LatLon {
    LatLon(loc1.lat + f * (loc2.lat - loc1.lat),
           loc1.lon + f * (loc2.lon - loc1.lon))
  }

  /** Interpolating no part of the way stays at the start; all of the way
      reaches the end; half of the way is the midpoint. */
  lemma InterpolateLocEnds(loc1: LatLon, loc2: LatLon)
    ensures InterpolateLoc(loc1, loc2, 0.0) == loc1
    ensures InterpolateLoc(loc1, loc2, 1.0) == loc2
    ensures InterpolateLoc(loc1, loc2, 0.5) == Midpoint(loc1, loc2)
  {
  }

  /** Between two locations on the globe, every fraction from 0 to 1 gives a
      location on the globe whose coordinates lie between theirs. There the
      latitude clamping of the `GLatLng` constructor changes nothing, and so
      does its longitude wrapping whenever both ends' longitudes are already
      within [-180, 180], as those of `GLatLng` arguments are. */
  lemma InterpolateLocBetween(loc1: LatLon, loc2: LatLon, f: real)
    requires loc1.OnGlobe() && loc2.OnGlobe()
    requires 0.0 <= f <= 1.0
    ensures InterpolateLoc(loc1, loc2, f).OnGlobe()
    ensures var p := InterpolateLoc(loc1, loc2, f);
      && Min(loc1.lat, loc2.lat) <= p.lat <= Max(loc1.lat, loc2.lat)
      && Min(loc1.lon, loc2.lon) <= p.lon <= Max(loc1.lon, loc2.lon)
  {
    Between(loc1.lat, loc2.lat, f);
    Between(loc1.lon, loc2.lon, f);
  }

  /** A point `f` of the way from `x` to `y` lies between them. */
  lemma Between(x: real, y: real, f: real)
    requires 0.0 <= f <= 1.0
    ensures Min(x, y) <= x + f * (y - x) <= Max(x, y)
  {
    var d := if x <= y then y - x else x - y;
    NonNegativeProduct(f, d);
    NonNegativeProduct(1.0 - f, d);
    assert d - f * d == (1.0 - f) * d;
    if x <= y {
      assert x + f * (y - x) == x + f * d;
    } else {
      assert x + f * (y - x) == x - f * d;
    }
  }

  lemma NonNegativeProduct(a: real, b: real)
    requires a >= 0.0 && b >= 0.0
    ensures a * b >= 0.0
  {
  }
}
