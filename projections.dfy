/** The projection abstraction of projections.js: quads, the four projections
    with their levels and subdivision rules, the inputs of the screen-space
    error estimate (view distance and feature size), the lines a subdivision
    draws, and the points of a line drawn straight in lat/lon. */
module Projections {
  import opened JsMath
  import opened Geo
  import opened Vector3

  /** Pixels per tile edge (projections.js:32). */
  const TILE_RESOLUTION: real := 256.0

  /** Projection.prototype.minLevel and maxLevel (projections.js:181-182). */
  const BASE_MIN_LEVEL: nat := 3
  const BASE_MAX_LEVEL: nat := 14

  /** A quad's corners, in the order of projections.js:172-177:
      0 top-left, 1 top-right, 2 bottom-left, 3 bottom-right. */
  datatype Quad = Quad(v0: LatLon, v1: LatLon, v2: LatLon, v3: LatLon)
  {
    function Vert(i: nat): LatLon
      requires i < 4
    {
      match i
      case 0 => v0
      case 1 => v1
      case 2 => v2
      case _ => v3
    }

    predicate OnGlobe() {
      v0.OnGlobe() && v1.OnGlobe() && v2.OnGlobe() && v3.OnGlobe()
    }

    /** Edges on lines of latitude and longitude: the top corners share a
        latitude, the bottom ones another, the left corners share a longitude,
        the right ones another. */
    predicate Aligned() {
      v0.lat == v1.lat && v2.lat == v3.lat && v0.lon == v2.lon && v1.lon == v3.lon
    }

    /** Aligned, with the top edge not south of the bottom one and the left
        edge not east of the right one. */
    predicate Oriented() {
      Aligned() && v2.lat <= v0.lat && v0.lon <= v1.lon
    }

    /** `p` lies in the lat/lon rectangle of an oriented quad. */
    predicate Covers(p: LatLon) {
      v2.lat <= p.lat <= v0.lat && v0.lon <= p.lon <= v1.lon
    }
  }

  /** The camera location as getCameraLocation returns it (projections.js:475-479);
      the core never reads its altitude. */
  datatype CamLoc = CamLoc(lat: real, lon: real, alt: real)
  {
    function Position(): LatLon { LatLon(lat, lon) }
  }

  /** The five points one subdivision step adds. */
  datatype Subdivision = Subdivision(center: LatLon, top: LatLon, bottom: LatLon, left: LatLon, right: LatLon)

  /** The four child quads of one subdivision step, in the order of
      projections.js:161-170 and 213-216. Neighbouring children share the
      points on their common edge, all four share the center, and child i
      keeps the parent's corner i. */
  function Children(q: Quad, s: Subdivision): (c: seq<Quad>)
    ensures |c| == 4
    ensures c[0].v1 == c[1].v0 == s.top
    ensures c[0].v2 == c[2].v0 == s.left
    ensures c[1].v3 == c[3].v1 == s.right
    ensures c[2].v3 == c[3].v2 == s.bottom
    ensures c[0].v3 == c[1].v2 == c[2].v1 == c[3].v0 == s.center
    ensures forall i :: 0 <= i < 4 ==> c[i].Vert(i) == q.Vert(i)
  {
    [Quad(q.v0, s.top, s.left, s.center),
     Quad(s.top, q.v1, s.center, s.right),
     Quad(s.left, s.center, q.v2, s.bottom),
     Quad(s.center, s.right, s.bottom, q.v3)]
  }

  /** The projections, with the levels each has along the prototype chain:
      PlateCarree and Mercator inherit Projection's, BentMercator inherits
      them through Mercator, and CubeCell has its own (projections.js:416-419). */
  datatype Projection = PlateCarree | Mercator | BentMercator(maxLat: real) | CubeCell
  {
    /** BentMercator divides by its maxLat. */
    predicate WellFormed() {
      BentMercator? ==> maxLat != 0.0
    }

    function MinLevel(): nat {
      match this
      case CubeCell => 0
      case _ => BASE_MIN_LEVEL
    }

    function MaxLevel(): nat {
      match this
      case CubeCell => BASE_MAX_LEVEL - 1
      case _ => BASE_MAX_LEVEL
    }
  }

  /** CubeCell's own levels leave those of every other projection unchanged. */
  lemma LevelsAlongPrototypeChain(maxLat: real)
    ensures PlateCarree.MinLevel() == Mercator.MinLevel() == BentMercator(maxLat).MinLevel() == 3
    ensures PlateCarree.MaxLevel() == Mercator.MaxLevel() == BentMercator(maxLat).MaxLevel() == 14
    ensures CubeCell.MinLevel() == 0 && CubeCell.MaxLevel() == 13
  {
  }

  // ---------------------------------------------------------------------
  // Subdivision rules

  /** The shape every lat/lon subdivision has (projections.js:306-310,
      343-347, 399-403): top and bottom keep the latitudes of corners 0 and
      2, left and right keep the longitudes of corners 0 and 1, and the
      center sits at the middle longitude and the split latitude. */
  predicate LatLonShaped(q: Quad, s: Subdivision) {
    var middleLon := (q.v0.lon + q.v1.lon) / 2.0;
    && s.center == LatLon(s.center.lat, middleLon)
    && s.top == LatLon(q.v0.lat, middleLon)
    && s.bottom == LatLon(q.v2.lat, middleLon)
    && s.left == LatLon(s.center.lat, q.v0.lon)
    && s.right == LatLon(s.center.lat, q.v1.lon)
  }

  /** Plate-Carree: halve longitude and latitude (projections.js:297-313). */
  function PlateCarreeSubdivide(q: Quad): Subdivision {
    var middleLon := (q.v0.lon + q.v1.lon) / 2.0;
    var middleLat := (q.v0.lat + q.v2.lat) / 2.0;
    Subdivision(
      center := LatLon(middleLat, middleLon),
      top := LatLon(q.v0.lat, middleLon),
      bottom := LatLon(q.v2.lat, middleLon),
      left := LatLon(middleLat, q.v0.lon),
      right := LatLon(middleLat, q.v1.lon))
  }

  /** projections.js:324-326 */
  function MercatorLatitudeToY(m: MathLib, lat: real): real {
    m.log(m.tan(m.pi / 4.0 + (lat * m.pi / 180.0) / 2.0))
  }

  /** projections.js:327-329. Whatever `y`, the latitude is strictly between the poles. */
  function MercatorYToLatitude(m: MathLib, y: real): (lat: real)
    ensures -90.0 < lat < 90.0
  {
    var t := 2.0 * m.atan(m.exp(y)) - m.pi / 2.0;
    DegreesOfQuarterTurn(m, t);
    t * 180.0 / m.pi
  }

  /** Mercator: halve longitude, split latitude at the middle of the
      Mercator y range (projections.js:331-350). */
  function MercatorSubdivide(m: MathLib, q: Quad): Subdivision {
    var middleLon := (q.v0.lon + q.v1.lon) / 2.0;
    var y0 := MercatorLatitudeToY(m, q.v0.lat);
    var y1 := MercatorLatitudeToY(m, q.v2.lat);
    var middleY := (y0 + y1) / 2.0;
    var middleLat := MercatorYToLatitude(m, middleY);
    Subdivision(
      center := LatLon(middleLat, middleLon),
      top := LatLon(q.v0.lat, middleLon),
      bottom := LatLon(q.v2.lat, middleLon),
      left := LatLon(middleLat, q.v0.lon),
      right := LatLon(middleLat, q.v1.lon))
  }

  /** Map 0-90 onto 0-maxLat (projections.js:369-372). */
  function MapLat(maxLat: real, lat: real): real {
    (lat / 90.0) * maxLat
  }

  /** Map 0-maxLat onto 0-90, clamped to [-90, 90] (projections.js:375-378). */
  function InvMapLat(maxLat: real, lat: real): (r: real)
    requires maxLat != 0.0
    ensures -90.0 <= r <= 90.0
  {
    Max(-90.0, Min((lat / maxLat) * 90.0, 90.0))
  }

  /** InvMapLat undoes MapLat on every latitude of the globe. */
  lemma InvMapLatMapLat(maxLat: real, x: real)
    requires maxLat != 0.0
    requires -90.0 <= x <= 90.0
    ensures InvMapLat(maxLat, MapLat(maxLat, x)) == x
  {
    var y := (x / 90.0) * maxLat;
    assert y / maxLat == x / 90.0;
  }

  /** MapLat undoes InvMapLat on the mapped range [-maxLat, maxLat]. */
  lemma MapLatInvMapLat(maxLat: real, y: real)
    requires maxLat > 0.0
    requires -maxLat <= y <= maxLat
    ensures MapLat(maxLat, InvMapLat(maxLat, y)) == y
  {
    var q := y / maxLat;
    assert q * maxLat == y;
    assert -1.0 <= q <= 1.0 by {
      assert (1.0 - q) * maxLat >= 0.0;
      assert (q + 1.0) * maxLat >= 0.0;
    }
    assert InvMapLat(maxLat, y) == q * 90.0;
  }

  /** The BentMercator split latitude (projections.js:380-387): always on the globe. */
  function SplitLat(m: MathLib, maxLat: real, lat0: real, lat1: real): (r: real)
    requires maxLat != 0.0
    ensures -90.0 <= r <= 90.0
  {
    var y0 := MercatorLatitudeToY(m, MapLat(maxLat, lat0));
    var y1 := MercatorLatitudeToY(m, MapLat(maxLat, lat1));
    var middleY := (y0 + y1) / 2.0;
    InvMapLat(maxLat, MercatorYToLatitude(m, middleY))
  }

  /** BentMercator: Mercator's split on remapped latitudes (projections.js:389-406). */
  function BentMercatorSubdivide(m: MathLib, maxLat: real, q: Quad): Subdivision
    requires maxLat != 0.0
  {
    var middleLon := (q.v0.lon + q.v1.lon) / 2.0;
    var middleLat := SplitLat(m, maxLat, q.v0.lat, q.v2.lat);
    Subdivision(
      center := LatLon(middleLat, middleLon),
      top := LatLon(q.v0.lat, middleLon),
      bottom := LatLon(q.v2.lat, middleLon),
      left := LatLon(middleLat, q.v0.lon),
      right := LatLon(middleLat, q.v1.lon))
  }

  /** The average of the four corners in 3D, grouped as CubeCell.getViewDistance
      groups them (projections.js:424-428). */
  function CubeCellCentroid(m: MathLib, q: Quad): Vec3 {
    var a := LatLonTo3d(m, q.v0);
    var b := LatLonTo3d(m, q.v1);
    var c := LatLonTo3d(m, q.v2);
    var d := LatLonTo3d(m, q.v3);
    Scale3d(Add3d(Add3d(a, b), Add3d(c, d)), 1.0 / 4.0)
  }

  /** CubeCell: bisect the edges and average the corners in 3D, then return
      to lat/lon (projections.js:454-470). */
  function CubeCellSubdivide(m: MathLib, q: Quad): Subdivision {
    var v0 := LatLonTo3d(m, q.v0);
    var v1 := LatLonTo3d(m, q.v1);
    var v2 := LatLonTo3d(m, q.v2);
    var v3 := LatLonTo3d(m, q.v3);
    Subdivision(
      center := LatLonFrom3d(m, Scale3d(Add3d(Add3d(v0, v3), Add3d(v1, v2)), 1.0 / 4.0)),
      top := LatLonFrom3d(m, Bisect3d(v0, v1)),
      bottom := LatLonFrom3d(m, Bisect3d(v2, v3)),
      left := LatLonFrom3d(m, Bisect3d(v0, v2)),
      right := LatLonFrom3d(m, Bisect3d(v1, v3)))
  }

  /** `proj.subdivide(verts, level)`: the variant's own rule. */
  function Subdivide(m: MathLib, proj: Projection, q: Quad): Subdivision
    requires proj.WellFormed()
  {
    match proj
    case PlateCarree => PlateCarreeSubdivide(q)
    case Mercator => MercatorSubdivide(m, q)
    case BentMercator(maxLat) => BentMercatorSubdivide(m, maxLat, q)
    case CubeCell => CubeCellSubdivide(m, q)
  }

  /** The three lat/lon projections give every quad the lat/lon shape and
      read only its corners 0, 1 and 2. */
  lemma LatLonSubdivideShape(m: MathLib, proj: Projection, q: Quad, other3: LatLon)
    requires proj.WellFormed() && !proj.CubeCell?
    ensures LatLonShaped(q, Subdivide(m, proj, q))
    ensures Subdivide(m, proj, q) == Subdivide(m, proj, q.(v3 := other3))
  {
  }

  /** Plate-Carree's split latitude is the exact average of the top and
      bottom latitudes, so it lies between them. */
  lemma PlateCarreeSplitsBetween(q: Quad)
    ensures PlateCarreeSubdivide(q).center.lat == (q.v0.lat + q.v2.lat) / 2.0
    ensures Min(q.v0.lat, q.v2.lat) <= PlateCarreeSubdivide(q).center.lat <= Max(q.v0.lat, q.v2.lat)
  {
  }

  /** A lat/lon-shaped split of an aligned quad yields four aligned children,
      each half as wide as the parent. When the split latitude lies between
      the top and bottom latitudes of an oriented quad, the children are
      oriented and their rectangles together cover exactly the parent's. */
  lemma LatLonSplitTiles(q: Quad, s: Subdivision, p: LatLon)
    requires q.Aligned() && LatLonShaped(q, s)
    ensures forall i :: 0 <= i < 4 ==> Children(q, s)[i].Aligned()
    ensures forall i :: 0 <= i < 4 ==>
      Children(q, s)[i].v1.lon - Children(q, s)[i].v0.lon == (q.v1.lon - q.v0.lon) / 2.0
    ensures q.Oriented() && q.v2.lat <= s.center.lat <= q.v0.lat ==>
      && (forall i :: 0 <= i < 4 ==> Children(q, s)[i].Oriented())
      && (q.Covers(p) <==> exists i :: 0 <= i < 4 && Children(q, s)[i].Covers(p))
  {
    var c := Children(q, s);
    if q.Oriented() && q.v2.lat <= s.center.lat <= q.v0.lat {
      if q.Covers(p) {
        var i := (if p.lat >= s.center.lat then 0 else 2) + (if p.lon >= s.center.lon then 1 else 0);
        assert c[i].Covers(p);
      }
    }
  }

  /** Plate-Carree subdivision tiles every oriented quad exactly. */
  lemma PlateCarreeTiles(q: Quad, p: LatLon)
    requires q.Oriented()
    ensures var c := Children(q, PlateCarreeSubdivide(q));
      && (forall i :: 0 <= i < 4 ==> c[i].Oriented())
      && (q.Covers(p) <==> exists i :: 0 <= i < 4 && c[i].Covers(p))
  {
    LatLonSplitTiles(q, PlateCarreeSubdivide(q), p);
  }

  /** The CubeCell center is the 3D centroid getViewDistance uses, which is
      also the midpoint of the top and bottom edge midpoints and of the left
      and right edge midpoints. */
  lemma CubeCellCenterIsCentroid(m: MathLib, q: Quad)
    ensures CubeCellSubdivide(m, q).center == LatLonFrom3d(m, CubeCellCentroid(m, q))
    ensures var v0, v1, v2, v3 := LatLonTo3d(m, q.v0), LatLonTo3d(m, q.v1), LatLonTo3d(m, q.v2), LatLonTo3d(m, q.v3);
      && CubeCellCentroid(m, q) == Bisect3d(Bisect3d(v0, v1), Bisect3d(v2, v3))
      && CubeCellCentroid(m, q) == Bisect3d(Bisect3d(v0, v2), Bisect3d(v1, v3))
  {
    Regrouped(LatLonTo3d(m, q.v0), LatLonTo3d(m, q.v1), LatLonTo3d(m, q.v2), LatLonTo3d(m, q.v3));
  }

  /** The average of four vectors does not depend on how they are grouped. */
  lemma Regrouped(v0: Vec3, v1: Vec3, v2: Vec3, v3: Vec3)
    ensures Scale3d(Add3d(Add3d(v0, v3), Add3d(v1, v2)), 1.0 / 4.0) == Scale3d(Add3d(Add3d(v0, v1), Add3d(v2, v3)), 1.0 / 4.0)
    ensures Scale3d(Add3d(Add3d(v0, v1), Add3d(v2, v3)), 1.0 / 4.0) == Bisect3d(Bisect3d(v0, v1), Bisect3d(v2, v3))
    ensures Scale3d(Add3d(Add3d(v0, v1), Add3d(v2, v3)), 1.0 / 4.0) == Bisect3d(Bisect3d(v0, v2), Bisect3d(v1, v3))
  {
  }

  /** Every projection's subdivision of a quad on the globe stays on the globe. */
  lemma SubdivideStaysOnGlobe(m: MathLib, proj: Projection, q: Quad)
    requires proj.WellFormed() && q.OnGlobe()
    ensures var s := Subdivide(m, proj, q);
      s.center.OnGlobe() && s.top.OnGlobe() && s.bottom.OnGlobe() && s.left.OnGlobe() && s.right.OnGlobe()
  {
  }

  // ---------------------------------------------------------------------
  // Inputs of the error estimate

  /** The "nearest" latitude of the default getViewDistance
      (projections.js:234-246): one of the bottom latitude, the camera's
      latitude and the top latitude; the camera's exactly when
      verts[0].lat <= cam.lat <= verts[2].lat. */
  function NearestLat(q: Quad, cam: CamLoc): (lat: real)
    ensures lat == q.v2.lat || lat == cam.lat || lat == q.v0.lat
    ensures lat == cam.lat <==> q.v0.lat <= cam.lat <= q.v2.lat
  {
    var dlat0 := q.v2.lat - cam.lat;
    var dlat1 := q.v0.lat - cam.lat;
    if dlat0 < 0.0 then q.v2.lat
    else if dlat1 <= 0.0 then cam.lat
    else q.v0.lat
  }

  /** The "nearest" longitude (projections.js:236-255): one of the left
      longitude, the camera's longitude and the right longitude; the camera's
      exactly when verts[1].lon <= cam.lon <= verts[0].lon. */
  function NearestLon(q: Quad, cam: CamLoc): (lon: real)
    ensures lon == q.v0.lon || lon == cam.lon || lon == q.v1.lon
    ensures lon == cam.lon <==> q.v1.lon <= cam.lon <= q.v0.lon
  {
    var dlon0 := q.v0.lon - cam.lon;
    var dlon1 := q.v1.lon - cam.lon;
    if dlon0 < 0.0 then q.v0.lon
    else if dlon1 <= 0.0 then cam.lon
    else q.v1.lon
  }

  /** On a quad whose top is north of its bottom and whose left is west of its
      right, the selection is not a clamp of the camera's position: it always
      picks an edge, the bottom or left one when the camera is past it and the
      top or right one otherwise, never the camera's own latitude or longitude. */
  lemma NearestOfOrientedQuad(q: Quad, cam: CamLoc)
    requires q.v2.lat < q.v0.lat && q.v0.lon < q.v1.lon
    ensures NearestLat(q, cam) == if cam.lat > q.v2.lat then q.v2.lat else q.v0.lat
    ensures NearestLon(q, cam) == if cam.lon > q.v0.lon then q.v0.lon else q.v1.lon
    ensures NearestLat(q, cam) != cam.lat && NearestLon(q, cam) != cam.lon
  {
  }

  /** Projection.getViewDistance (projections.js:233-261): the straight-line
      distance from the camera to the selected point; never negative. */
  function DefaultViewDistance(m: MathLib, q: Quad, cam: CamLoc): (d: real)
    ensures d >= 0.0
  {
    var a := LatLonTo3d(m, LatLon(NearestLat(q, cam), NearestLon(q, cam)));
    var b := LatLonTo3d(m, cam.Position());
    Length3d(m, Sub3d(b, a))
  }

  /** CubeCell.getViewDistance (projections.js:421-438): distance to the
      circle around the centroid through corner 0, or 0 inside it; never
      negative and never more than the distance to the centroid. */
  function CubeCellViewDistance(m: MathLib, q: Quad, cam: CamLoc): (d: real)
    ensures 0.0 <= d <= EarthDistance3d(m, LatLonTo3d(m, cam.Position()), CubeCellCentroid(m, q))
  {
    var a := LatLonTo3d(m, q.v0);
    var center := CubeCellCentroid(m, q);
    var radius := EarthDistance3d(m, center, a);
    var cam3d := LatLonTo3d(m, cam.Position());
    var dist := EarthDistance3d(m, cam3d, center);
    if dist < radius then 0.0 else dist - radius
  }

  function ViewDistance(m: MathLib, proj: Projection, q: Quad, cam: CamLoc): (d: real)
    ensures d >= 0.0
  {
    if proj.CubeCell? then CubeCellViewDistance(m, q, cam) else DefaultViewDistance(m, q, cam)
  }

  /** Length in meters of the top or bottom boundary nearer the equator
      (projections.js:266-270). */
  function LonBoundarySize(m: MathLib, q: Quad): real {
    var minLatitude := Min(Abs(q.v0.lat), Abs(q.v2.lat));
    var cosPhi := m.cos(minLatitude * m.pi / 180.0);
    var lonAngle := Abs(q.v1.lon - q.v0.lon);
    cosPhi * (lonAngle * m.pi / 180.0) * EARTH_RADIUS
  }

  /** Length in meters of the side boundaries (projections.js:273-274); never negative. */
  function LatBoundarySize(m: MathLib, q: Quad): (r: real)
    ensures r >= 0.0
  {
    var latAngle := Abs(q.v0.lat - q.v2.lat);
    assert latAngle * m.pi >= 0.0;
    (latAngle * m.pi / 180.0) * EARTH_RADIUS
  }

  /** Projection.getFeatureSize (projections.js:263-279): the larger boundary
      length over the tile resolution, so never negative. */
  function DefaultFeatureSize(m: MathLib, q: Quad): (f: real)
    ensures f >= 0.0
    ensures f * TILE_RESOLUTION >= LonBoundarySize(m, q) && f * TILE_RESOLUTION >= LatBoundarySize(m, q)
    ensures f * TILE_RESOLUTION == LonBoundarySize(m, q) || f * TILE_RESOLUTION == LatBoundarySize(m, q)
  {
    var boundarySize := Max(LonBoundarySize(m, q), LatBoundarySize(m, q));
    boundarySize / TILE_RESOLUTION
  }

  /** CubeCell.getFeatureSize (projections.js:440-445): the surface length of
      the top edge over the tile resolution; at most half the circumference over it. */
  function CubeCellFeatureSize(m: MathLib, q: Quad): (f: real)
    ensures 0.0 <= f <= EARTH_RADIUS * m.pi / TILE_RESOLUTION
  {
    var a := LatLonTo3d(m, q.v0);
    var b := LatLonTo3d(m, q.v1);
    var boundarySize := EarthDistance3d(m, a, b);
    boundarySize / TILE_RESOLUTION
  }

  function FeatureSize(m: MathLib, proj: Projection, q: Quad): (f: real)
    ensures f >= 0.0
  {
    if proj.CubeCell? then CubeCellFeatureSize(m, q) else DefaultFeatureSize(m, q)
  }

  // ---------------------------------------------------------------------
  // Lines

  /** drawLatLonLine subdivides its line into short steps; drawGeodesic draws
      one geodesic. */
  datatype LineStyle = LatLonLine | Geodesic

  /** One line drawn into the current projection folder. */
  datatype Segment = Segment(vertStart: LatLon, vertEnd: LatLon, style: LineStyle)

  /** drawDivisions (projections.js:282-287, 447-452): four lines from the
      edge midpoints top, bottom, left and right to the center, geodesics for
      CubeCell and lat/lon lines otherwise. */
  function DivisionSegments(proj: Projection, s: Subdivision): (segs: seq<Segment>)
    ensures |segs| == 4
    ensures forall seg <- segs :: seg.style == if proj.CubeCell? then Geodesic else LatLonLine
    ensures forall seg <- segs :: seg.vertStart == s.center || seg.vertEnd == s.center
    ensures forall p <- [s.top, s.bottom, s.left, s.right] ::
      exists seg <- segs :: seg.vertStart == p || seg.vertEnd == p
  {
    var style := if proj.CubeCell? then Geodesic else LatLonLine;
    [Segment(s.top, s.center, style),
     Segment(s.center, s.bottom, style),
     Segment(s.left, s.center, style),
     Segment(s.center, s.right, style)]
  }

  /** The longitude step of drawLatLonLine (projections.js:494-495). */
  function LineStepSize(m: MathLib, vertStart: LatLon, vertEnd: LatLon): real {
    var worstLat := Max(Abs(vertStart.lat), Abs(vertEnd.lat));
    10.0 * m.cos(worstLat * m.pi / 180.0) + 0.01
  }

  /** Between the poles the cosine is never negative, so the step is at least 0.01. */
  lemma LineStepSizePositive(m: MathLib, vertStart: LatLon, vertEnd: LatLon)
    requires vertStart.OnGlobe() && vertEnd.OnGlobe()
    ensures LineStepSize(m, vertStart, vertEnd) >= 0.01
  {
    var worstLat := Max(Abs(vertStart.lat), Abs(vertEnd.lat));
    QuarterTurnAtMost(m.pi, worstLat);
  }

  /** A latitude within [0, 90] degrees is within [0, pi/2] radians. */
  lemma QuarterTurnAtMost(pi: real, lat: real)
    requires pi > 0.0 && 0.0 <= lat <= 90.0
    ensures 0.0 <= lat * pi / 180.0 <= pi / 2.0
  {
    assert lat * pi >= 0.0;
    assert (90.0 - lat) * pi >= 0.0;
    assert lat * pi <= 90.0 * pi;
  }

  /** The number of intermediate points of a lat/lon line (projections.js:496). */
  function LineSteps(m: MathLib, vertStart: LatLon, vertEnd: LatLon): nat
    requires vertStart.OnGlobe() && vertEnd.OnGlobe()
  {
    LineStepSizePositive(m, vertStart, vertEnd);
    (Abs(vertEnd.lon - vertStart.lon) / LineStepSize(m, vertStart, vertEnd)).Floor
  }

  /** The points drawLatLonLine pushes (projections.js:493-507): the start,
      `steps` points each one step further, and the end; that is, `steps + 2`
      points evenly spaced along the straight lat/lon line from start to end. */
  method LatLonLinePoints(m: MathLib, vertStart: LatLon, vertEnd: LatLon) returns (points: seq<LatLon>)
    requires vertStart.OnGlobe() && vertEnd.OnGlobe()
    ensures |points| == LineSteps(m, vertStart, vertEnd) + 2
    ensures points[0] == vertStart && points[|points| - 1] == vertEnd
    ensures forall k :: 0 <= k < |points| ==>
      points[k] == InterpolateLoc(vertStart, vertEnd, k as real / (|points| - 1) as real)
  {
    var deltaLon := vertEnd.lon - vertStart.lon;
    var stepSize := LineStepSize(m, vertStart, vertEnd);
    LineStepSizePositive(m, vertStart, vertEnd);
    var steps: nat := LineSteps(m, vertStart, vertEnd);
    assert steps == (Abs(deltaLon) / stepSize).Floor;
    var stepLat := (vertEnd.lat - vertStart.lat) / (steps + 1) as real;
    var stepLon := deltaLon / (steps + 1) as real;
    var lat := vertStart.lat;
    var lon := vertStart.lon;
    points := [LatLon(lat, lon)];
    for i := 0 to steps
      invariant LatLon(lat, lon) == Stepped(vertStart, stepLat, stepLon, i)
      invariant |points| == i + 1
      invariant forall k :: 0 <= k < |points| ==> points[k] == Stepped(vertStart, stepLat, stepLon, k)
    {
      SteppedOnce(vertStart, stepLat, stepLon, i);
      lat := lat + stepLat;
      lon := lon + stepLon;
      points := points + [LatLon(lat, lon)];
    }
    points := points + [vertEnd];
    EvenPoints(vertStart, vertEnd, steps + 1, points);
  }

  /** The point `k` steps of (`stepLat`, `stepLon`) from `s`. */
  function Stepped(s: LatLon, stepLat: real, stepLon: real, k: nat): LatLon {
    LatLon(s.lat + k as real * stepLat, s.lon + k as real * stepLon)
  }

  lemma SteppedOnce(s: LatLon, stepLat: real, stepLon: real, k: nat)
    ensures Stepped(s, stepLat, stepLon, k + 1) == LatLon(Stepped(s, stepLat, stepLon, k).lat + stepLat, Stepped(s, stepLat, stepLon, k).lon + stepLon)
  {
  }

  /** Points that advance by equal steps from `s` and end at `e` are the
      interpolations at `k / n`. */
  lemma EvenPoints(s: LatLon, e: LatLon, n: nat, points: seq<LatLon>)
    requires 0 < n && |points| == n + 1 && points[n] == e
    requires forall k :: 0 <= k < n ==>
      points[k] == Stepped(s, (e.lat - s.lat) / n as real, (e.lon - s.lon) / n as real, k)
    ensures forall k :: 0 <= k < |points| ==> points[k] == InterpolateLoc(s, e, k as real / n as real)
  {
    forall k | 0 <= k < |points|
      ensures points[k] == InterpolateLoc(s, e, k as real / n as real)
    {
      EvenStep(s.lat, e.lat, k, n);
      EvenStep(s.lon, e.lon, k, n);
    }
  }

  /** `k` steps of a `n`-th of the way are `k / n` of the way. */
  lemma EvenStep(a: real, b: real, k: nat, n: nat)
    requires 0 < n
    ensures a + k as real * ((b - a) / n as real) == a + (k as real / n as real) * (b - a)
    ensures k == n ==> a + (k as real / n as real) * (b - a) == b
  {
    var d := (b - a) / n as real;
    assert d * n as real == b - a;
    assert (k as real / n as real) * n as real == k as real;
    assert (k as real / n as real) * (b - a) == (k as real / n as real) * (d * n as real);
  }
}
