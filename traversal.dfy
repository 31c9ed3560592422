/** The level-of-detail traversal of projections.js (lines 184-225, 282-287,
    447-452, 512-536): the subdivide-or-stop decision from the screen-space
    error estimate, and the recursion that draws the division lines of every
    split quad and counts every leaf. */
module Traversal {
  import opened JsMath
  import opened Geo
  import opened Projections

  /** projections.js:21-25 */
  const HORIZONTAL_PIXELS: real := 800.0
  const ERROR_THRESHOLD_PIXELS: real := 1.0

  /** The error assumed when the camera is not in front of the quad
      (projections.js:195). */
  const UNBOUNDED_ERROR: real := 1000000.0

  /** A horizontal field of view of 90 degrees, in radians (projections.js:21). */
  function HorizontalFovRadians(m: MathLib): real {
    90.0 * m.pi / 180.0
  }

  /** Pixels per unit of feature size over distance (projections.js:23-24);
      positive, as tan is positive on a quarter turn. */
  function ProjectionConstant(m: MathLib): (c: real)
    ensures c > 0.0
  {
    var half := HorizontalFovRadians(m) / 2.0;
    assert 0.0 < half < m.pi / 2.0;
    HORIZONTAL_PIXELS / (2.0 * m.tan(half))
  }

  /** The approximate on-screen size in pixels of a feature of
      `featureSize` meters seen from `distanceToCamera` meters
      (projections.js:195-198): never negative for a feature size that is
      not, and UNBOUNDED_ERROR when the distance is not positive. */
  function ErrorEstimate(m: MathLib, featureSize: real, distanceToCamera: real): (e: real)
    requires featureSize >= 0.0
    ensures e >= 0.0
    ensures distanceToCamera <= 0.0 ==> e == UNBOUNDED_ERROR
  {
    if distanceToCamera > 0.0 then ScreenSize(m, featureSize, distanceToCamera)
    else UNBOUNDED_ERROR
  }

  /** The on-screen size in pixels of a feature of `featureSize` meters at
      `distance` meters (projections.js:27-28, 197): never negative for a
      feature size and a distance that are not. */
  function ScreenSize(m: MathLib, featureSize: real, distance: real): (pixels: real)
    requires featureSize >= 0.0 && distance > 0.0
    ensures pixels >= 0.0
  {
    NonNegativeRatio(ProjectionConstant(m), featureSize, distance);
    ProjectionConstant(m) * featureSize / distance
  }

  /** The error estimate of a quad seen from the camera (projections.js:193-198). */
  function EstimatedError(m: MathLib, proj: Projection, q: Quad, cam: CamLoc): real {
    ErrorEstimate(m, FeatureSize(m, proj, q), ViewDistance(m, proj, q, cam))
  }

  lemma NonNegativeRatio(c: real, f: real, d: real)
    requires c > 0.0 && f >= 0.0 && d > 0.0
    ensures c * f / d >= 0.0
  {
    assert c * f >= 0.0;
  }

  /** Whether displayNode splits the quad (projections.js:185-200): never at
      or past maxLevel, and otherwise exactly when the estimated error exceeds
      the threshold. */
  function Subdivides(m: MathLib, proj: Projection, q: Quad, level: int, cam: CamLoc): bool {
    if level >= proj.MaxLevel() then false
    else EstimatedError(m, proj, q, cam) > ERROR_THRESHOLD_PIXELS
  }

  /** Below maxLevel, a camera at no positive distance always splits the quad. */
  lemma NonPositiveDistanceSplits(m: MathLib, proj: Projection, q: Quad, level: int, cam: CamLoc)
    requires level < proj.MaxLevel() && ViewDistance(m, proj, q, cam) <= 0.0
    ensures Subdivides(m, proj, q, level, cam)
  {
  }

  /** The assignment for levels below minLevel is always overwritten: a quad
      below minLevel whose error is within the threshold is still a leaf, and
      one whose error exceeds it is split as at any other level. */
  lemma MinLevelHasNoEffect(m: MathLib, proj: Projection, q: Quad, level: int, cam: CamLoc)
    requires level < proj.MinLevel()
    ensures Subdivides(m, proj, q, level, cam) <==> EstimatedError(m, proj, q, cam) > ERROR_THRESHOLD_PIXELS
  {
    assert proj.MinLevel() < proj.MaxLevel();
  }

  function Pow4(n: nat): (p: nat)
    ensures p >= 1
  {
    if n == 0 then 1 else 4 * Pow4(n - 1)
  }

  /** What one displayNode call adds: leaves counted, lines drawn, and the
      number of quads split. */
  datatype Outcome = Outcome(leaves: nat, drawn: seq<Segment>, splits: nat)

  /** The effect of displayNode(verts, level, camLoc) on a projection
      (projections.js:184-225). A call at or past maxLevel counts one leaf and
      draws nothing. Every call counts three more leaves than it splits quads
      and draws four lines per split, and a call at a level not past maxLevel
      counts at most 4^(maxLevel - level) leaves. */
  function Run(m: MathLib, proj: Projection, q: Quad, level: int, cam: CamLoc): (o: Outcome)
    requires proj.WellFormed()
    ensures o.leaves == 3 * o.splits + 1
    ensures |o.drawn| == 4 * o.splits
    ensures level >= proj.MaxLevel() ==> o == Outcome(1, [], 0)
    ensures level <= proj.MaxLevel() ==> o.leaves <= Pow4(proj.MaxLevel() - level)
    decreases proj.MaxLevel() - level
  {
    if !Subdivides(m, proj, q, level, cam) then Outcome(1, [], 0)
    else
      var s := Subdivide(m, proj, q);
      var c := Children(q, s);
      var o0 := Run(m, proj, c[0], level + 1, cam);
      var o1 := Run(m, proj, c[1], level + 1, cam);
      var o2 := Run(m, proj, c[2], level + 1, cam);
      var o3 := Run(m, proj, c[3], level + 1, cam);
      Outcome(o0.leaves + o1.leaves + o2.leaves + o3.leaves,
              DivisionSegments(proj, s) + o0.drawn + o1.drawn + o2.drawn + o3.drawn,
              1 + o0.splits + o1.splits + o2.splits + o3.splits)
  }

  /** The outcome of a call that splits its quad, child by child. */
  lemma RunOfSplit(m: MathLib, proj: Projection, q: Quad, level: int, cam: CamLoc)
    requires proj.WellFormed() && Subdivides(m, proj, q, level, cam)
    ensures var s := Subdivide(m, proj, q);
      var c := Children(q, s);
      var o, o0, o1, o2, o3 := Run(m, proj, q, level, cam), Run(m, proj, c[0], level + 1, cam),
        Run(m, proj, c[1], level + 1, cam), Run(m, proj, c[2], level + 1, cam), Run(m, proj, c[3], level + 1, cam);
      && o.leaves == o0.leaves + o1.leaves + o2.leaves + o3.leaves
      && o.drawn == DivisionSegments(proj, s) + o0.drawn + o1.drawn + o2.drawn + o3.drawn
  {
  }

  lemma AppendAssociates<T>(a: seq<T>, b: seq<T>, c: seq<T>, d: seq<T>, e: seq<T>, f: seq<T>)
    ensures a + b + c + d + e + f == a + (b + c + d + e + f)
  {
  }

  /** A segment both of whose ends lie on the globe. */
  predicate SegmentOnGlobe(seg: Segment) {
    seg.vertStart.OnGlobe() && seg.vertEnd.OnGlobe()
  }

  /** Starting from a quad on the globe, every line the traversal draws
      starts and ends on the globe. */
  lemma {:induction false} RunDrawsOnGlobe(m: MathLib, proj: Projection, q: Quad, level: int, cam: CamLoc)
    requires proj.WellFormed() && q.OnGlobe()
    ensures forall seg <- Run(m, proj, q, level, cam).drawn :: SegmentOnGlobe(seg)
    decreases proj.MaxLevel() - level
  {
    if Subdivides(m, proj, q, level, cam) {
      var s := Subdivide(m, proj, q);
      SubdivideStaysOnGlobe(m, proj, q);
      var c := Children(q, s);
      RunDrawsOnGlobe(m, proj, c[0], level + 1, cam);
      RunDrawsOnGlobe(m, proj, c[1], level + 1, cam);
      RunDrawsOnGlobe(m, proj, c[2], level + 1, cam);
      RunDrawsOnGlobe(m, proj, c[3], level + 1, cam);
    }
  }

  /** The global state projections.js draws into (lines 36-37): the folder of
      the current projection, kept as the lines drawn into it, and the leaf
      counter. */
  class ProjectionScene {
    var hasFolder: bool
    var folder: seq<Segment>
    var nodeCount: int

    /** No folder yet and no leaves counted (projections.js:36-37). */
    constructor()
      ensures !hasFolder && folder == [] && nodeCount == 0
    {
      hasFolder := false;
      folder := [];
      nodeCount := 0;
    }

    /** clearProjection (projections.js:526-536): replace the folder by a new
        empty one and reset the counter. */
    method ClearProjection()
      modifies this
      ensures hasFolder && folder == [] && nodeCount == 0
    {
      hasFolder := true;
      folder := [];
      nodeCount := 0;
    }

    /** drawLatLonLine (projections.js:483-510): one more line in the folder,
        whose coordinates LatLonLinePoints gives. */
    method DrawLatLonLine(vertStart: LatLon, vertEnd: LatLon)
      requires hasFolder
      modifies this
      ensures hasFolder && nodeCount == old(nodeCount)
      ensures folder == old(folder) + [Segment(vertStart, vertEnd, LatLonLine)]
    {
      folder := folder + [Segment(vertStart, vertEnd, LatLonLine)];
    }

    /** drawGeodesic (projections.js:513-523): one more geodesic in the folder. */
    method DrawGeodesic(vertStart: LatLon, vertEnd: LatLon)
      requires hasFolder
      modifies this
      ensures hasFolder && nodeCount == old(nodeCount)
      ensures folder == old(folder) + [Segment(vertStart, vertEnd, Geodesic)]
    {
      folder := folder + [Segment(vertStart, vertEnd, Geodesic)];
    }

    /** drawDivisions (projections.js:282-287 and, for CubeCell, 447-452). */
    method DrawDivisions(proj: Projection, s: Subdivision)
      requires hasFolder
      modifies this
      ensures hasFolder && nodeCount == old(nodeCount)
      ensures folder == old(folder) + DivisionSegments(proj, s)
    {
      if proj.CubeCell? {
        DrawGeodesic(s.top, s.center);
        DrawGeodesic(s.center, s.bottom);
        DrawGeodesic(s.left, s.center);
        DrawGeodesic(s.center, s.right);
      } else {
        DrawLatLonLine(s.top, s.center);
        DrawLatLonLine(s.center, s.bottom);
        DrawLatLonLine(s.left, s.center);
        DrawLatLonLine(s.center, s.right);
      }
    }

    /** The decision of defaultDisplayNode (projections.js:185-200), as
        written: the assignment for levels below minLevel is overwritten on
        both branches that follow it. */
    method Decide(m: MathLib, proj: Projection, q: Quad, level: int, cam: CamLoc) returns (subdivide: bool)
      ensures subdivide == Subdivides(m, proj, q, level, cam)
    {
      if level < proj.MinLevel() {
        subdivide := true;
      }
      if level >= proj.MaxLevel() {
        subdivide := false;
      } else {
        var featureSize := FeatureSize(m, proj, q);
        var distanceToCamera := ViewDistance(m, proj, q, cam);
        var estimatedError := UNBOUNDED_ERROR;
        if distanceToCamera > 0.0 {
          estimatedError := ScreenSize(m, featureSize, distanceToCamera);
        }
        subdivide := estimatedError > ERROR_THRESHOLD_PIXELS;
      }
    }

    /** defaultDisplayNode (projections.js:184-221): adds the leaves of Run to
        the counter and its lines to the folder. */
    method DisplayNode(m: MathLib, proj: Projection, q: Quad, level: int, cam: CamLoc)
      requires hasFolder && proj.WellFormed()
      modifies this
      ensures hasFolder
      ensures nodeCount == old(nodeCount) + Run(m, proj, q, level, cam).leaves
      ensures folder == old(folder) + Run(m, proj, q, level, cam).drawn
      decreases proj.MaxLevel() - level
    {
      var subdivide := Decide(m, proj, q, level, cam);
      if subdivide {
        var subdivision := Subdivide(m, proj, q);
        var center, top, bottom, left, right :=
          subdivision.center, subdivision.top, subdivision.bottom, subdivision.left, subdivision.right;
        RunOfSplit(m, proj, q, level, cam);
        ghost var c := Children(q, subdivision);
        ghost var o0, o1, o2, o3 := Run(m, proj, c[0], level + 1, cam), Run(m, proj, c[1], level + 1, cam),
          Run(m, proj, c[2], level + 1, cam), Run(m, proj, c[3], level + 1, cam);
        DrawDivisions(proj, subdivision);
        DisplayNode(m, proj, Quad(q.v0, top, left, center), level + 1, cam);
        DisplayNode(m, proj, Quad(top, q.v1, center, right), level + 1, cam);
        DisplayNode(m, proj, Quad(left, center, q.v2, bottom), level + 1, cam);
        DisplayNode(m, proj, Quad(center, right, bottom, q.v3), level + 1, cam);
        AppendAssociates(old(folder), DivisionSegments(proj, subdivision), o0.drawn, o1.drawn, o2.drawn, o3.drawn);
      } else {
        nodeCount := nodeCount + 1;
      }
    }
  }

  /** A call at or past maxLevel on a scene changes the counter by exactly
      one and draws nothing; a call at a level not past maxLevel adds between
      1 and 4^(maxLevel - level) leaves. */
  method DisplayNodeBounds(m: MathLib, proj: Projection, q: Quad, level: int, cam: CamLoc, scene: ProjectionScene)
    requires scene.hasFolder && proj.WellFormed()
    modifies scene
    ensures level >= proj.MaxLevel() ==> scene.nodeCount == old(scene.nodeCount) + 1 && scene.folder == old(scene.folder)
    ensures level <= proj.MaxLevel() ==>
      old(scene.nodeCount) + 1 <= scene.nodeCount <= old(scene.nodeCount) + Pow4(proj.MaxLevel() - level)
  {
    scene.DisplayNode(m, proj, q, level, cam);
  }
}
