# googlebike: level-of-detail projections, angle helpers and the joystick packet reader

A Dafny model of the core of googlebike, in three parts:

- **The quadtree projections of `server/lib/projections.js`.** The model covers:
  - the 3D vector helpers, including the conversion between latitude/longitude and points on the Earth's sphere;
  - the four projections (Plate-Carree, Mercator, BentMercator, CubeCell), each with its levels and its subdivision rule;
  - the two inputs of the screen-space error estimate, the view distance and the feature size, in their default and CubeCell forms;
  - the recursive `defaultDisplayNode` traversal;
  - the drawing state it updates: the current folder, kept as the list of lines drawn into it, and the leaf counter `nodeCount`;
  - the points `drawLatLonLine` pushes for one line.
- **The angle helpers of `server/lib/geplugin-helpers.js`:** `rad2deg`, `deg2rad`, `fixAngle`, `interpolateLoc` and `getHeading`. `interpolateLoc` lives in the shared `Geo` module, since the points `drawLatLonLine` pushes are specified by it too.
- **The packet side of `server/arduino.py`:** `parse_packet`, the validation in `read_packet`, and the stored packet that one iteration of `run` updates.

Numbers are exact reals. JavaScript's `Math` is a parameter of type `JsMath.MathLib`. It carries `pi` and one function per trigonometric, root, logarithm and exponential operation. The model knows only a handful of facts about them: `pi > 0`, `sin² + cos² = 1`, the ranges of `asin`, `acos` and `atan` (those of `asin` and `acos` assumed for every argument, see "Left out"), `cos >= 0` within a quarter turn of zero, `tan > 0` on (0, pi/2), `exp > 0`, and the sign of `sqrt`.

The recursion is specified by the function `Traversal.Run`. It gives the leaves a call counts and the lines it draws. `ProjectionScene.DisplayNode` is the recursive method over the mutable scene, and its postcondition ties the new counter and folder to `Run`.

Where the code and its documentation disagree, the model follows the code:

- **`minLevel` has no effect.** `defaultDisplayNode` sets `subdivide = true` below `minLevel`, but both branches of the next `if` overwrite it. So below `minLevel` a quad is split only when its error exceeds the threshold, as at every other level (`Traversal.MinLevelHasNoEffect`). No forced subdivision takes place.
- **The default `getViewDistance` does not clamp the camera into the quad.** It uses the camera's own latitude only when `verts[0].lat <= cam.lat <= verts[2].lat`. On a quad whose top (corner 0) is north of its bottom (corner 2), that never happens. The selected point is then always an edge: the bottom edge when the camera is north of it, the top edge otherwise, and likewise for longitude (`Projections.NearestOfOrientedQuad`).
- **CubeCell's `maxLevel -= 1` shadows the inherited value on CubeCell's own prototype.** CubeCell gets levels 0 and 13. Plate-Carree, Mercator and BentMercator keep 3 and 14 (`Projections.LevelsAlongPrototypeChain`).

## Model

| member | source | states |
|---|---|---|
| Vector3.Cross3d | server/lib/projections.js:42-47 | the cross product is perpendicular to both operands |
| Vector3.Cross3dAntisymmetric | server/lib/projections.js:42-47 | swapping the operands negates the cross product |
| Vector3.Dot3dSymmetric | server/lib/projections.js:49-51 | the dot product does not depend on operand order |
| Vector3.Add3dSub3d | server/lib/projections.js:53-65 | subtracting undoes adding and adding undoes subtracting |
| Vector3.Length3d | server/lib/projections.js:71-73 | the length is zero for the zero vector and positive for every other |
| Vector3.Normalize3d | server/lib/projections.js:75-78 | the result is parallel to the input (zero cross product), never points against it, and is zero exactly when the input is; NormalizedUnitLength adds its unit length |
| Vector3.NormalizedUnitLength | server/lib/projections.js:71-78 | wherever `Math.sqrt` returns the exact root of the squared length, a nonzero vector normalizes to one of length 1 |
| Vector3.PositiveScaling | server/lib/projections.js:67-69 | scaling by a positive factor keeps the direction (zero cross product with the input, non-negative dot product) and leaves a vector zero exactly when it was zero |
| Vector3.Bisect3d | server/lib/projections.js:80-84 | the result is half the sum of the two points, as far from the first as the second is from it |
| Vector3.LatLonTo3d | server/lib/projections.js:86-97 | every latitude/longitude maps to a point at distance EARTH_RADIUS from the origin |
| Vector3.LatLonFrom3d | server/lib/projections.js:99-111 | the latitude is within [-90, 90], and the longitude is 0 unless the absolute latitude is below 90 |
| Vector3.UnitCoordinates | server/lib/projections.js:99-104 | every coordinate of a unit vector is within [-1, 1], so the `Math.asin` argument of latLonFrom3d is in its domain |
| Vector3.LeftDistance3d | server/lib/projections.js:119-138 | 0 for a line shorter than one meter; otherwise the absolute value is the cross-product length over the line length; positive only when the point is on the left (positive dot with the cross product), and never negative when it is |
| Vector3.EarthDistance3d | server/lib/projections.js:140-145 | the surface distance is between 0 and half the circumference |
| Vector3.UnitDotBounded | server/lib/projections.js:140-145 | the dot product of two unit vectors is within [-1, 1], so the `Math.acos` argument of earthDistance3d is in its domain |
| Projections.Children | server/lib/projections.js:213-216 | the four children share the edge midpoints and the center as the quadtree picture shows, and child i keeps parent corner i |
| Projections.LevelsAlongPrototypeChain | server/lib/projections.js:416-419 | Plate-Carree, Mercator and BentMercator have levels 3 and 14; CubeCell has 0 and 13 |
| Projections.PlateCarreeSubdivide | server/lib/projections.js:297-313 | the middle longitude and the average of the top and bottom latitudes place the center and the four edge midpoints (shape in LatLonSubdivideShape, tiling in PlateCarreeTiles) |
| Projections.MercatorLatitudeToY | server/lib/projections.js:324-326 | the Mercator y of a latitude: log of tan(pi/4 + lat/2), with the latitude in radians |
| Projections.MercatorYToLatitude | server/lib/projections.js:327-329 | every Mercator y maps to a latitude strictly between the poles |
| Projections.MercatorSubdivide | server/lib/projections.js:331-350 | as Plate-Carree, but the split latitude is the one whose Mercator y is halfway between the top and bottom ones |
| Projections.MapLat | server/lib/projections.js:369-372 | the latitude scaled from [-90, 90] onto [-maxLat, maxLat] (inverted by InvMapLat, see InvMapLatMapLat) |
| Projections.InvMapLat | server/lib/projections.js:375-378 | the inverse BentMercator mapping always lands in [-90, 90] |
| Projections.InvMapLatMapLat | server/lib/projections.js:369-378 | invMapLat undoes mapLat on every latitude of the globe |
| Projections.MapLatInvMapLat | server/lib/projections.js:369-378 | mapLat undoes invMapLat on the mapped range [-maxLat, maxLat] |
| Projections.SplitLat | server/lib/projections.js:380-387 | the BentMercator split latitude is always on the globe |
| Projections.BentMercatorSubdivide | server/lib/projections.js:389-406 | as Plate-Carree, but the split latitude is SplitLat of the top and bottom latitudes |
| Projections.CubeCellSubdivide | server/lib/projections.js:454-470 | the new points are the lat/lon of the normalized 3D centroid and of the bisected edges (CubeCellCenterIsCentroid) |
| Projections.Subdivide | server/lib/projections.js:203 | `proj.subdivide(verts, level)`: each projection applies its own rule |
| Projections.LatLonSubdivideShape | server/lib/projections.js:297-406 | the three lat/lon projections place top/bottom on the corner latitudes at the middle longitude and left/right on the corner longitudes at the split latitude, and never read corner 3 |
| Projections.PlateCarreeSplitsBetween | server/lib/projections.js:297-313 | the Plate-Carree split latitude is the average of the top and bottom latitudes, so it lies between them |
| Projections.LatLonSplitTiles | server/lib/projections.js:297-406 | a lat/lon-shaped split of an aligned quad gives aligned children of half the width; with the split latitude between top and bottom, the children are oriented and a point lies in the parent exactly when it lies in some child |
| Projections.PlateCarreeTiles | server/lib/projections.js:297-313 | Plate-Carree children of an oriented quad are oriented and cover exactly the parent |
| Projections.CubeCellCenterIsCentroid | server/lib/projections.js:454-470 | the CubeCell center is the corner centroid getViewDistance uses, and equals the midpoint of the top/bottom and of the left/right edge midpoints |
| Projections.SubdivideStaysOnGlobe | server/lib/projections.js:297-470 | every projection's subdivision of a quad on the globe keeps all five new points on the globe |
| Projections.NearestLat | server/lib/projections.js:234-246 | the chosen latitude is the bottom, the camera's or the top one, and it is the camera's exactly when verts[0].lat <= cam.lat <= verts[2].lat |
| Projections.NearestLon | server/lib/projections.js:236-255 | the chosen longitude is the left, the camera's or the right one, and it is the camera's exactly when verts[1].lon <= cam.lon <= verts[0].lon |
| Projections.NearestOfOrientedQuad | server/lib/projections.js:233-255 | on a quad with its top north of its bottom and its left west of its right, the choice is always an edge, never the camera's coordinate |
| Projections.DefaultViewDistance | server/lib/projections.js:233-261 | the default view distance is never negative |
| Projections.CubeCellViewDistance | server/lib/projections.js:421-438 | the CubeCell view distance is between 0 and the surface distance from the camera to the centroid |
| Projections.ViewDistance | server/lib/projections.js:194 | `proj.getViewDistance`: CubeCell's override for CubeCell, the default otherwise; never negative |
| Projections.LonBoundarySize | server/lib/projections.js:266-270 | the length of the top or bottom boundary nearer the equator: cos of the smaller absolute latitude times the longitude span in radians times EARTH_RADIUS |
| Projections.LatBoundarySize | server/lib/projections.js:273-274 | the side boundary length is never negative |
| Projections.DefaultFeatureSize | server/lib/projections.js:263-279 | the feature size times the tile resolution is the larger of the two boundary lengths, and is never negative |
| Projections.CubeCellFeatureSize | server/lib/projections.js:440-445 | the CubeCell feature size is between 0 and half the circumference over the tile resolution |
| Projections.FeatureSize | server/lib/projections.js:193 | `proj.getFeatureSize`: CubeCell's override for CubeCell, the default otherwise; never negative |
| Projections.DivisionSegments | server/lib/projections.js:282-287 | four lines, each touching the center, together reaching all four edge midpoints; geodesics for CubeCell and lat/lon lines otherwise |
| Projections.LineStepSize | server/lib/projections.js:493-495 | 10 times the cosine of the latitude nearer a pole, plus 0.01 (LineStepSizePositive bounds it) |
| Projections.LineSteps | server/lib/projections.js:496 | the whole number of steps that fit in the longitude span |
| Projections.LineStepSizePositive | server/lib/projections.js:493-495 | between the poles the longitude step is at least 0.01 |
| Projections.LatLonLinePoints | server/lib/projections.js:493-507 | steps + 2 points from the start to the end, point k being the interpolation at k/(steps + 1) |
| Traversal.ProjectionConstant | server/lib/projections.js:21-24 | the projection constant is positive |
| Traversal.ErrorEstimate | server/lib/projections.js:193-198 | the error is never negative, and is 1e6 when the camera is at no positive distance |
| Traversal.ScreenSize | server/lib/projections.js:23-28 | the on-screen size is never negative |
| Traversal.EstimatedError | server/lib/projections.js:193-198 | the error estimate of a quad from its feature size and its view distance |
| Traversal.Subdivides | server/lib/projections.js:185-200 | never at or past maxLevel; below it, exactly when the estimated error exceeds the threshold |
| Traversal.NonPositiveDistanceSplits | server/lib/projections.js:185-200 | below maxLevel, a view distance of zero or less always splits the quad |
| Traversal.MinLevelHasNoEffect | server/lib/projections.js:185-200 | below minLevel the quad is split exactly when its error exceeds the threshold |
| Traversal.Run | server/lib/projections.js:184-221 | a call counts 3 more leaves than it splits quads and draws 4 lines per split; at or past maxLevel it counts one leaf and draws nothing; below it, at most 4^(maxLevel - level) leaves |
| Traversal.RunDrawsOnGlobe | server/lib/projections.js:184-221 | starting from a quad on the globe, every line drawn starts and ends on the globe |
| Traversal.ProjectionScene.constructor | server/lib/projections.js:36-37 | no folder and no leaves at the start |
| Traversal.ProjectionScene.ClearProjection | server/lib/projections.js:526-536 | a new empty folder and a zero counter |
| Traversal.ProjectionScene.DrawLatLonLine | server/lib/projections.js:483-510 | one more lat/lon line in the folder, the counter unchanged |
| Traversal.ProjectionScene.DrawGeodesic | server/lib/projections.js:513-523 | one more geodesic in the folder, the counter unchanged |
| Traversal.ProjectionScene.DrawDivisions | server/lib/projections.js:282-287 | the folder gains exactly the four division lines of the projection's style |
| Traversal.ProjectionScene.Decide | server/lib/projections.js:185-200 | the decision as written, dead assignment included, equals the specified decision |
| Traversal.ProjectionScene.DisplayNode | server/lib/projections.js:184-221 | the counter grows by Run's leaves and the folder by Run's lines |
| Traversal.DisplayNodeBounds | server/lib/projections.js:184-221 | at or past maxLevel one leaf and no lines; otherwise between 1 and 4^(maxLevel - level) leaves |
| GeHelpers.Deg2RadRad2Deg | server/lib/geplugin-helpers.js:157-168 | degrees-to-radians undoes radians-to-degrees |
| GeHelpers.Rad2DegDeg2Rad | server/lib/geplugin-helpers.js:157-168 | radians-to-degrees undoes degrees-to-radians |
| GeHelpers.Rad2Deg | server/lib/geplugin-helpers.js:157-159 | radians times 180 over pi (undone by Deg2Rad, see Deg2RadRad2Deg) |
| GeHelpers.Deg2Rad | server/lib/geplugin-helpers.js:166-168 | degrees times pi over 180 (undone by Rad2Deg, see Rad2DegDeg2Rad) |
| GeHelpers.Turns | server/lib/geplugin-helpers.js:176-184 | no turns for an angle in [-180, 180]; otherwise the turns bring it into [-180, 180), from below, or (-180, 180], from above |
| GeHelpers.FixedAngle | server/lib/geplugin-helpers.js:170-184 | the result is in [-180, 180], equals the angle when it already was, and differs from it by whole turns |
| GeHelpers.FixAngle | server/lib/geplugin-helpers.js:176-184 | the two loops compute FixedAngle |
| GeHelpers.FixedAngleIdempotent | server/lib/geplugin-helpers.js:170-184 | fixing a fixed angle changes nothing |
| Geo.InterpolateLoc | server/lib/geplugin-helpers.js:192-196 | the start plus `f` times the difference, coordinate by coordinate |
| Geo.InterpolateLocEnds | server/lib/geplugin-helpers.js:186-196 | fraction 0 is the start, 1 the end, and 0.5 the midpoint |
| Geo.InterpolateLocBetween | server/lib/geplugin-helpers.js:192-196 | for a fraction in [0, 1] between two locations on the globe, the result is on the globe with each coordinate between theirs, so the constructor's latitude clamping does not apply, nor its longitude wrapping when both ends' longitudes are within [-180, 180] |
| GeHelpers.GetHeading | server/lib/geplugin-helpers.js:137-150 | the heading is in [-180, 180] and is the fixed degree value of the bearing |
| GeHelpers.Bearing | server/lib/geplugin-helpers.js:144-147 | the `Math.atan2` bearing formula on the radian coordinates |
| Arduino.TrimStartSpec | server/arduino.py:32 | trimming the start drops a whitespace prefix and stops at the first other character |
| Arduino.TrimEndSpec | server/arduino.py:32 | trimming the end drops a whitespace suffix and stops at the last other character |
| Arduino.StripSpec | server/arduino.py:32 | strip keeps a contiguous part of the line that neither starts nor ends with whitespace |
| Arduino.StripDropsSpace | server/arduino.py:32 | everything strip removes is whitespace |
| Arduino.Strip | server/arduino.py:32 | `str.strip()`: the start trimmed, then the end (characterised by StripSpec and StripDropsSpace) |
| Arduino.Split | server/arduino.py:32 | split always gives at least one field |
| Arduino.JoinSplit | server/arduino.py:32 | joining the fields of a split with the separator gives the line back |
| Arduino.SplitFieldsLackSeparator | server/arduino.py:32 | no field holds the separator |
| Arduino.SplitJoin | server/arduino.py:32 | splitting undoes joining fields free of the separator |
| Arduino.FindSpec | server/arduino.py:43-47 | the index of the first comma, and None exactly when there is no comma |
| Arduino.Find | server/arduino.py:43-47 | `',' in buffer` and `buffer.index(',')` together: the first index of the character, None where it is absent (FindSpec) |
| Arduino.ParseInt | server/arduino.py:33-36 | Python 2 `int()`: surrounding whitespace, an optional sign that whitespace may follow, then decimal digits; None where int raises ValueError |
| Arduino.FormatNat | server/server.py:34 | a nonempty digit string whose value is the number |
| Arduino.FormatInt | server/server.py:34 | `%i`: a minus sign for negative numbers, then the decimal digits |
| Arduino.FormatPacket | server/server.py:34 | the four integers of a packet joined by commas |
| Arduino.ParseFormatInt | server/arduino.py:33-36 | int() reads back every integer "%i" writes |
| Arduino.ParsePacket | server/arduino.py:31-38 | the ints of the first four comma fields of the stripped line; None where Python raises (fewer than four fields, or a field int() rejects) |
| Arduino.ReadOutcome | server/arduino.py:40-57 | None for a line with no comma, with its first comma at index 0, or that parse_packet rejects; otherwise the parsed packet |
| Arduino.ParseFormattedPacket | server/arduino.py:31-38 | parse_packet reads back every packet written as "%i,%i,%i,%i" |
| Arduino.ReadOutcomeRejectsCommaPlacement | server/arduino.py:43-50 | a line without a comma, or starting with one, is rejected |
| Arduino.ReadOutcomeAccepts | server/arduino.py:43-57 | a line is read as packet p exactly when it holds a comma not at its start and its stripped text has at least four comma fields whose first four are p's integers |
| Arduino.ReadOutcomeRejectsShort | server/arduino.py:31-57 | a line with fewer than four comma fields is rejected |
| Arduino.ReadFormattedPacket | server/arduino.py:40-57 | a formatted packet followed by any whitespace line ending is read back unchanged |
| Arduino.NextPacket | server/arduino.py:119-131 | the line's packet after a good read, the current packet after a bad one |
| Arduino.NextPacketReplacesOnlyOnSuccess | server/arduino.py:119-131 | a good read replaces the stored packet by the line's packet, and a bad one keeps it |
| Arduino.ArduinoReader.constructor | server/arduino.py:15-22 | the stored packet starts as (512, 512, 1, 0) and the buffer as empty |
| Arduino.ArduinoReader.ReadPacket | server/arduino.py:40-57 | the buffer holds the line, success is true exactly when a packet comes back, and that packet is the line's read outcome |
| Arduino.ArduinoReader.PollStep | server/arduino.py:119-131 | one iteration stores the line's packet after a good read and keeps the old one after a bad read |

## Left out

- Google Earth and the browser: creating line strings, placemarks and folders, their visibility, `LINE_ALT`, and the DOM update in `updateNodeCount`. A folder is modelled as the list of lines drawn into it.
- `getCameraLocation`: the camera location is a parameter.
- The application drivers `drawPlateCarree`, `drawMercator`, `drawBentMercator` and `drawCubeCell` (projections.js:542-624): they only call the modelled operations on literal root quads.
- Geo.InterpolateLoc: interpolates linearly for every fraction. The source passes the result to the Maps API `GLatLng` constructor, which is not part of this model and which clamps the latitude to [-90, 90] and wraps the longitude; this matters only outside the case Geo.InterpolateLocBetween covers (a fraction in [0, 1] between two locations on the globe whose longitudes are within [-180, 180]).
- GeHelpers.GetHeading: the source assigns `lat1`, `lon1`, `lat2` and `lon2` without `var`, so each call also writes four global variables; the model keeps them local.
- `GEHelpers.distance`: it depends on the plugin's ground altitude and on a vector library that is not part of this model.
- Floating point: all arithmetic is exact. In the source, `drawLatLonLine`'s repeated additions accumulate rounding that the model does not show, and `fixAngle` never returns for an infinite angle (its loops at geplugin-helpers.js:177-181 leave `Infinity` unchanged), a value exact reals do not have.
- The transcendental functions of `Math`: opaque, known only by the facts listed above. The ranges of `asin` and `acos` are assumed for every argument, whereas `Math.asin` and `Math.acos` return NaN outside [-1, 1]; with exact arithmetic and an exact `sqrt`, the arguments latLonFrom3d and earthDistance3d pass stay within [-1, 1] (Vector3.UnitCoordinates, Vector3.UnitDotBounded).
- Vector3.Normalize3d: for the zero vector the source divides by zero and yields NaN components; the model returns the zero vector instead. Unit length is stated only where `Math.sqrt` is exact at the squared length (Vector3.NormalizedUnitLength), because the model's `Math` carries no fact tying `sqrt(x)` to `x`: no function written down in Dafny takes exact square roots of every real, so such a fact could not be shown consistent.
- Vector3.EarthDistance3d: states only the range of the distance, since `acos` is opaque.
- Projections.BentMercatorSubdivide: requires a nonzero `maxLat`, which the source divides by.
- Projections.LatLonLinePoints: requires both endpoints on the globe. Beyond the poles the cosine may be negative and the step size zero or negative, which the source does not guard against.
- Traversal.ProjectionScene.DisplayNode: requires a current folder. The source would throw drawing into a missing one. The per-projection `displayNode` dispatch on the prototype is called directly.
- The serial port, `readline`, `configure_serial`, the thread, its condition variable, `keepAlive`, `sleep`, logging, `print` and `__del__`. The line `readline` returned is a parameter of `ReadPacket` and `PollStep`, and `run` is modelled one iteration at a time.
- `run` raising IOError without a configured port, and `get_packet`'s locked deep copy: the stored packet is the `packet` field.
- Python 2 `int()` beyond base-10 decimal text: numbers are unbounded, so the distinction between `int` and `long` is not modelled.
