/** The plane geometry the generators rely on: points in (longitude, latitude) order,
    the rectangular city bounds, clamping into them, and the axis-aligned bounding box
    of a polygon ring (shapely's `polygon.bounds`). Containment and centroids are
    shapely computations and enter the model as parameters of the operations that
    use them. */
module Geometry {
  import opened Builtins

  /** A shapely `Point(x, y)`; every generator stores longitude in `x`, latitude in `y`. */
  datatype Point = Point(x: real, y: real)

  /** The exterior coordinate sequence of a polygon. */
  type Ring = seq<Point>

  /** The coordinate bounds of the city. */
  const LAT_MIN: real := 12.8
  const LAT_MAX: real := 13.1
  const LON_MIN: real := 77.5
  const LON_MAX: real := 77.7

  predicate InCity(p: Point) {
    LON_MIN <= p.x <= LON_MAX && LAT_MIN <= p.y <= LAT_MAX
  }

  /** Clamp a latitude/longitude pair into the city bounds and build the point
      `(lon, lat)`: `max(LAT_MIN, min(LAT_MAX, lat))`, likewise for longitude. */
  function ClampToCity(lat: real, lon: real): (p: Point)
    ensures InCity(p)
    ensures InCity(Point(lon, lat)) ==> p == Point(lon, lat)
  {
    Point(Clamp(LON_MIN, LON_MAX, lon), Clamp(LAT_MIN, LAT_MAX, lat))
  }

  /** Clamping never moves a coordinate further from a value that lies inside the range. */
  lemma ClampCloser(lo: real, hi: real, x: real, c: real)
    requires lo <= c <= hi
    ensures Abs(Clamp(lo, hi, x) - c) <= Abs(x - c)
  {
  }

  function Abs(x: real): (r: real)
    ensures r >= 0.0 && (r == x || r == -x)
  {
    if x >= 0.0 then x else -x
  }

  /** `(minx, miny, maxx, maxy)`. */
  datatype Box = Box(minX: real, minY: real, maxX: real, maxY: real)

  predicate InBox(b: Box, p: Point) {
    b.minX <= p.x <= b.maxX && b.minY <= p.y <= b.maxY
  }

  /** `polygon.bounds`: the least axis-aligned box holding every vertex of the ring. */
  function Bounds(ring: Ring): (b: Box)
    requires |ring| > 0
    ensures forall i :: 0 <= i < |ring| ==> InBox(b, ring[i])
    ensures exists i :: 0 <= i < |ring| && ring[i].x == b.minX
    ensures exists i :: 0 <= i < |ring| && ring[i].y == b.minY
    ensures exists i :: 0 <= i < |ring| && ring[i].x == b.maxX
    ensures exists i :: 0 <= i < |ring| && ring[i].y == b.maxY
    decreases |ring|
  {
    var p := ring[0];
    if |ring| == 1 then Box(p.x, p.y, p.x, p.y)
    else
      var rest := Bounds(ring[1..]);
      assert forall i :: 1 <= i < |ring| ==> ring[i] == ring[1..][i - 1];
      Box(Min(p.x, rest.minX), Min(p.y, rest.minY), Max(p.x, rest.maxX), Max(p.y, rest.maxY))
  }
}
