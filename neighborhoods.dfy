/** Neighbourhood generation (data/generate_neighborhoods.py): a near-square grid of
    cells over the city bounds, one jittered centre per cell in row-major order, an
    irregular 5- to 8-vertex ring around each centre, and the `NH-###` records. */
module Neighborhoods {
  import opened Builtins
  import opened Text
  import opened Geometry

  const NEIGHBORHOOD_NAMES: seq<string> := [
    "Koramangala", "Indiranagar", "Whitefield", "Electronic City", "Jayanagar",
    "Malleshwaram", "Rajajinagar", "Banashankari", "BTM Layout", "HSR Layout",
    "Yelahanka", "Hebbal", "Marathahalli", "Bellandur", "Sarjapur",
    "JP Nagar", "Basavanagudi", "Richmond Town", "Frazer Town", "Shivajinagar",
    "Sadashivanagar", "RT Nagar", "Kalyan Nagar", "KR Puram", "Mahadevapura",
    "Bommanahalli", "Hoodi", "Brookefield", "Varthur", "Kadugodi",
    "Nagarbhavi", "Peenya", "Vijayanagar", "Yeshwantpur", "Mathikere",
    "Jalahalli", "Rajajinagar", "Kammanahalli", "Banaswadi", "Rammurthy Nagar",
    "CV Raman Nagar", "Domlur", "Ulsoor", "Cox Town", "Pulakeshi Nagar",
    "Bannerghatta", "Begur", "Arekere", "Hulimavu", "Uttarahalli"
  ]

  const MIN_POPULATION: int := 50000
  const MAX_POPULATION: int := 200000

  /** One row of neighborhoods.csv, with the boundary as its coordinate ring. */
  datatype Neighborhood = Neighborhood(id: string, name: string, boundary: Ring, population: int)

  /** The three unit draws behind one vertex: the radius fraction `uniform(0.7, 1.0)` and
      the two offsets `uniform(-1, 1)`. */
  datatype VertexDraw = VertexDraw(radius: real, latOffset: real, lonOffset: real)

  /** The draws behind one ring: `randint(5, 8)` for the side count and one vertex draw
      per possible side. */
  datatype PolygonDraw = PolygonDraw(sides: nat, vertices: seq<VertexDraw>)

  /** The draws behind one neighbourhood: the two centre jitters, its ring, its population. */
  datatype NeighborhoodDraw = NeighborhoodDraw(latJitter: real, lonJitter: real, polygon: PolygonDraw, population: nat)

  predicate ValidVertexDraw(v: VertexDraw) {
    Unit(v.radius) && Unit(v.latOffset) && Unit(v.lonOffset)
  }

  predicate ValidPolygonDraw(d: PolygonDraw) {
    |d.vertices| >= 8 && forall i :: 0 <= i < |d.vertices| ==> ValidVertexDraw(d.vertices[i])
  }

  predicate ValidNeighborhoodDraw(d: NeighborhoodDraw) {
    Unit(d.latJitter) && Unit(d.lonJitter) && ValidPolygonDraw(d.polygon)
  }

  // ---------------------------------------------------------------- polygons

  function SideCount(d: PolygonDraw): (n: int)
    ensures 5 <= n <= 8
  {
    RandInt(5, 8, d.sides)
  }

  /** `size * uniform(0.7, 1.0)`. */
  function Radius(size: real, v: VertexDraw): real
    requires ValidVertexDraw(v)
  {
    size * Uniform(0.7, 1.0, v.radius)
  }

  /** The vertex latitude before clamping: `center_lat + radius * uniform(-1, 1)`. */
  function RawLat(centerLat: real, size: real, v: VertexDraw): real
    requires ValidVertexDraw(v)
  {
    centerLat + Radius(size, v) * Uniform(-1.0, 1.0, v.latOffset)
  }

  /** The vertex longitude before clamping: `center_lon + radius * uniform(-1, 1)`. */
  function RawLon(centerLon: real, size: real, v: VertexDraw): real
    requires ValidVertexDraw(v)
  {
    centerLon + Radius(size, v) * Uniform(-1.0, 1.0, v.lonOffset)
  }

  /** One vertex: both coordinates clamped into the city, stored as (lon, lat). */
  function Vertex(centerLat: real, centerLon: real, size: real, v: VertexDraw): (p: Point)
    requires ValidVertexDraw(v)
    ensures InCity(p)
  {
    ClampToCity(RawLat(centerLat, size, v), RawLon(centerLon, size, v))
  }

  /** The first `k` vertices of a ring. */
  function Vertices(centerLat: real, centerLon: real, size: real, d: PolygonDraw, k: nat): (vs: seq<Point>)
    requires ValidPolygonDraw(d) && k <= |d.vertices|
    ensures |vs| == k
    ensures forall i :: 0 <= i < k ==> vs[i] == Vertex(centerLat, centerLon, size, d.vertices[i])
  {
    if k == 0 then []
    else Vertices(centerLat, centerLon, size, d, k - 1) + [Vertex(centerLat, centerLon, size, d.vertices[k - 1])]
  }

  /** The ring `generate_polygon_in_bounds` builds: `SideCount` vertices, then the first
      one again to close it. */
  function PolygonRing(centerLat: real, centerLon: real, size: real, d: PolygonDraw): (ring: Ring)
    requires ValidPolygonDraw(d)
    ensures |ring| == SideCount(d) + 1 && 6 <= |ring| <= 9
    ensures ring[|ring| - 1] == ring[0]
    ensures forall i :: 0 <= i < |ring| ==> InCity(ring[i])
  {
    var vs := Vertices(centerLat, centerLon, size, d, SideCount(d));
    vs + [vs[0]]
  }

  /** `generate_polygon_in_bounds`: append one clamped vertex per side, then close the ring. */
  method GeneratePolygon(centerLat: real, centerLon: real, size: real, d: PolygonDraw) returns (ring: Ring)
    requires ValidPolygonDraw(d)
    ensures ring == PolygonRing(centerLat, centerLon, size, d)
  {
    var numPoints := RandInt(5, 8, d.sides);
    var points: seq<Point> := [];
    var i := 0;
    while i < numPoints
      invariant 0 <= i <= numPoints
      invariant points == Vertices(centerLat, centerLon, size, d, i)
    {
      var p := PolygonVertex(centerLat, centerLon, size, d.vertices[i]);
      points := points + [p];
      i := i + 1;
    }
    points := points + [points[0]];
    ring := points;
  }

  /** One pass of the vertex loop: a radius, two offsets, and the clamp into the city;
      specified by `Vertex`. */
  method PolygonVertex(centerLat: real, centerLon: real, size: real, v: VertexDraw) returns (p: Point)
    requires ValidVertexDraw(v)
    ensures p == Vertex(centerLat, centerLon, size, v)
  {
    var radius := size * Uniform(0.7, 1.0, v.radius);
    assert radius == Radius(size, v);
    var lat := centerLat + radius * Uniform(-1.0, 1.0, v.latOffset);
    var lon := centerLon + radius * Uniform(-1.0, 1.0, v.lonOffset);
    assert lat == RawLat(centerLat, size, v) && lon == RawLon(centerLon, size, v);
    lat := Clamp(LAT_MIN, LAT_MAX, lat);
    lon := Clamp(LON_MIN, LON_MAX, lon);
    p := Point(lon, lat);
  }

  /** Before clamping, a vertex is at most `size` from the centre in each axis: the radius
      is at most `size` and each offset factor lies in [-1, 1]. */
  lemma RawVertexWithinSize(centerLat: real, centerLon: real, size: real, v: VertexDraw)
    requires size >= 0.0 && ValidVertexDraw(v)
    ensures Abs(RawLat(centerLat, size, v) - centerLat) <= size
    ensures Abs(RawLon(centerLon, size, v) - centerLon) <= size
  {
    var f := Uniform(0.7, 1.0, v.radius);
    var a := Uniform(-1.0, 1.0, v.latOffset);
    var b := Uniform(-1.0, 1.0, v.lonOffset);
    var radius := Radius(size, v);
    assert radius == size * f;
    ScaleWithin(size, f);
    assert 0.0 <= radius <= size;
    ScaleWithin(radius, a);
    ScaleWithin(radius, b);
    assert RawLat(centerLat, size, v) - centerLat == radius * a;
    assert RawLon(centerLon, size, v) - centerLon == radius * b;
  }

  /** Scaling a non-negative length by a factor in [-1, 1] keeps it within that length. */
  lemma ScaleWithin(len: real, f: real)
    requires 0.0 <= len && -1.0 <= f <= 1.0
    ensures Abs(len * f) <= len
    ensures 0.0 <= f ==> 0.0 <= len * f
  {
    MulNonNegative(len, 1.0 - f);
    MulNonNegative(len, 1.0 + f);
    if 0.0 <= f {
      MulNonNegative(len, f);
    }
  }

  /** Clamping keeps that bound when the centre itself lies in the city. */
  lemma VertexWithinSize(centerLat: real, centerLon: real, size: real, v: VertexDraw)
    requires size >= 0.0 && ValidVertexDraw(v)
    requires InCity(Point(centerLon, centerLat))
    ensures Abs(Vertex(centerLat, centerLon, size, v).y - centerLat) <= size
    ensures Abs(Vertex(centerLat, centerLon, size, v).x - centerLon) <= size
  {
    RawVertexWithinSize(centerLat, centerLon, size, v);
    ClampCloser(LAT_MIN, LAT_MAX, RawLat(centerLat, size, v), centerLat);
    ClampCloser(LON_MIN, LON_MAX, RawLon(centerLon, size, v), centerLon);
  }

  /** Every vertex of a ring around a centre in the city is within `size` of the centre. */
  lemma RingWithinSize(centerLat: real, centerLon: real, size: real, d: PolygonDraw)
    requires size >= 0.0 && ValidPolygonDraw(d)
    requires InCity(Point(centerLon, centerLat))
    ensures forall i :: 0 <= i < |PolygonRing(centerLat, centerLon, size, d)| ==>
      Abs(PolygonRing(centerLat, centerLon, size, d)[i].y - centerLat) <= size &&
      Abs(PolygonRing(centerLat, centerLon, size, d)[i].x - centerLon) <= size
  {
    var ring := PolygonRing(centerLat, centerLon, size, d);
    forall i | 0 <= i < |ring|
      ensures Abs(ring[i].y - centerLat) <= size && Abs(ring[i].x - centerLon) <= size
    {
      var k := if i < |ring| - 1 then i else 0;
      assert ring[i] == Vertex(centerLat, centerLon, size, d.vertices[k]);
      VertexWithinSize(centerLat, centerLon, size, d.vertices[k]);
    }
  }

  // ---------------------------------------------------------------- grid

  /** The integer square root, `int(n ** 0.5)`: the largest `r` with `r * r <= n`, found by
      counting `r` up while keeping `sq == r * r` with additions only. */
  function ISqrt(n: nat): nat {
    RootFrom(n, 0, 0)
  }

  function RootFrom(n: nat, r: nat, sq: nat): nat
    decreases n - sq
  {
    if sq + 2 * r + 1 > n then r else RootFrom(n, r + 1, sq + 2 * r + 1)
  }

  lemma {:induction false} RootFromBounds(n: nat, r: nat, sq: nat)
    requires sq == r * r && sq <= n
    ensures RootFrom(n, r, sq) * RootFrom(n, r, sq) <= n < (RootFrom(n, r, sq) + 1) * (RootFrom(n, r, sq) + 1)
    decreases n - sq
  {
    assert (r + 1) * (r + 1) == sq + 2 * r + 1;
    if sq + 2 * r + 1 <= n {
      RootFromBounds(n, r + 1, sq + 2 * r + 1);
    }
  }

  /** `ISqrt(n)` is the largest `r` with `r * r <= n`. */
  lemma ISqrtBounds(n: nat)
    ensures ISqrt(n) * ISqrt(n) <= n < (ISqrt(n) + 1) * (ISqrt(n) + 1)
  {
    RootFromBounds(n, 0, 0);
  }

  /** `int(count ** 0.5) + 1`: the number of rows and of columns of the grid. */
  function GridSize(count: nat): (g: nat)
    ensures g >= 1
  {
    ISqrt(count) + 1
  }

  /** The grid has room for every neighbourhood: `grid_size` squared exceeds `count`. */
  lemma GridExceedsCount(count: nat)
    ensures count < GridSize(count) * GridSize(count)
  {
    ISqrtBounds(count);
  }

  /** So every index below `count` has its row and its column below `grid_size`. */
  lemma GridHoldsAll(count: nat, i: nat)
    requires i < count
    ensures i / GridSize(count) < GridSize(count) && i % GridSize(count) < GridSize(count)
  {
    var g := GridSize(count);
    GridExceedsCount(count);
    if i / g >= g {
      MulMonotone(g, i / g, g);
      assert false;
    }
  }

  lemma MulMonotone(a: nat, b: nat, c: nat)
    requires a <= b
    ensures a * c <= b * c
  {
  }

  /** The distance between neighbouring cell centres along one axis. */
  function Step(lo: real, hi: real, g: nat): (step: real)
    requires lo <= hi && g >= 1
    ensures step >= 0.0
  {
    (hi - lo) / g as real
  }

  /** A jittered cell centre: `lo + (cell + 0.5) * step + uniform(-0.2 * step, 0.2 * step)`. */
  function CellCentre(lo: real, step: real, cell: nat, jitter: real): real
    requires step >= 0.0 && Unit(jitter)
  {
    lo + (cell as real + 0.5) * step + Uniform(-step * 0.2, step * 0.2, jitter)
  }

  /** A centre stays within a fifth of a step of its cell midpoint. */
  lemma CentreNearMidpoint(lo: real, step: real, cell: nat, jitter: real)
    requires step >= 0.0 && Unit(jitter)
    ensures Abs(CellCentre(lo, step, cell, jitter) - (lo + (cell as real + 0.5) * step)) <= 0.2 * step
  {
  }

  /** For a cell of the grid, the centre lies inside the bounds the grid covers. */
  lemma CentreWithinBounds(lo: real, hi: real, g: nat, cell: nat, jitter: real)
    requires lo <= hi && g >= 1 && cell < g && Unit(jitter)
    ensures lo <= CellCentre(lo, Step(lo, hi, g), cell, jitter) <= hi
  {
    var step := Step(lo, hi, g);
    assert step * g as real == hi - lo;
    MulNonNegative(cell as real + 0.3, step);
    MulNonNegative(g as real - cell as real - 0.7, step);
  }

  /** The centre of neighbourhood `i` as (latitude, longitude). */
  function Centre(count: nat, i: nat, d: NeighborhoodDraw): (real, real)
    requires ValidNeighborhoodDraw(d)
  {
    var g := GridSize(count);
    (CellCentre(LAT_MIN, Step(LAT_MIN, LAT_MAX, g), i / g, d.latJitter),
     CellCentre(LON_MIN, Step(LON_MIN, LON_MAX, g), i % g, d.lonJitter))
  }

  /** Every centre of the grid lies inside the city. */
  lemma CentreInCity(count: nat, i: nat, d: NeighborhoodDraw)
    requires i < count && ValidNeighborhoodDraw(d)
    ensures InCity(Point(Centre(count, i, d).1, Centre(count, i, d).0))
  {
    var g := GridSize(count);
    var row := i / g;
    var col := i % g;
    GridHoldsAll(count, i);
    CellCentresInCity(g, row, col, d);
  }

  lemma CellCentresInCity(g: nat, row: nat, col: nat, d: NeighborhoodDraw)
    requires row < g && col < g && ValidNeighborhoodDraw(d)
    ensures InCity(Point(CellCentre(LON_MIN, Step(LON_MIN, LON_MAX, g), col, d.lonJitter),
                         CellCentre(LAT_MIN, Step(LAT_MIN, LAT_MAX, g), row, d.latJitter)))
  {
    CentreWithinBounds(LAT_MIN, LAT_MAX, g, row, d.latJitter);
    CentreWithinBounds(LON_MIN, LON_MAX, g, col, d.lonJitter);
  }

  // ---------------------------------------------------------------- records

  /** `f"NH-{i+1:03d}"`. */
  function NeighborhoodId(i: nat): string {
    "NH-" + Padded(i + 1, 3)
  }

  /** The listed name for the first fifty, `f"Neighborhood {i+1}"` after that. */
  function NeighborhoodName(i: nat): string {
    if i < |NEIGHBORHOOD_NAMES| then NEIGHBORHOOD_NAMES[i] else "Neighborhood " + NatToString(i + 1)
  }

  /** Record `i` of `generate_neighborhoods(count)`. */
  function NeighborhoodAt(count: nat, i: nat, d: NeighborhoodDraw): Neighborhood
    requires i < count && ValidNeighborhoodDraw(d)
  {
    var g := GridSize(count);
    var c := Centre(count, i, d);
    Neighborhood(
      NeighborhoodId(i),
      NeighborhoodName(i),
      PolygonRing(c.0, c.1, Step(LAT_MIN, LAT_MAX, g) * 0.4, d.polygon),
      RandInt(MIN_POPULATION, MAX_POPULATION, d.population))
  }

  /** `generate_neighborhoods(count)`: one record per index, in index order. */
  method GenerateNeighborhoods(count: nat, draws: seq<NeighborhoodDraw>) returns (nhs: seq<Neighborhood>)
    requires |draws| == count
    requires forall i :: 0 <= i < count ==> ValidNeighborhoodDraw(draws[i])
    ensures |nhs| == count
    ensures forall i :: 0 <= i < count ==> nhs[i] == NeighborhoodAt(count, i, draws[i])
  {
    ghost var all := seq(count, k requires 0 <= k < count => NeighborhoodAt(count, k, draws[k]));
    nhs := [];
    var gridSize := GridSize(count);
    var latStep := Step(LAT_MIN, LAT_MAX, gridSize);
    var lonStep := Step(LON_MIN, LON_MAX, gridSize);
    var i := 0;
    while i < count
      invariant 0 <= i <= count
      invariant nhs == all[..i]
    {
      var nh := BuildNeighborhood(count, i, draws[i], gridSize, latStep, lonStep);
      assert all[..i + 1] == all[..i] + [nh];
      nhs := nhs + [nh];
      i := i + 1;
    }
    assert nhs == all;
  }

  /** One pass of the loop in `generate_neighborhoods`: the grid cell of index `i`, a
      jittered centre in it, the polygon around that centre, the id, name and population; specified by `NeighborhoodAt`. */
  method BuildNeighborhood(count: nat, i: nat, d: NeighborhoodDraw, gridSize: nat, latStep: real, lonStep: real)
    returns (nh: Neighborhood)
    requires i < count && ValidNeighborhoodDraw(d)
    requires gridSize == GridSize(count)
    requires latStep == Step(LAT_MIN, LAT_MAX, gridSize) && lonStep == Step(LON_MIN, LON_MAX, gridSize)
    ensures nh == NeighborhoodAt(count, i, d)
  {
    var centerLat, centerLon := GridCentre(count, i, d, gridSize, latStep, lonStep);
    var polygon := GeneratePolygon(centerLat, centerLon, latStep * 0.4, d.polygon);
    var name := NeighborhoodName(i);
    var population := RandInt(MIN_POPULATION, MAX_POPULATION, d.population);
    nh := Neighborhood("NH-" + Padded(i + 1, 3), name, polygon, population);
  }

  /** The grid cell of neighbourhood `i` and its jittered centre; specified by `CellCentre`
      and `Centre`. */
  method GridCentre(count: nat, i: nat, d: NeighborhoodDraw, gridSize: nat, latStep: real, lonStep: real)
    returns (centerLat: real, centerLon: real)
    requires ValidNeighborhoodDraw(d) && gridSize == GridSize(count)
    requires latStep == Step(LAT_MIN, LAT_MAX, gridSize) && lonStep == Step(LON_MIN, LON_MAX, gridSize)
    ensures (centerLat, centerLon) == Centre(count, i, d)
  {
    var gridRow := i / gridSize;
    var gridCol := i % gridSize;
    centerLat := CellCentre(LAT_MIN, latStep, gridRow, d.latJitter);
    centerLon := CellCentre(LON_MIN, lonStep, gridCol, d.lonJitter);
  }

  /** Neighbourhood `i` gets the id `NH-` and `i + 1` padded to three digits, and the number
      after the prefix reads back as `i + 1`. */
  lemma NeighborhoodIdReadsBack(i: nat)
    ensures NeighborhoodId(i)[..3] == "NH-"
    ensures ParseNat(NeighborhoodId(i)[3..]) == Some(i + 1)
  {
    assert NeighborhoodId(i)[3..] == Padded(i + 1, 3);
    ParsePadded(i + 1, 3);
  }

  /** Neighbourhood ids are pairwise distinct. */
  lemma NeighborhoodIdsDistinct(i: nat, j: nat)
    requires i != j
    ensures NeighborhoodId(i) != NeighborhoodId(j)
  {
    var a, b := Padded(i + 1, 3), Padded(j + 1, 3);
    if "NH-" + a == "NH-" + b {
      PrefixCancel("NH-", a, b);
      PaddedInjective(i + 1, j + 1, 3);
    }
  }

  /** The first fifty neighbourhoods take the listed names; later ones are `Neighborhood`
      and their number. */
  lemma NeighborhoodNames(i: nat)
    ensures i < 50 ==> NeighborhoodName(i) == NEIGHBORHOOD_NAMES[i]
    ensures i >= 50 ==> NeighborhoodName(i)[..13] == "Neighborhood " && ParseNat(NeighborhoodName(i)[13..]) == Some(i + 1)
  {
    if i >= 50 {
      assert NeighborhoodName(i)[13..] == NatToString(i + 1);
      DigitsOfNatToString(i + 1);
    }
  }

  /** What every generated neighbourhood satisfies: a closed ring of 6 to 9 coordinates
      (5 to 8 distinct sides plus the closing repeat) inside the city, every vertex within
      the polygon size of a centre that lies inside the city, and a population in range. */
  lemma NeighborhoodShape(count: nat, i: nat, d: NeighborhoodDraw)
    requires i < count && ValidNeighborhoodDraw(d)
    ensures var nh := NeighborhoodAt(count, i, d);
      && 6 <= |nh.boundary| <= 9
      && nh.boundary[|nh.boundary| - 1] == nh.boundary[0]
      && (forall k :: 0 <= k < |nh.boundary| ==> InCity(nh.boundary[k]))
      && MIN_POPULATION <= nh.population <= MAX_POPULATION
    ensures var nh := NeighborhoodAt(count, i, d);
      var c := Centre(count, i, d);
      var size := Step(LAT_MIN, LAT_MAX, GridSize(count)) * 0.4;
      forall k :: 0 <= k < |nh.boundary| ==>
        Abs(nh.boundary[k].y - c.0) <= size && Abs(nh.boundary[k].x - c.1) <= size
  {
    var c := Centre(count, i, d);
    var size := Step(LAT_MIN, LAT_MAX, GridSize(count)) * 0.4;
    CentreInCity(count, i, d);
    RingWithinSize(c.0, c.1, size, d.polygon);
  }
}
