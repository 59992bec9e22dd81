/** `generate_street_lights`: the street-light records spread over the neighbourhoods, and
    `generate_random_point_in_polygon`, the bounded rejection sampler that places each light.

    The allocation of light counts is in the module `Allocation`. This module covers the rest:
    - the status pool of 850 `operational`, 100 `maintenance_required` and 50 `faulty` entries,
      shuffled in place by Python's Fisher-Yates `random.shuffle`;
    - the `SL-####` ids drawn from a counter starting at 1;
    - the status of light `k`, which is pool entry `(k - 1) % 1000`;
    - the wattage, drawn from a fixed catalogue;
    - the installation and last-maintenance dates, as day numbers counted back from today;
    - the location, from the sampler.

    Random draws are inputs: the shuffle's picks, and one `LightDraw` per light, indexed by
    `counter - 1`. Today is a day number. The shapely tests `polygon.contains(point)` and
    `polygon.centroid` are functions passed in. */
module StreetLights {
  import opened Builtins
  import opened Text
  import opened Geometry
  import opened Allocation

  datatype Status = Operational | MaintenanceRequired | Faulty

  /** The text stored in the `status` column. */
  function StatusName(s: Status): string {
    match s
    case Operational => "operational"
    case MaintenanceRequired => "maintenance_required"
    case Faulty => "faulty"
  }

  const POOL_SIZE: nat := 1000

  function Repeat(x: Status, n: nat): (r: seq<Status>)
    ensures |r| == n
    ensures forall i :: 0 <= i < n ==> r[i] == x
  {
    if n == 0 then [] else Repeat(x, n - 1) + [x]
  }

  /** `['operational'] * 850 + ['maintenance_required'] * 100 + ['faulty'] * 50`. */
  function StatusPool(): (pool: seq<Status>)
    ensures |pool| == POOL_SIZE
  {
    Repeat(Operational, 850) + Repeat(MaintenanceRequired, 100) + Repeat(Faulty, 50)
  }

  // ---------------------------------------------------------------------------------
  // random.shuffle

  function Swap(s: seq<Status>, i: nat, j: nat): (r: seq<Status>)
    requires i < |s| && j < |s|
    ensures |r| == |s|
  {
    s[i := s[j]][j := s[i]]
  }

  /** Passes `i`, `i - 1`, ..., 1 of `random.shuffle`: pass `i` swaps entry `i` with entry
      `picks[i] % (i + 1)`, Python's `randbelow(i + 1)` for the draw `picks[i]`. */
  function ShuffleFrom(s: seq<Status>, picks: seq<nat>, i: nat): (r: seq<Status>)
    requires i < |s| <= |picks|
    ensures |r| == |s|
    decreases i
  {
    if i == 0 then s else ShuffleFrom(Swap(s, i, picks[i] % (i + 1)), picks, i - 1)
  }

  /** `random.shuffle(s)` for the draws `picks` (entry 0 is never used: there is no pass 0). */
  function Shuffled(s: seq<Status>, picks: seq<nat>): (r: seq<Status>)
    requires |picks| == |s|
    ensures |r| == |s|
  {
    if s == [] then s else ShuffleFrom(s, picks, |s| - 1)
  }

  /** `random.shuffle` on the list in place. */
  method Shuffle(a: array<Status>, picks: seq<nat>)
    requires |picks| == a.Length
    modifies a
    ensures a[..] == Shuffled(old(a[..]), picks)
  {
    if a.Length == 0 {
      return;
    }
    ghost var target := Shuffled(a[..], picks);
    var i := a.Length - 1;
    while i > 0
      invariant 0 <= i < a.Length
      invariant ShuffleFrom(a[..], picks, i) == target
    {
      var j := picks[i] % (i + 1);
      SwapEntries(a, i, j);
      i := i - 1;
    }
  }

  /** A swap rearranges the entries and loses none. */
  lemma SwapPermutes(s: seq<Status>, i: nat, j: nat)
    requires i < |s| && j < |s|
    ensures multiset(Swap(s, i, j)) == multiset(s)
  {
  }

  lemma {:induction false} ShuffleFromPermutes(s: seq<Status>, picks: seq<nat>, i: nat)
    requires i < |s| <= |picks|
    ensures multiset(ShuffleFrom(s, picks, i)) == multiset(s)
    decreases i
  {
    if i > 0 {
      var j := picks[i] % (i + 1);
      SwapPermutes(s, i, j);
      ShuffleFromPermutes(Swap(s, i, j), picks, i - 1);
    }
  }

  /** `random.shuffle` is a permutation, whatever the draws. */
  lemma ShuffledPermutes(s: seq<Status>, picks: seq<nat>)
    requires |picks| == |s|
    ensures multiset(Shuffled(s, picks)) == multiset(s)
  {
    if s != [] {
      ShuffleFromPermutes(s, picks, |s| - 1);
    }
  }

  /** `x[i], x[j] = x[j], x[i]`, one pass of the shuffle. */
  method SwapEntries(a: array<Status>, i: nat, j: nat)
    requires i < a.Length && j < a.Length
    modifies a
    ensures a[..] == Swap(old(a[..]), i, j)
  {
    var t := a[i];
    a[i] := a[j];
    a[j] := t;
  }

  // ---------------------------------------------------------------------------------
  // generate_random_point_in_polygon

  const MAX_ATTEMPTS: nat := 100

  /** The two `random.uniform` fractions of one attempt: `u` across the box in x, `v` in y. */
  datatype Attempt = Attempt(u: real, v: real)

  predicate ValidAttempts(attempts: seq<Attempt>) {
    |attempts| == MAX_ATTEMPTS && forall t :: 0 <= t < |attempts| ==> Unit(attempts[t].u) && Unit(attempts[t].v)
  }

  /** `Point(uniform(minx, maxx), uniform(miny, maxy))` over the polygon's bounds. */
  function Candidate(ring: Ring, a: Attempt): (p: Point)
    requires |ring| > 0 && Unit(a.u) && Unit(a.v)
    ensures InBox(Bounds(ring), p)
  {
    var box := Bounds(ring);
    assert InBox(box, ring[0]);
    Point(Uniform(box.minX, box.maxX, a.u), Uniform(box.minY, box.maxY, a.v))
  }

  /** The sampler from attempt `t` on: the first candidate the polygon contains, or the
      centroid once the attempts run out. */
  function SampleFrom(ring: Ring, contains: (Ring, Point) -> bool, centroid: Ring -> Point,
                      attempts: seq<Attempt>, t: nat): (p: Point)
    requires |ring| > 0 && ValidAttempts(attempts) && t <= |attempts|
    ensures contains(ring, p) || p == centroid(ring)
    decreases |attempts| - t
  {
    if t == |attempts| then centroid(ring)
    else
      var p := Candidate(ring, attempts[t]);
      if contains(ring, p) then p else SampleFrom(ring, contains, centroid, attempts, t + 1)
  }

  function Sample(ring: Ring, contains: (Ring, Point) -> bool, centroid: Ring -> Point,
                  attempts: seq<Attempt>): Point
    requires |ring| > 0 && ValidAttempts(attempts)
  {
    SampleFrom(ring, contains, centroid, attempts, 0)
  }

  /** `generate_random_point_in_polygon`: at most 100 attempts, returning as soon as one lands
      inside the polygon, the centroid otherwise. */
  method SamplePoint(ring: Ring, contains: (Ring, Point) -> bool, centroid: Ring -> Point,
                     attempts: seq<Attempt>) returns (p: Point)
    requires |ring| > 0 && ValidAttempts(attempts)
    ensures p == Sample(ring, contains, centroid, attempts)
  {
    var box := Bounds(ring);
    for t := 0 to MAX_ATTEMPTS
      invariant SampleFrom(ring, contains, centroid, attempts, t) == Sample(ring, contains, centroid, attempts)
    {
      assert InBox(box, ring[0]);
      var candidate := Point(Uniform(box.minX, box.maxX, attempts[t].u), Uniform(box.minY, box.maxY, attempts[t].v));
      assert candidate == Candidate(ring, attempts[t]);
      if contains(ring, candidate) {
        return candidate;
      }
    }
    return centroid(ring);
  }

  /** The sampler returns the first of its 100 candidates that the polygon contains, every
      earlier one having been rejected; when all 100 are rejected it returns the centroid. */
  lemma SampleIsFirstAccepted(ring: Ring, contains: (Ring, Point) -> bool, centroid: Ring -> Point,
                              attempts: seq<Attempt>)
    requires |ring| > 0 && ValidAttempts(attempts)
    ensures var p := Sample(ring, contains, centroid, attempts);
      || (exists t :: 0 <= t < MAX_ATTEMPTS && p == Candidate(ring, attempts[t]) && contains(ring, p)
            && forall s :: 0 <= s < t ==> !contains(ring, Candidate(ring, attempts[s])))
      || (p == centroid(ring) && forall s :: 0 <= s < MAX_ATTEMPTS ==> !contains(ring, Candidate(ring, attempts[s])))
  {
    SampleFromIsFirstAccepted(ring, contains, centroid, attempts, 0);
  }

  lemma {:induction false} SampleFromIsFirstAccepted(ring: Ring, contains: (Ring, Point) -> bool, centroid: Ring -> Point,
                                                     attempts: seq<Attempt>, t0: nat)
    requires |ring| > 0 && ValidAttempts(attempts) && t0 <= MAX_ATTEMPTS
    ensures var p := SampleFrom(ring, contains, centroid, attempts, t0);
      || (exists t :: t0 <= t < MAX_ATTEMPTS && p == Candidate(ring, attempts[t]) && contains(ring, p)
            && forall s :: t0 <= s < t ==> !contains(ring, Candidate(ring, attempts[s])))
      || (p == centroid(ring) && forall s :: t0 <= s < MAX_ATTEMPTS ==> !contains(ring, Candidate(ring, attempts[s])))
    decreases MAX_ATTEMPTS - t0
  {
    if t0 < MAX_ATTEMPTS && !contains(ring, Candidate(ring, attempts[t0])) {
      SampleFromIsFirstAccepted(ring, contains, centroid, attempts, t0 + 1);
    }
  }

  // ---------------------------------------------------------------------------------
  // One light

  /** A street-light record; dates are day numbers. */
  datatype Light = Light(id: string, location: Point, status: Status, wattage: nat,
                         installDay: int, lastMaintenanceDay: int, neighborhoodId: string)

  /** The draws made for one light: the sampler's attempts, the wattage choice, the
      installation offset and the maintenance offset. */
  datatype LightDraw = LightDraw(attempts: seq<Attempt>, wattagePick: nat, installPick: nat, maintenancePick: nat)

  /** Everything outside the generator: today, the draws of light `counter` at index
      `counter - 1`, and the shapely containment test and centroid. */
  datatype World = World(today: int, draw: nat -> LightDraw, contains: (Ring, Point) -> bool, centroid: Ring -> Point)

  ghost predicate ValidWorld(w: World) {
    forall k: nat :: ValidAttempts(w.draw(k).attempts)
  }

  const WATTAGES: seq<nat> := [100, 150, 200, 250]

  function LightId(counter: nat): string {
    "SL-" + Padded(counter, 4)
  }

  /** The record built for counter value `counter` inside neighbourhood `nh`. */
  function LightAt(counter: nat, nh: Region, pool: seq<Status>, w: World): (l: Light)
    requires counter >= 1 && |pool| == POOL_SIZE && |nh.boundary| > 0 && ValidWorld(w)
    ensures l.wattage in WATTAGES
    ensures w.today - 3650 <= l.installDay <= w.today - 365
    ensures l.installDay <= l.lastMaintenanceDay <= w.today - 30
    ensures w.contains(nh.boundary, l.location) || l.location == w.centroid(nh.boundary)
  {
    var d := w.draw(counter - 1);
    var daysAgo := RandInt(365, 365 * 10, d.installPick);
    var maintenanceAgo := RandInt(30, daysAgo, d.maintenancePick);
    Light(LightId(counter), Sample(nh.boundary, w.contains, w.centroid, d.attempts),
          pool[(counter - 1) % POOL_SIZE], Choice(WATTAGES, d.wattagePick),
          w.today - daysAgo, w.today - maintenanceAgo, nh.id)
  }

  /** One pass of the inner loop of `generate_street_lights`; specified by `LightAt`. */
  method BuildLight(counter: nat, nh: Region, pool: array<Status>, w: World) returns (light: Light)
    requires counter >= 1 && pool.Length == POOL_SIZE && |nh.boundary| > 0 && ValidWorld(w)
    ensures light == LightAt(counter, nh, pool[..], w)
  {
    var d := w.draw(counter - 1);
    var point := SamplePoint(nh.boundary, w.contains, w.centroid, d.attempts);
    var lightId := "SL-" + Padded(counter, 4);
    var status := pool[(counter - 1) % pool.Length];
    var wattage := Choice(WATTAGES, d.wattagePick);
    var daysAgo := RandInt(365, 365 * 10, d.installPick);
    var lastMaintenanceDaysAgo := RandInt(30, daysAgo, d.maintenancePick);
    light := Light(lightId, point, status, wattage, w.today - daysAgo, w.today - lastMaintenanceDaysAgo, nh.id);
  }

  // ---------------------------------------------------------------------------------
  // All lights

  predicate HasBoundaries(nhs: seq<Region>) {
    forall j :: 0 <= j < |nhs| ==> |nhs[j].boundary| > 0
  }

  /** `n` copies of the neighbourhood index `j`. */
  function Copies(j: nat, n: nat): (r: seq<nat>)
    ensures |r| == n
    ensures forall t :: 0 <= t < n ==> r[t] == j
  {
    if n == 0 then [] else Copies(j, n - 1) + [j]
  }

  /** The neighbourhood index of each record the loops over the first `m` neighbourhoods
      build, in order: `counts[0]` times 0, then `counts[1]` times 1, and so on. */
  function Owners(counts: seq<nat>, m: nat): (o: seq<nat>)
    requires m <= |counts|
    ensures |o| == Sum(counts[..m])
    ensures forall k :: 0 <= k < |o| ==> o[k] < m
  {
    if m == 0 then []
    else
      assert counts[..m] == counts[..m - 1] + [counts[m - 1]];
      SumSnoc(counts[..m - 1], counts[m - 1]);
      Owners(counts, m - 1) + Copies(m - 1, counts[m - 1])
  }

  predicate IndexesOf(owners: seq<nat>, nhs: seq<Region>) {
    forall k :: 0 <= k < |owners| ==> owners[k] < |nhs|
  }

  /** The records for the owner sequence `owners`: record `k` is built with counter value
      `k + 1` inside neighbourhood `nhs[owners[k]]`. */
  function RecordsFor(nhs: seq<Region>, owners: seq<nat>, pool: seq<Status>, w: World): (r: seq<Light>)
    requires IndexesOf(owners, nhs) && HasBoundaries(nhs) && |pool| == POOL_SIZE && ValidWorld(w)
    ensures |r| == |owners|
  {
    seq(|owners|, k requires 0 <= k < |owners| => LightAt(k + 1, nhs[owners[k]], pool, w))
  }

  /** The records of all neighbourhoods, `counts[j]` of them for neighbourhood `j`. */
  function Records(nhs: seq<Region>, counts: seq<nat>, pool: seq<Status>, w: World): (r: seq<Light>)
    requires |nhs| == |counts| && HasBoundaries(nhs) && |pool| == POOL_SIZE && ValidWorld(w)
    ensures |r| == Sum(counts)
  {
    assert counts[..|nhs|] == counts;
    RecordsFor(nhs, Owners(counts, |nhs|), pool, w)
  }

  /** What `generate_street_lights` returns on success. */
  function Lights(nhs: seq<Region>, total: nat, picks: seq<nat>, w: World): seq<Light>
    requires Allocatable(nhs, total) && HasBoundaries(nhs) && |picks| == POOL_SIZE && ValidWorld(w)
  {
    Records(nhs, FinalCounts(nhs, total), Shuffled(StatusPool(), picks), w)
  }

  /** One more record, for neighbourhood `j`, extends the records by the light of the next
      counter value. */
  lemma RecordsForSnoc(nhs: seq<Region>, owners: seq<nat>, j: nat, pool: seq<Status>, w: World)
    requires IndexesOf(owners, nhs) && j < |nhs| && HasBoundaries(nhs) && |pool| == POOL_SIZE && ValidWorld(w)
    ensures IndexesOf(owners + [j], nhs)
    ensures RecordsFor(nhs, owners + [j], pool, w)
         == RecordsFor(nhs, owners, pool, w) + [LightAt(|owners| + 1, nhs[j], pool, w)]
  {
    assert IndexesOf(owners + [j], nhs);
  }

  /** The status pool, built and then shuffled in place. */
  method NewStatusPool(picks: seq<nat>) returns (statusPool: array<Status>)
    requires |picks| == POOL_SIZE
    ensures fresh(statusPool) && statusPool[..] == Shuffled(StatusPool(), picks)
  {
    var pool := StatusPool();
    statusPool := new Status[POOL_SIZE](i requires 0 <= i < POOL_SIZE => pool[i]);
    assert statusPool[..] == pool;
    Shuffle(statusPool, picks);
  }

  /** The inner loop of `generate_street_lights`: the `count` records of neighbourhood `j`,
      appended to `lights0`, the counter advancing by one per record. */
  method NeighborhoodLights(nhs: seq<Region>, j: nat, count: nat, statusPool: array<Status>, w: World,
                            lights0: seq<Light>, counter0: nat, ghost owners0: seq<nat>)
    returns (lights: seq<Light>, counter: nat)
    requires j < |nhs| && HasBoundaries(nhs) && statusPool.Length == POOL_SIZE && ValidWorld(w)
    requires IndexesOf(owners0, nhs) && lights0 == RecordsFor(nhs, owners0, statusPool[..], w)
    requires counter0 == |lights0| + 1
    ensures IndexesOf(owners0 + Copies(j, count), nhs)
    ensures lights == RecordsFor(nhs, owners0 + Copies(j, count), statusPool[..], w)
    ensures counter == |lights| + 1
  {
    lights, counter := lights0, counter0;
    ghost var owners := owners0;
    for t := 0 to count
      invariant owners == owners0 + Copies(j, t) && IndexesOf(owners, nhs)
      invariant lights == RecordsFor(nhs, owners, statusPool[..], w)
      invariant counter == |lights| + 1
    {
      var light := BuildLight(counter, nhs[j], statusPool, w);
      RecordsForSnoc(nhs, owners, j, statusPool[..], w);
      lights := lights + [light];
      counter := counter + 1;
      owners := owners + [j];
    }
  }

  /** `generate_street_lights(neighborhoods, total_count)`: the allocation, the shuffled
      status pool, then for each neighbourhood in input order its allotted lights, numbered
      by a counter that starts at 1. */
  method GenerateStreetLights(nhs: seq<Region>, total: nat, picks: seq<nat>, w: World)
    returns (r: Result<seq<Light>, AllocError>)
    requires DistinctIds(nhs) && HasBoundaries(nhs) && |picks| == POOL_SIZE && ValidWorld(w)
    ensures r.Failure? <==> !Allocatable(nhs, total)
    ensures r.Success? ==> Allocatable(nhs, total) && r.value == Lights(nhs, total, picks, w)
  {
    var allocation := AllocateLights(nhs, total);
    if allocation.Failure? {
      return Failure(allocation.error);
    }
    var lightsPerNeighborhood := allocation.value;
    ghost var counts := FinalCounts(nhs, total);
    var lightCounter := 1;
    var statusPool := NewStatusPool(picks);
    ghost var pool := statusPool[..];
    var lights: seq<Light> := [];
    for j := 0 to |nhs|
      invariant statusPool[..] == pool
      invariant IndexesOf(Owners(counts, j), nhs)
      invariant lights == RecordsFor(nhs, Owners(counts, j), pool, w)
      invariant lightCounter == |lights| + 1
    {
      var count := lightsPerNeighborhood[nhs[j].id];
      assert count == counts[j];
      lights, lightCounter := NeighborhoodLights(nhs, j, count, statusPool, w, lights, lightCounter, Owners(counts, j));
    }
    assert counts[..|nhs|] == counts;
    return Success(lights);
  }

  // ---------------------------------------------------------------------------------
  // Properties of the records

  /** Distinct counter values give distinct `SL-####` ids. */
  lemma LightIdsDistinct(k: nat, l: nat)
    requires k != l
    ensures LightId(k) != LightId(l)
  {
    var a, b := Padded(k, 4), Padded(l, 4);
    if "SL-" + a == "SL-" + b {
      PrefixCancel("SL-", a, b);
      PaddedInjective(k, l, 4);
    }
  }

  /** Record `k` carries counter value `k + 1`: its id is `SL-` and the zero-padded `k + 1`,
      its status is pool entry `k % 1000`, and it belongs to its owner, carrying that
      neighbourhood's id and lying inside its boundary or at its centroid. */
  lemma RecordAt(nhs: seq<Region>, owners: seq<nat>, pool: seq<Status>, w: World, k: nat)
    requires IndexesOf(owners, nhs) && HasBoundaries(nhs) && |pool| == POOL_SIZE && ValidWorld(w)
    requires k < |owners|
    ensures var l := RecordsFor(nhs, owners, pool, w)[k];
      var nh := nhs[owners[k]];
      && l.id == LightId(k + 1)
      && l.status == pool[k % POOL_SIZE]
      && l.neighborhoodId == nh.id
      && (w.contains(nh.boundary, l.location) || l.location == w.centroid(nh.boundary))
  {
  }

  /** No two records share an id. */
  lemma RecordIdsUnique(nhs: seq<Region>, counts: seq<nat>, pool: seq<Status>, w: World, k: nat, l: nat)
    requires |nhs| == |counts| && HasBoundaries(nhs) && |pool| == POOL_SIZE && ValidWorld(w)
    requires k < l < |Records(nhs, counts, pool, w)|
    ensures Records(nhs, counts, pool, w)[k].id != Records(nhs, counts, pool, w)[l].id
  {
    var owners := Owners(counts, |nhs|);
    RecordAt(nhs, owners, pool, w, k);
    RecordAt(nhs, owners, pool, w, l);
    LightIdsDistinct(k + 1, l + 1);
  }

  /** Neighbourhood `j`'s records sit together, from position `Sum(counts[..j])` on. */
  lemma {:induction false} OwnersGrouped(counts: seq<nat>, m: nat, j: nat, t: nat)
    requires m <= |counts| && j < m && t < counts[j]
    ensures Sum(counts[..j]) + t < |Owners(counts, m)|
    ensures Owners(counts, m)[Sum(counts[..j]) + t] == j
  {
    var prev := Owners(counts, m - 1);
    assert Owners(counts, m) == prev + Copies(m - 1, counts[m - 1]);
    if j < m - 1 {
      OwnersGrouped(counts, m - 1, j, t);
    }
  }

  /** The records are grouped by neighbourhood in input order: the `t`-th record of
      neighbourhood `j` sits at position `Sum(counts[..j]) + t`, is built for `nhs[j]` with the
      next counter value, carries `nhs[j]`'s id and lies inside its boundary or at its
      centroid. */
  lemma RecordsGrouped(nhs: seq<Region>, counts: seq<nat>, pool: seq<Status>, w: World, j: nat, t: nat)
    requires |nhs| == |counts| && HasBoundaries(nhs) && |pool| == POOL_SIZE && ValidWorld(w)
    requires j < |nhs| && t < counts[j]
    ensures var r := Records(nhs, counts, pool, w);
      var k := Sum(counts[..j]) + t;
      && k < |r|
      && r[k] == LightAt(k + 1, nhs[j], pool, w)
      && r[k].neighborhoodId == nhs[j].id
      && (w.contains(nhs[j].boundary, r[k].location) || r[k].location == w.centroid(nhs[j].boundary))
  {
    OwnersGrouped(counts, |nhs|, j, t);
    RecordAt(nhs, Owners(counts, |nhs|), pool, w, Sum(counts[..j]) + t);
  }

  /** The number of records carrying neighbourhood id `id`. */
  function CountOwnedBy(lights: seq<Light>, id: string): nat {
    if lights == [] then 0
    else CountOwnedBy(lights[..|lights| - 1], id) + (if lights[|lights| - 1].neighborhoodId == id then 1 else 0)
  }

  lemma {:induction false} CopiesCount(i: nat, n: nat, j: nat)
    ensures multiset(Copies(i, n))[j] == if i == j then n else 0
  {
    if n > 0 {
      CopiesCount(i, n - 1, j);
    }
  }

  /** Index `j` occurs `counts[j]` times among the owners. */
  lemma {:induction false} OwnersCount(counts: seq<nat>, m: nat, j: nat)
    requires m <= |counts|
    ensures multiset(Owners(counts, m))[j] == if j < m then counts[j] else 0
  {
    if m > 0 {
      OwnersCount(counts, m - 1, j);
      CopiesCount(m - 1, counts[m - 1], j);
      assert Owners(counts, m) == Owners(counts, m - 1) + Copies(m - 1, counts[m - 1]);
    }
  }

  /** With distinct ids, the records carrying `nhs[j]`'s id are exactly those owned by `j`. */
  lemma RecordsForOwnedBy(nhs: seq<Region>, owners: seq<nat>, pool: seq<Status>, w: World, j: nat)
    requires IndexesOf(owners, nhs) && HasBoundaries(nhs) && |pool| == POOL_SIZE && ValidWorld(w)
    requires DistinctIds(nhs) && j < |nhs|
    ensures CountOwnedBy(RecordsFor(nhs, owners, pool, w), nhs[j].id) == multiset(owners)[j]
  {
    var r := RecordsFor(nhs, owners, pool, w);
    forall k | 0 <= k < |r|
      ensures r[k].neighborhoodId == nhs[owners[k]].id
    {
      RecordAt(nhs, owners, pool, w, k);
    }
    CountByOwner(r, owners, nhs, j);
  }

  /** Counting the lights that carry `nhs[j]`'s id, when light `k` carries the id of
      neighbourhood `owners[k]` and the ids are distinct, counts the occurrences of `j`. */
  lemma {:induction false} CountByOwner(lights: seq<Light>, owners: seq<nat>, nhs: seq<Region>, j: nat)
    requires |lights| == |owners| && IndexesOf(owners, nhs) && DistinctIds(nhs) && j < |nhs|
    requires forall k :: 0 <= k < |lights| ==> lights[k].neighborhoodId == nhs[owners[k]].id
    ensures CountOwnedBy(lights, nhs[j].id) == multiset(owners)[j]
    decreases |lights|
  {
    if lights != [] {
      var n := |lights| - 1;
      var front, last := owners[..n], owners[n];
      assert IndexesOf(front, nhs);
      CountByOwner(lights[..n], front, nhs, j);
      SameIdSameRegion(nhs, last, j);
      assert owners == front + [last];
      var before: multiset<nat> := multiset(front);
      assert multiset(owners)[j] == before[j] + (if last == j then 1 else 0);
    }
  }

  lemma SameIdSameRegion(nhs: seq<Region>, a: nat, b: nat)
    requires DistinctIds(nhs) && a < |nhs| && b < |nhs|
    ensures nhs[a].id == nhs[b].id <==> a == b
  {
    if a < b {
      assert nhs[a].id != nhs[b].id;
    } else if b < a {
      assert nhs[b].id != nhs[a].id;
    }
  }

  /** The statuses of the records, in order. */
  function Statuses(lights: seq<Light>): (r: seq<Status>)
    ensures |r| == |lights|
    ensures forall k :: 0 <= k < |lights| ==> r[k] == lights[k].status
  {
    seq(|lights|, k requires 0 <= k < |lights| => lights[k].status)
  }

  function StatusCount(lights: seq<Light>, s: Status): nat {
    multiset(Statuses(lights))[s]
  }

  lemma {:induction false} RepeatCount(x: Status, n: nat, y: Status)
    ensures multiset(Repeat(x, n))[y] == if x == y then n else 0
  {
    if n > 0 {
      RepeatCount(x, n - 1, y);
      assert Repeat(x, n) == Repeat(x, n - 1) + [x];
    }
  }

  /** How many pool entries hold status `s`. */
  function PoolShare(s: Status): nat {
    match s
    case Operational => 850
    case MaintenanceRequired => 100
    case Faulty => 50
  }

  /** The pool holds 850 `operational`, 100 `maintenance_required` and 50 `faulty` entries. */
  lemma PoolCount(s: Status)
    ensures multiset(StatusPool())[s] == PoolShare(s)
  {
    var a, b, c := Repeat(Operational, 850), Repeat(MaintenanceRequired, 100), Repeat(Faulty, 50);
    assert multiset(StatusPool()) == multiset(a) + multiset(b) + multiset(c);
    RepeatCount(Operational, 850, s);
    RepeatCount(MaintenanceRequired, 100, s);
    RepeatCount(Faulty, 50, s);
  }

  /** Every shuffle of the pool keeps those counts. */
  lemma ShuffledPoolCount(picks: seq<nat>, s: Status)
    requires |picks| == POOL_SIZE
    ensures multiset(Shuffled(StatusPool(), picks))[s] == PoolShare(s)
  {
    PoolCount(s);
    ShuffledPermutes(StatusPool(), picks);
  }

  /** Statuses assigned cyclically from the pool: `q` full cycles hold each status exactly `q`
      times as often as the pool does. */
  lemma {:induction false} CyclicStatusCount(st: seq<Status>, pool: seq<Status>, q: nat, s: Status)
    requires |pool| == POOL_SIZE && |st| == q * POOL_SIZE
    requires forall k :: 0 <= k < |st| ==> st[k] == pool[k % POOL_SIZE]
    ensures multiset(st)[s] == q * multiset(pool)[s]
  {
    if q == 0 {
      assert st == [];
    } else {
      var n := (q - 1) * POOL_SIZE;
      var a := st[..n];
      CyclicPrefix(st, pool, n);
      CyclicStatusCount(a, pool, q - 1, s);
      LastCycle(st, pool, q - 1);
      CountAppend(a, pool, s);
      MulSucc(q - 1, multiset(pool)[s]);
    }
  }

  lemma CountAppend(a: seq<Status>, b: seq<Status>, s: Status)
    ensures multiset(a + b)[s] == multiset(a)[s] + multiset(b)[s]
  {
  }

  lemma CyclicPrefix(st: seq<Status>, pool: seq<Status>, n: nat)
    requires |pool| == POOL_SIZE && n <= |st|
    requires forall k :: 0 <= k < |st| ==> st[k] == pool[k % POOL_SIZE]
    ensures forall k :: 0 <= k < n ==> st[..n][k] == pool[k % POOL_SIZE]
  {
  }

  /** The last full cycle of cyclically assigned statuses is the pool itself. */
  lemma LastCycle(st: seq<Status>, pool: seq<Status>, p: nat)
    requires |pool| == POOL_SIZE && |st| == p * POOL_SIZE + POOL_SIZE
    requires forall k :: 0 <= k < |st| ==> st[k] == pool[k % POOL_SIZE]
    ensures st == st[..p * POOL_SIZE] + pool
  {
    var b := st[p * POOL_SIZE..];
    forall i | 0 <= i < POOL_SIZE
      ensures b[i] == pool[i]
    {
      assert b[i] == st[p * POOL_SIZE + i];
      ModShift(p, i);
    }
    assert b == pool;
    assert st == st[..p * POOL_SIZE] + b;
  }

  lemma MulSucc(p: nat, x: nat)
    ensures (p + 1) * x == p * x + x
  {
  }

  lemma ModShift(q: nat, i: nat)
    requires i < POOL_SIZE
    ensures (q * POOL_SIZE + i) % POOL_SIZE == i
  {
  }

  /** When the total number of lights is a multiple of 1000, exactly 85% of them are
      `operational`, 10% `maintenance_required` and 5% `faulty`. */
  lemma StatusDistribution(nhs: seq<Region>, total: nat, picks: seq<nat>, w: World, q: nat, s: Status)
    requires Allocatable(nhs, total) && HasBoundaries(nhs) && |picks| == POOL_SIZE && ValidWorld(w)
    requires |Lights(nhs, total, picks, w)| == q * POOL_SIZE
    ensures StatusCount(Lights(nhs, total, picks, w), s) == q * PoolShare(s)
  {
    var pool := Shuffled(StatusPool(), picks);
    var owners := Owners(FinalCounts(nhs, total), |nhs|);
    var st := Statuses(Lights(nhs, total, picks, w));
    forall k | 0 <= k < |st|
      ensures st[k] == pool[k % POOL_SIZE]
    {
      RecordAt(nhs, owners, pool, w, k);
    }
    ShuffledPoolCount(picks, s);
    CyclicStatusCount(st, pool, q, s);
  }

  /** `lights_per_neighborhood[nh]` of the generated records belong to each neighbourhood,
      and there are exactly `total` records when the initial shares do not exceed it. */
  lemma LightsPerNeighborhood(nhs: seq<Region>, total: nat, picks: seq<nat>, w: World, j: nat)
    requires Allocatable(nhs, total) && DistinctIds(nhs) && HasBoundaries(nhs) && |picks| == POOL_SIZE && ValidWorld(w)
    requires j < |nhs|
    ensures CountOwnedBy(Lights(nhs, total, picks, w), nhs[j].id) == FinalCounts(nhs, total)[j]
    ensures Sum(InitialCounts(nhs, total)) <= total ==> |Lights(nhs, total, picks, w)| == total
  {
    var counts := FinalCounts(nhs, total);
    var owners := Owners(counts, |nhs|);
    RecordsForOwnedBy(nhs, owners, Shuffled(StatusPool(), picks), w, j);
    OwnersCount(counts, |nhs|, j);
    FinalSum(nhs, total);
  }
}
