# Street-light data generators, modelled in Dafny

This project models the data-generation pipeline of a geospatial street-light demo for
Bengaluru. Four Python scripts produce the data:

- **Neighbourhoods** (`data/generate_neighborhoods.py`): lays a near-square grid over the
  city bounds and puts one jittered centre in each cell. Each centre gets an irregular,
  clamped, closed ring of 5 to 8 vertices, an `NH-###` id, a name and a population.
- **Street lights** (`data/generate_street_lights.py`):
  - splits a light total over the neighbourhoods in proportion to population, at least one
    each, and hands out any shortfall in descending-population order;
  - shuffles a status pool of 850/100/50 entries and assigns it cyclically;
  - numbers the lights `SL-####` from a counter;
  - places each light with a bounded rejection sampler that falls back to the centroid;
  - draws installation and maintenance dates.
- **Enrichment** (`data/generate_enrichment_data.py`):
  - weather: three seasonal rows per light, with a capped failure-risk score and a
    predicted failure date for risky working lights;
  - demographics: a density and an urban/suburban/rural class per neighbourhood;
  - power grid: a zone taken from the number in the light id, a load near that zone's base
    load, and an outage count banded by load.
- **Suppliers** (`data/generate_suppliers.py`): `SUP-###` records with a clustered or uniform
  location clamped into the city, a phone number, and attributes from fixed catalogues.
  The specialization uses weights 4/2/4.

Every random draw, today's date and the shapely containment test and centroid are inputs
of the model. A draw of `random.uniform(a, b)` is `a + (b - a) * u` with `u` in [0, 1]. A
draw of `randint`/`choice` is an arbitrary natural number reduced into range, so every
admissible value is reachable and no other is. A Gaussian draw is any real.

The modules follow the program:

| module | file | what it holds |
|---|---|---|
| `Builtins` | builtins.dfy | `int()`, `round(x, 2)`, `min`/`max` and the clamp, the `random` draws |
| `Text` | text.dfy | `str(n)`, `f"{n:0Nd}"`, `split`, `int(s)` |
| `Geometry` | geometry.dfy | points in (lon, lat) order, city bounds, bounding boxes |
| `Neighborhoods` | neighborhoods.dfy | `generate_polygon_in_bounds`, `generate_neighborhoods` |
| `Allocation` | allocation.dfy | lines 55-69 of `generate_street_lights`: the light counts |
| `StreetLights` | street_lights.dfy | the status pool, the sampler, the record loops |
| `Enrichment` | enrichment.dfy | the weather, demographics and power-grid tables |
| `Suppliers` | suppliers.dfy | `generate_suppliers` |

Code that changes state step by step in the source is modelled as methods with loops:
- the `append` loops;
- the in-place shuffle of the status pool (an array);
- the in-place increments of the counts dictionary (a `map`);
- the retry loop of the sampler.

Each method is proved equal to a specification function. The properties are proved about
those functions.

### Behaviour worth knowing

- **Allocation overshoot.** The source comments its correction step with "Adjust to exactly
  match total_count" (`data/generate_street_lights.py:62`), but the step only adds lights
  when the shares fall short. When the `max(1, …)` minimums push the shares above the
  total, nothing removes lights, and the lights outnumber the total: two neighbourhoods of
  one inhabitant each and a total of one light end with two lights
  (`Allocation.OvershootExample`). `Allocation.ExactWhenNoMinimumApplies` and
  `Allocation.FinalSum` say exactly when the total is met.
- **Risk lower bound.** The failure risk is capped at 0.99 and has no lower clamp. A
  light installed in the future gets a negative age factor and can get a negative risk
  (`Enrichment.FutureInstallGivesNegativeRisk`). For the generated lights, which are all at
  least a year old, the risk is at least the season's lowest base risk
  (`Enrichment.PipelineRiskBounds`).
- **Grid size.** The grid has `floor(sqrt(count)) + 1` cells per side, which is always
  enough cells for `count` neighbourhoods (`Neighborhoods.GridExceedsCount`).
- **Polygon shape.** The vertex angle is computed and never used. Vertices are independent
  offsets within a box around the centre, so a ring need not be a simple polygon.

## Model

| member | source | states |
|---|---|---|
| Builtins.Clamp | data/generate_neighborhoods.py:61-62 | `max(lo, min(hi, x))` lies in [lo, hi]; it is `x` when `x` is inside, `lo` below, `hi` above |
| Builtins.Trunc | data/generate_street_lights.py:58 | `int(x)` truncates toward zero: the largest integer not above a non-negative `x`, the smallest not below a negative one |
| Builtins.Round2 | data/generate_enrichment_data.py:82 | `round(x, 2)` is a whole number of hundredths within half a hundredth of `x` |
| Builtins.Round2Monotone | data/generate_enrichment_data.py:81-82 | rounding to hundredths never reverses the order of two values |
| Builtins.Round2Fixes | data/generate_enrichment_data.py:81-82 | a value that is already a whole number of hundredths rounds to itself |
| Builtins.Round2Between | data/generate_enrichment_data.py:65-66 | bounds that are whole hundredths still hold after rounding |
| Builtins.Uniform | data/generate_neighborhoods.py:56-58 | `uniform(a, b)` lies in [a, b] |
| Builtins.UniformOnto | data/generate_neighborhoods.py:56-58 | every value of [a, b] is some uniform draw |
| Builtins.RandInt | data/generate_neighborhoods.py:95 | `randint(a, b)` lies in [a, b] |
| Builtins.RandIntOnto | data/generate_neighborhoods.py:95 | every value of [a, b] is some `randint` draw |
| Builtins.Choice | data/generate_street_lights.py:90 | `choice(xs)` is an element of `xs` |
| Text.NatToString | data/generate_suppliers.py:97 | `str(n)` is a non-empty string of digits without a leading zero |
| Text.Padded | data/generate_street_lights.py:87 | `f"{n:0Nd}"` is all digits, as long as the wider of `N` and `str(n)`, never cut |
| Text.ParseNat | data/generate_enrichment_data.py:143 | `int(s)` on a non-empty ASCII digit string without sign, space or underscore gives its value; any other string is rejected (Python's wider acceptance is listed under Left out) |
| Text.Split | data/generate_enrichment_data.py:143 | `s.split(sep)` has at least one piece and no piece holds the separator |
| Text.DigitsOfNatToString | data/generate_suppliers.py:97 | reading `str(n)` back gives `n` |
| Text.ParsePadded | data/generate_street_lights.py:87 | `int(f"{n:0Nd}") == n`: the padded id number reads back exactly |
| Text.PaddedInjective | data/generate_street_lights.py:87 | distinct numbers have distinct padded forms |
| Text.SplitNoSeparator | data/generate_enrichment_data.py:143 | a string without the separator splits into itself alone |
| Text.SplitAtFirst | data/generate_enrichment_data.py:143 | splitting `p + sep + q`, where `p` has no separator, gives `p` and then the pieces of `q` |
| Text.NatToStringLength | data/generate_suppliers.py:97 | a number in [10^(d-1), 10^d) prints with exactly `d` digits |
| Geometry.ClampToCity | data/generate_neighborhoods.py:61-64 | the clamped point lies in the city bounds, is stored as (lon, lat), and is the input point when that is already inside |
| Geometry.ClampCloser | data/generate_suppliers.py:90-91 | clamping never moves a coordinate further from any value inside the range |
| Geometry.Bounds | data/generate_street_lights.py:40 | `polygon.bounds` holds every vertex, and each of its four sides touches a vertex (it is the least such box) |
| Neighborhoods.SideCount | data/generate_neighborhoods.py:49 | the number of sides is between 5 and 8 |
| Neighborhoods.Vertex | data/generate_neighborhoods.py:56-64 | every vertex lies in the city bounds |
| Neighborhoods.Vertices | data/generate_neighborhoods.py:53-64 | the first `k` vertices, each built from its own draw |
| Neighborhoods.PolygonRing | data/generate_neighborhoods.py:44-69 | the ring has `num_points + 1` coordinates (6 to 9), ends with its first vertex, and lies inside the city |
| Neighborhoods.GeneratePolygon | data/generate_neighborhoods.py:44-69 | the `append` loop returns exactly that ring |
| Neighborhoods.PolygonVertex | data/generate_neighborhoods.py:56-64 | one pass of the vertex loop builds that vertex |
| Neighborhoods.RawVertexWithinSize | data/generate_neighborhoods.py:56-58 | before clamping, a vertex differs from the centre by at most `size` on each axis |
| Neighborhoods.VertexWithinSize | data/generate_neighborhoods.py:56-62 | clamping keeps that bound when the centre lies inside the city |
| Neighborhoods.RingWithinSize | data/generate_neighborhoods.py:53-67 | every coordinate of the ring, closing one included, is within `size` of the centre |
| Neighborhoods.RootFromBounds | data/generate_neighborhoods.py:76 | the search for the integer square root stops at `r` with `r² <= n < (r + 1)²` |
| Neighborhoods.ISqrtBounds | data/generate_neighborhoods.py:76 | `int(count ** 0.5)` is the integer square root |
| Neighborhoods.GridSize | data/generate_neighborhoods.py:76 | the grid has at least one cell per side |
| Neighborhoods.GridExceedsCount | data/generate_neighborhoods.py:76 | the grid has more cells than neighbourhoods |
| Neighborhoods.GridHoldsAll | data/generate_neighborhoods.py:81-82 | every index `i < count` has row and column below the grid size |
| Neighborhoods.Step | data/generate_neighborhoods.py:77-78 | the cell step is non-negative |
| Neighborhoods.CentreNearMidpoint | data/generate_neighborhoods.py:85-86 | a centre lies within 0.2 steps of its cell midpoint |
| Neighborhoods.CentreWithinBounds | data/generate_neighborhoods.py:85-86 | a centre of a cell inside the grid lies within the bounds |
| Neighborhoods.CentreInCity | data/generate_neighborhoods.py:81-86 | every neighbourhood centre lies inside the city |
| Neighborhoods.GenerateNeighborhoods | data/generate_neighborhoods.py:71-104 | exactly `count` records, record `i` built from index `i` in order |
| Neighborhoods.BuildNeighborhood | data/generate_neighborhoods.py:81-102 | one pass of the loop builds record `i` |
| Neighborhoods.GridCentre | data/generate_neighborhoods.py:81-86 | row `i // g`, column `i % g` and the jittered centre of that cell |
| Neighborhoods.NeighborhoodIdsDistinct | data/generate_neighborhoods.py:92 | distinct indices get distinct `NH-###` ids |
| Neighborhoods.NeighborhoodNames | data/generate_neighborhoods.py:93 | the first 50 take the listed names; later ones are `Neighborhood` and their number `i + 1` |
| Neighborhoods.NeighborhoodShape | data/generate_neighborhoods.py:85-95 | each record has a closed ring of 6 to 9 coordinates inside the city, within the polygon size of its centre, and a population in [50000, 200000] |
| Neighborhoods.Radius | data/generate_neighborhoods.py:56 | definition of `size * uniform(0.7, 1.0)`; properties in `Neighborhoods.RawVertexWithinSize` |
| Neighborhoods.RawLat | data/generate_neighborhoods.py:57 | definition of the unclamped latitude; properties in `Neighborhoods.RawVertexWithinSize` |
| Neighborhoods.RawLon | data/generate_neighborhoods.py:58 | definition of the unclamped longitude; properties in `Neighborhoods.RawVertexWithinSize` |
| Neighborhoods.ISqrt | data/generate_neighborhoods.py:76 | definition of `int(count ** 0.5)`; properties in `Neighborhoods.ISqrtBounds` |
| Neighborhoods.RootFrom | data/generate_neighborhoods.py:76 | definition of the counting search for the root; properties in `Neighborhoods.RootFromBounds` |
| Neighborhoods.CellCentre | data/generate_neighborhoods.py:85-86 | definition of the jittered cell midpoint; properties in `Neighborhoods.CentreNearMidpoint` and `Neighborhoods.CentreWithinBounds` |
| Neighborhoods.Centre | data/generate_neighborhoods.py:81-86 | definition of the centre of neighbourhood `i` from row `i // g` and column `i % g`; properties in `Neighborhoods.CentreInCity` |
| Neighborhoods.NeighborhoodId | data/generate_neighborhoods.py:92 | definition of `f"NH-{i+1:03d}"`; properties in `Neighborhoods.NeighborhoodIdReadsBack` and `Neighborhoods.NeighborhoodIdsDistinct` |
| Neighborhoods.NeighborhoodIdReadsBack | data/generate_neighborhoods.py:92 | the id starts with `NH-` and the rest reads back as `i + 1` |
| Neighborhoods.NeighborhoodName | data/generate_neighborhoods.py:93 | definition of the name; properties in `Neighborhoods.NeighborhoodNames` |
| Neighborhoods.NeighborhoodAt | data/generate_neighborhoods.py:80-101 | definition of record `i`; properties in `Neighborhoods.NeighborhoodShape`, `Neighborhoods.CentreInCity` and `Neighborhoods.NeighborhoodIdsDistinct` |
| Allocation.InitialCount | data/generate_street_lights.py:58 | the share `max(1, int(T * pop / P))` is at least 1 |
| Allocation.InitialCounts | data/generate_street_lights.py:57-60 | one share per neighbourhood, each at least 1 |
| Allocation.ShareBounds | data/generate_street_lights.py:58 | the share is the floor of the proportional share, or 1 when that floor is 0 |
| Allocation.InitialCountMonotone | data/generate_street_lights.py:58 | a more populous neighbourhood never gets a smaller share |
| Allocation.PopulationOrder | data/generate_street_lights.py:66 | the sorted order lists neighbourhood indices |
| Allocation.BeforeTransitive | data/generate_street_lights.py:66 | the sort key (population descending, input position ascending) is transitive |
| Allocation.InsertSorted | data/generate_street_lights.py:66 | inserting into a sorted, repeat-free order keeps it sorted and repeat-free |
| Allocation.SortIndicesSorted | data/generate_street_lights.py:66 | the insertion sort yields a sorted order without repeats |
| Allocation.SortIndicesCovers | data/generate_street_lights.py:66 | the sorted order contains every index |
| Allocation.PopulationOrderSorted | data/generate_street_lights.py:66 | `sorted(..., reverse=True)` is stable: a permutation of the indices by descending population, ties in input order |
| Allocation.Distribute | data/generate_street_lights.py:67-69 | the counts after `s` increments, one entry per neighbourhood |
| Allocation.DistributeStep | data/generate_street_lights.py:67-69 | increment `s` adds one light to the neighbourhood at position `s mod n` of the order |
| Allocation.DistributeSum | data/generate_street_lights.py:67-69 | `s` increments add exactly `s` lights |
| Allocation.DistributePrefix | data/generate_street_lights.py:67-69 | without wrap-around, a neighbourhood gains one light exactly when it is among the first `s` of the order |
| Allocation.FinalCounts | data/generate_street_lights.py:62-69 | one final count per neighbourhood |
| Allocation.AllocateLights | data/generate_street_lights.py:55-69 | fails with a division by zero exactly when the total population is 0, unless there are no neighbourhoods and nothing to share; otherwise returns, for every id, its final count |
| Allocation.InitialShares | data/generate_street_lights.py:56-63 | the dictionary comprehension holds each neighbourhood's share, and `current_total` is their sum |
| Allocation.HandOutShortfall | data/generate_street_lights.py:64-69 | the correction loop turns the shares into the final counts |
| Allocation.CycleThrough | data/generate_street_lights.py:67-69 | the in-place increments of the dictionary match `Distribute` entry by entry |
| Allocation.SharesCoverPrefix | data/generate_street_lights.py:56-63 | the shares of the first `m` neighbourhoods plus `m` exceed their proportional total |
| Allocation.ShortfallBelowCount | data/generate_street_lights.py:63-69 | the shortfall is smaller than the number of neighbourhoods, so the cyclic index never wraps |
| Allocation.SharesWithinTotal | data/generate_street_lights.py:56-63 | shares that are plain floors sum to at most the proportional total |
| Allocation.SharesAtMostTotal | data/generate_street_lights.py:56-63 | when no minimum of 1 applies, the shares sum to at most the total |
| Allocation.ExactWhenNoMinimumApplies | data/generate_street_lights.py:58-69 | when no minimum of 1 applies, the final counts sum to exactly the total |
| Allocation.FinalSum | data/generate_street_lights.py:62-69 | the final counts sum to the total after a shortfall; shares that reach or pass the total are left unchanged |
| Allocation.FinalCountsPrefix | data/generate_street_lights.py:66-69 | each neighbourhood gains at most one light, exactly when it is among the first `shortfall` in descending-population order |
| Allocation.LargerServedFirst | data/generate_street_lights.py:66-69 | if a neighbourhood gains a light, every one sorted before it gains one too |
| Allocation.FinalCountsMonotone | data/generate_street_lights.py:58-69 | a more populous neighbourhood never ends with fewer lights |
| Allocation.OvershootExample | data/generate_street_lights.py:58-64 | two neighbourhoods and a total of 1 yield 2 lights: overshoot is not corrected |
| Allocation.TotalPopulation | data/generate_street_lights.py:56 | definition of `total_population`; a zero total is the ZeroDivisionError of `Allocation.AllocateLights` |
| Allocation.Insert | data/generate_street_lights.py:66 | inserting index `x` gives one more entry, exactly the entries of `s` and `x`, all in range; the order is proved in `Allocation.InsertSorted` |
| Allocation.SortIndices | data/generate_street_lights.py:66 | `n` indices, all below `n`; sortedness without repeats and coverage are proved in `Allocation.SortIndicesSorted` and `Allocation.SortIndicesCovers` |
| Allocation.Shortfall | data/generate_street_lights.py:63-67 | definition of `total_count - current_total` when positive, 0 otherwise; properties in `Allocation.ShortfallBelowCount` and `Allocation.FinalSum` |
| StreetLights.RepeatCount | data/generate_street_lights.py:74 | `[x] * n` holds `x` exactly `n` times and nothing else |
| StreetLights.StatusPool | data/generate_street_lights.py:74 | the pool has 1000 entries |
| StreetLights.PoolCount | data/generate_street_lights.py:74 | the pool holds 850 `operational`, 100 `maintenance_required` and 50 `faulty` |
| StreetLights.Shuffle | data/generate_street_lights.py:75 | the in-place Fisher–Yates shuffle leaves the array equal to the shuffled pool |
| StreetLights.SwapEntries | data/generate_street_lights.py:75 | one swap of the shuffle |
| StreetLights.SwapPermutes | data/generate_street_lights.py:75 | a swap permutes the pool |
| StreetLights.ShuffleFromPermutes | data/generate_street_lights.py:75 | the remaining swaps permute the pool |
| StreetLights.ShuffledPermutes | data/generate_street_lights.py:75 | the shuffled pool is a permutation of the pool |
| StreetLights.ShuffledPoolCount | data/generate_street_lights.py:74-75 | the shuffled pool keeps the 850/100/50 counts |
| StreetLights.Candidate | data/generate_street_lights.py:40-44 | a candidate point lies in the polygon's bounding box |
| StreetLights.SampleFrom | data/generate_street_lights.py:43-49 | the sampler returns a point the polygon contains, or the centroid |
| StreetLights.SamplePoint | data/generate_street_lights.py:38-49 | the retry loop returns exactly the sampler's point |
| StreetLights.SampleFromIsFirstAccepted | data/generate_street_lights.py:43-49 | from attempt `t0`, the result is the first accepted candidate, or the centroid when all are rejected |
| StreetLights.SampleIsFirstAccepted | data/generate_street_lights.py:40-49 | within 100 attempts, the result is the first accepted candidate, or the centroid when all 100 are rejected |
| StreetLights.LightAt | data/generate_street_lights.py:84-108 | a light has a wattage from the list, is installed 365 to 3650 days ago, was last maintained on or after installation and at least 30 days ago, and lies in its neighbourhood or at its centroid |
| StreetLights.BuildLight | data/generate_street_lights.py:84-108 | one pass of the inner loop builds that light |
| StreetLights.Owners | data/generate_street_lights.py:77-82 | the neighbourhood of every record, `Sum(counts)` in all, each index in range |
| StreetLights.Records | data/generate_street_lights.py:77-110 | `Sum(counts)` records in all |
| StreetLights.RecordsForSnoc | data/generate_street_lights.py:100-110 | one more record is the light of the next counter value |
| StreetLights.NewStatusPool | data/generate_street_lights.py:74-75 | the new array holds the shuffled pool |
| StreetLights.NeighborhoodLights | data/generate_street_lights.py:80-110 | the inner loop appends `count` records of that neighbourhood and advances the counter past them |
| StreetLights.GenerateStreetLights | data/generate_street_lights.py:51-112 | fails exactly when the allocation divides by zero; otherwise returns the records of all neighbourhoods |
| StreetLights.LightIdsDistinct | data/generate_street_lights.py:87 | distinct counter values give distinct `SL-####` ids |
| StreetLights.RecordAt | data/generate_street_lights.py:87-107 | record `k` has id `SL-` and `k + 1`, status `pool[k mod 1000]`, its owner's id, and a location inside the owner or at its centroid |
| StreetLights.RecordIdsUnique | data/generate_street_lights.py:71-110 | no two records share an id |
| StreetLights.OwnersGrouped | data/generate_street_lights.py:77-82 | neighbourhood `j` owns the block of positions after the counts of the neighbourhoods before it |
| StreetLights.RecordsGrouped | data/generate_street_lights.py:77-107 | records come grouped by neighbourhood in input order |
| StreetLights.CopiesCount | data/generate_street_lights.py:82 | `n` copies of `i` hold `i` exactly `n` times and nothing else |
| StreetLights.OwnersCount | data/generate_street_lights.py:77-82 | neighbourhood `j` owns exactly `counts[j]` positions |
| StreetLights.CountByOwner | data/generate_street_lights.py:107 | with distinct ids, the records carrying a neighbourhood's id are those it owns |
| StreetLights.RecordsForOwnedBy | data/generate_street_lights.py:107 | the number of records carrying a neighbourhood's id is its number of owner entries |
| StreetLights.SameIdSameRegion | data/generate_street_lights.py:57-60 | with distinct ids, two rows share an id exactly when they are the same row |
| StreetLights.CyclicStatusCount | data/generate_street_lights.py:89 | `q` full cycles through the pool hold each status `q` times as often as the pool |
| StreetLights.StatusDistribution | data/generate_street_lights.py:74-89 | when the light count is `q * 1000`, exactly `850q`, `100q` and `50q` lights have each status |
| StreetLights.LightsPerNeighborhood | data/generate_street_lights.py:56-82 | each neighbourhood gets exactly its final count of records; with no overshoot there are `total_count` lights |
| StreetLights.Repeat | data/generate_street_lights.py:74 | `[x] * n` has `n` entries, each `x` |
| StreetLights.Swap | data/generate_street_lights.py:75 | one swap keeps the length; `StreetLights.SwapPermutes` proves it keeps the multiset |
| StreetLights.ShuffleFrom | data/generate_street_lights.py:75 | passes `i` down to 1 keep the length; `StreetLights.ShuffleFromPermutes` proves they keep the multiset |
| StreetLights.Shuffled | data/generate_street_lights.py:75 | `random.shuffle` keeps the length; `StreetLights.ShuffledPermutes` proves it is a permutation |
| StreetLights.Sample | data/generate_street_lights.py:38-49 | definition of the sampler over its attempts; properties in `StreetLights.SampleIsFirstAccepted` |
| StreetLights.LightId | data/generate_street_lights.py:87 | definition of `f"SL-{light_counter:04d}"`; properties in `StreetLights.LightIdsDistinct` |
| StreetLights.RecordsFor | data/generate_street_lights.py:77-110 | one record per owner entry, record `k` built with counter `k + 1`; properties in `StreetLights.RecordAt` and `StreetLights.RecordsForOwnedBy` |
| StreetLights.Lights | data/generate_street_lights.py:51-112 | definition of the list returned on success; properties in `StreetLights.LightsPerNeighborhood`, `StreetLights.RecordIdsUnique`, `StreetLights.RecordsGrouped` and `StreetLights.StatusDistribution` |
| Enrichment.WeatherRows | data/generate_enrichment_data.py:60-99 | three rows per light |
| Enrichment.SeasonRecord | data/generate_enrichment_data.py:65-99 | one pass of the season loop builds that season's row |
| Enrichment.AdjustedRisk | data/generate_enrichment_data.py:72-82 | the age factor, status factor, cap at 0.99 and rounding give the final risk |
| Enrichment.PredictedDay | data/generate_enrichment_data.py:86-90 | the predicted date is set only for working lights with a risk above 0.5, at today plus the days to failure |
| Enrichment.LightWeather | data/generate_enrichment_data.py:64-99 | the season loop yields three rows, in season order |
| Enrichment.WeatherRowsSnoc | data/generate_enrichment_data.py:60-64 | one more light appends its three seasonal rows |
| Enrichment.GenerateWeatherEnrichment | data/generate_enrichment_data.py:37-101 | the nested loops return the weather table |
| Enrichment.WeatherRowAt | data/generate_enrichment_data.py:42-99 | exactly 3 rows per light, in the order monsoon, summer, winter, each with the light's id |
| Enrichment.AgeFactorBounds | data/generate_enrichment_data.py:62-72 | the age factor is at most 0.15, and non-negative for a past installation |
| Enrichment.StatusFactorValue | data/generate_enrichment_data.py:75-79 | the status factor is 0.10 for `maintenance_required` and 0 for every other status, unknown ones included |
| Enrichment.RiskBounds | data/generate_enrichment_data.py:69-82 | the final risk is at most 0.99, and at least the season's lowest base risk (0.70, 0.50 or 0.20) for a past installation |
| Enrichment.FutureInstallGivesNegativeRisk | data/generate_enrichment_data.py:62-82 | an installation day 21900 days ahead gives a winter risk below zero: there is no lower clamp |
| Enrichment.PredictionRule | data/generate_enrichment_data.py:86-90 | a predicted date is present exactly when the status is not `faulty` and the risk exceeds 0.5, and it falls within the next 90 days |
| Enrichment.DaysToFailureBounds | data/generate_enrichment_data.py:89 | for a risk in (0.5, 0.99], `int(uniform(7, 180) * (1 - risk))` lies in [0, 90) |
| Enrichment.WeatherRanges | data/generate_enrichment_data.py:42-66 | the rounded temperature and rainfall stay within the season's ranges |
| Enrichment.DensityBounds | data/generate_enrichment_data.py:113-114 | over an area of 2 to 10 km² the density lies between a tenth of the population minus one and half the population |
| Enrichment.ClassifyMonotone | data/generate_enrichment_data.py:117-122 | a denser neighbourhood is never classified as less urban |
| Enrichment.ClassByPopulation | data/generate_enrichment_data.py:113-122 | 160010 people or more is always urban; 10000 or fewer is always rural |
| Enrichment.DemographicsRows | data/generate_enrichment_data.py:107-128 | one row per neighbourhood |
| Enrichment.GenerateDemographicsEnrichment | data/generate_enrichment_data.py:103-130 | the loop returns the demographics table |
| Enrichment.DemographicsRowAt | data/generate_enrichment_data.py:107-128 | row `k` carries neighbourhood `k`'s id and is `urban` above 15000, `suburban` above 5000 and `rural` otherwise |
| Enrichment.ZoneOf | data/generate_enrichment_data.py:143-153 | a zone parsed from a light id always has a base load |
| Enrichment.PowerGridRows | data/generate_enrichment_data.py:139-169 | a successful run has one row per light |
| Enrichment.FailurePersists | data/generate_enrichment_data.py:143 | an id that does not parse makes the whole run fail with that error |
| Enrichment.GeneratePowerGridEnrichment | data/generate_enrichment_data.py:132-171 | the loop returns the power-grid table, or the error of the first unparsable id |
| Enrichment.PowerRowOf | data/generate_enrichment_data.py:140-169 | one pass of the loop: IndexError without a `-`, ValueError without a number after it, else the row |
| Enrichment.PowerGridRowAt | data/generate_enrichment_data.py:139-169 | row `k` of a successful run is light `k`'s record |
| Enrichment.ZoneOfLightId | data/generate_enrichment_data.py:143 | the id of light `c` lands in zone `c mod 5` |
| Enrichment.LoadNearBase | data/generate_enrichment_data.py:153-154 | the load stays within 5 points of the zone's base load |
| Enrichment.ZoneOutageBounds | data/generate_enrichment_data.py:146-162 | outages are 0 to 8; zone C never has more than 2, zone B at least 1, zones A and E at most 4 |
| Enrichment.GeneratedLightsParse | data/generate_enrichment_data.py:143 | ids of the form `SL-####` never make the run fail |
| Enrichment.GeneratedLightsZones | data/generate_enrichment_data.py:139-169 | for lights numbered from 1, light `k` lands in zone `(k + 1) mod 5` |
| Enrichment.PipelineZones | data/generate_enrichment_data.py:139-143 | fed the generated lights, the power-grid table has a row per light and cycles the zones A to E |
| Enrichment.PipelineRiskBounds | data/generate_enrichment_data.py:60-82 | fed the generated lights on the same day, every risk lies between its season's lowest base risk and 0.99 |
| Enrichment.AgeFactor | data/generate_enrichment_data.py:72 | definition of `min(0.15, age_days / 10950)`; properties in `Enrichment.AgeFactorBounds` |
| Enrichment.StatusFactor | data/generate_enrichment_data.py:75-79 | definition of the status table with default 0; properties in `Enrichment.StatusFactorValue` |
| Enrichment.FinalRisk | data/generate_enrichment_data.py:81-82 | definition of the capped, rounded risk; properties in `Enrichment.RiskBounds` and `Enrichment.FutureInstallGivesNegativeRisk` |
| Enrichment.Predicts | data/generate_enrichment_data.py:87 | definition of the prediction condition; properties in `Enrichment.PredictionRule` |
| Enrichment.DaysToFailure | data/generate_enrichment_data.py:89 | definition of `int(uniform(7, 180) * (1 - risk))`; properties in `Enrichment.DaysToFailureBounds` |
| Enrichment.WeatherRecord | data/generate_enrichment_data.py:64-99 | definition of one weather row; properties in `Enrichment.WeatherRanges`, `Enrichment.RiskBounds` and `Enrichment.PredictionRule` |
| Enrichment.Density | data/generate_enrichment_data.py:113-114 | definition of `int(population / uniform(2, 10))`; properties in `Enrichment.DensityBounds` |
| Enrichment.Classify | data/generate_enrichment_data.py:117-122 | definition of the 15000/5000 thresholds; properties in `Enrichment.ClassifyMonotone` and `Enrichment.ClassByPopulation` |
| Enrichment.DemographicsRecord | data/generate_enrichment_data.py:107-128 | definition of one demographics row; properties in `Enrichment.DemographicsRowAt` |
| Enrichment.Load | data/generate_enrichment_data.py:154 | definition of `round(base_load + uniform(-5, 5), 2)`; properties in `Enrichment.LoadNearBase` |
| Enrichment.Outages | data/generate_enrichment_data.py:156-162 | above 80% load the outage count lies in [3, 8], above 75% in [1, 4], otherwise in [0, 2] |
| Enrichment.PowerRecord | data/generate_enrichment_data.py:143-169 | definition of one power-grid row or the id error; properties in `Enrichment.PowerGridRowAt`, `Enrichment.ZoneOfLightId` and `Enrichment.ZoneOutageBounds` |
| Suppliers.WeightedIndex | data/generate_suppliers.py:106 | the weighted pick is a valid index |
| Suppliers.WeightedIndexBand | data/generate_suppliers.py:106 | the picked index is the one whose band of running totals holds the scaled draw |
| Suppliers.SpecializationBands | data/generate_suppliers.py:71-106 | LED for draws below 0.4, Sodium Vapor in [0.4, 0.6), All from 0.6 |
| Suppliers.SuppliersUpTo | data/generate_suppliers.py:74-116 | one supplier per index |
| Suppliers.GenerateSuppliers | data/generate_suppliers.py:67-118 | the loop returns `count` suppliers, supplier `i` built from its draws |
| Suppliers.BuildSupplier | data/generate_suppliers.py:75-116 | one pass of the loop builds supplier `i` |
| Suppliers.SupplierIds | data/generate_suppliers.py:75 | the id is `SUP-` and a number that reads back as `i + 1`; no two suppliers share an id |
| Suppliers.SupplierNames | data/generate_suppliers.py:76 | the first 30 take the listed names; later ones are `Supplier` and their number `i + 1` |
| Suppliers.LocationInCity | data/generate_suppliers.py:80-93 | both branches end inside the city; a uniform draw stays where it fell; clamping never moves a clustered supplier further from the centre |
| Suppliers.PhoneFormat | data/generate_suppliers.py:97 | the phone is `+91-80-` and 8 digits that read back as the drawn number |
| Suppliers.SupplierFields | data/generate_suppliers.py:100-106 | radius, response time and specialization come from their catalogues |
| Suppliers.SupplierId | data/generate_suppliers.py:75 | definition of `f"SUP-{i+1:03d}"`; properties in `Suppliers.SupplierIds` |
| Suppliers.SupplierName | data/generate_suppliers.py:76 | definition of the name; properties in `Suppliers.SupplierNames` |
| Suppliers.RawLatLon | data/generate_suppliers.py:80-87 | definition of the clustered and uniform branches before clamping; properties in `Suppliers.LocationInCity` |
| Suppliers.Location | data/generate_suppliers.py:80-93 | definition of the clamped location; properties in `Suppliers.LocationInCity` |
| Suppliers.Phone | data/generate_suppliers.py:97 | definition of the phone number; properties in `Suppliers.PhoneFormat` |
| Suppliers.CumWeight | data/generate_suppliers.py:106 | definition of the running weight totals `random.choices` accumulates; used by `Suppliers.WeightedIndexBand` |
| Suppliers.WeightedChoice | data/generate_suppliers.py:106 | definition of `random.choices(population, weights)[0]`; properties in `Suppliers.WeightedIndexBand` |
| Suppliers.Specialization | data/generate_suppliers.py:106 | definition of the weighted specialization; properties in `Suppliers.SpecializationBands` |
| Suppliers.SupplierAt | data/generate_suppliers.py:74-115 | definition of supplier `i`; properties in `Suppliers.SupplierFields`, `Suppliers.SupplierIds` and `Suppliers.LocationInCity` |

## Left out

- File I/O is not modelled: CSV loading and saving and the printed summaries.
- Dates are day numbers and today is a parameter. ISO date strings and the ` 12:00:00` suffix are not produced.
- shapely is a parameter or is not modelled:
  - `polygon.contains` and `polygon.centroid` are parameters;
  - WKT text for boundaries and locations is not produced (points and rings are kept as values);
  - `wkt.loads` is not modelled.
- The model says nothing about probabilities. Draws are inputs constrained to their ranges, and a Gaussian draw is any real.
- Floating point is exact real arithmetic. Python's `round(x, 2)` rounds half to even on binary floats, while `Builtins.Round2` rounds exact reals half up.
- Allocation uses exact integer floor division; the source divides floats and truncates. The two can differ when `total * pop / total_pop` is within float error of an integer.
- `StreetLights.GenerateStreetLights` requires distinct neighbourhood ids, because the source keys its counts by id. Generated ids are distinct (`Neighborhoods.NeighborhoodIdsDistinct`).
- Allocation.AllocateLights: the light total is a natural number, as the script's own call passes 5000. With a negative `total_count` the source gives every neighbourhood exactly one light, because `max(1, int(negative))` is 1 and no shortfall arises; that case is not modelled.
- StreetLights.GenerateStreetLights: the light total is a natural number, for the same reason as in `Allocation.AllocateLights`.
- Neighborhoods.GenerateNeighborhoods: the count is a natural number, as the script passes 50. With a negative count the source raises TypeError at `int(count ** 0.5)`, because the power is a complex number; that error is not modelled.
- Neighborhoods.GridSize: the count is a natural number, for the same reason as in `Neighborhoods.GenerateNeighborhoods`.
- Suppliers.GenerateSuppliers: the count is a natural number, as the script passes 25. A negative count gives an empty list in the source, the same result as a count of 0.
- Populations in the allocator are natural numbers. A negative population in the CSV is not modelled.
- Each neighbourhood must have a non-empty boundary. shapely's behaviour on an empty polygon is not modelled.
- Text.ParseNat: Python's `int(s)` also accepts surrounding whitespace (`" 7"`), a leading sign (`"+7"`), digit-group underscores (`"1_0"`) and non-ASCII decimal digits (`"١٢"`); the model accepts only a non-empty string of ASCII digits and returns None for those four forms.
- Enrichment.ZoneOf: Python's `int()` also accepts surrounding whitespace, a leading `+` and digit-group underscores; the model treats those strings as ValueError.
- Suppliers.WeightedIndex: Python's `bisect` is a binary search over the running totals; the model finds the same index by a linear scan.
- Neighborhoods.RootFromBounds: `count ** 0.5` is a float square root; the model uses the exact integer square root, which can differ only where float rounding of a very large count crosses an integer.
- `StreetLights.Shuffle` models `random.shuffle` as the Fisher–Yates swaps driven by one pick per position. The model proves that the result is a permutation of the pool.
- The unused vertex angle (`data/generate_neighborhoods.py:54`) is not modelled. Because of it, rings are not guaranteed to be simple polygons.
- Each script's `main` is left out, along with the dashboard: they only call the generators and print results.
