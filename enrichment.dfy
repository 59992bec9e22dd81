/** The enrichment tables of data/generate_enrichment_data.py, computed from the street-light
    and neighbourhood rows:
    - weather: three seasonal rows per light, each with a temperature, a rainfall, a
      failure-risk score and, for risky working lights, a predicted failure day;
    - demographics: a population density per neighbourhood and its urban classification;
    - power grid: a zone derived from the number in the light id, a load near that zone's
      base load, and an outage count banded by the load.

    Dates are day numbers and today is a parameter. Every random draw is an input. */
module Enrichment {
  import opened Builtins
  import opened Text
  import Allocation
  import StreetLights

  /** The columns of street_lights.csv the enrichment reads: the id, the status text and the
      installation day. */
  datatype LightRow = LightRow(id: string, status: string, installDay: int)

  /** The row street_lights.csv holds for a generated light. */
  function RowOf(l: StreetLights.Light): (row: LightRow)
    ensures row.id == l.id && row.installDay == l.installDay
  {
    LightRow(l.id, StreetLights.StatusName(l.status), l.installDay)
  }

  // ---------------------------------------------------------------------------------
  // Weather

  /** The seasons, in the order of the `seasons` dictionary. */
  datatype Season = Monsoon | Summer | Winter

  const SEASONS: seq<Season> := [Monsoon, Summer, Winter]

  function SeasonName(s: Season): string {
    match s
    case Monsoon => "monsoon"
    case Summer => "summer"
    case Winter => "winter"
  }

  /** A range `(lo, hi)` of the season table, both ends whole numbers of hundredths,
      written as hundredths. */
  datatype Range = Range(lo: int, hi: int)

  function Real(cents: int): real {
    cents as real / 100.0
  }

  function TempRange(s: Season): Range {
    match s
    case Monsoon => Range(2500, 3000)
    case Summer => Range(3200, 3800)
    case Winter => Range(1800, 2500)
  }

  function RainfallRange(s: Season): Range {
    match s
    case Monsoon => Range(15000, 25000)
    case Summer => Range(1500, 4000)
    case Winter => Range(500, 2000)
  }

  function RiskRange(s: Season): Range {
    match s
    case Monsoon => Range(70, 90)
    case Summer => Range(50, 70)
    case Winter => Range(20, 40)
  }

  /** The unit draws behind one weather row: temperature, rainfall, base risk, and the
      `uniform(7, 180)` behind the days to failure. */
  datatype WeatherDraw = WeatherDraw(temp: real, rain: real, risk: real, days: real)

  predicate ValidWeatherDraw(d: WeatherDraw) {
    Unit(d.temp) && Unit(d.rain) && Unit(d.risk) && Unit(d.days)
  }

  /** Three draws per light, one per season. */
  predicate ValidWeatherDraws(ds: seq<seq<WeatherDraw>>) {
    forall k :: 0 <= k < |ds| ==> |ds[k]| == 3 && forall s :: 0 <= s < 3 ==> ValidWeatherDraw(ds[k][s])
  }

  /** One row of weather_enrichment.csv; an empty predicted date is `None`. */
  datatype WeatherRow = WeatherRow(lightId: string, season: Season, avgTemperature: real, rainfall: real,
                                   failureRisk: real, predictedFailureDay: Option<int>)

  /** `random.uniform(lo, hi)` over a range of the season table. */
  function Draw(r: Range, u: real): real
    requires r.lo <= r.hi && Unit(u)
  {
    Uniform(Real(r.lo), Real(r.hi), u)
  }

  /** `min(0.15, light_age_days / (365 * 30))`. */
  function AgeFactor(ageDays: int): real {
    Min(0.15, ageDays as real / 10950.0)
  }

  const STATUS_FACTORS: map<string, real> :=
    map["operational" := 0.0, "maintenance_required" := 0.10, "faulty" := 0.0]

  /** The `status_factor` dictionary lookup, 0 for a status it does not list. */
  function StatusFactor(status: string): real {
    if status in STATUS_FACTORS then STATUS_FACTORS[status] else 0.0
  }

  /** `round(min(0.99, base_risk + age_factor + status_factor), 2)`. */
  function FinalRisk(baseRisk: real, ageDays: int, status: string): real {
    Round2(Min(0.99, baseRisk + AgeFactor(ageDays) + StatusFactor(status)))
  }

  /** `int(uniform(7, 180) * (1 - final_risk))`. */
  function DaysToFailure(risk: real, u: real): int
    requires Unit(u)
  {
    Trunc(Uniform(7.0, 180.0, u) * (1.0 - risk))
  }

  /** Whether a row gets a predicted failure date. */
  predicate Predicts(status: string, risk: real) {
    status != "faulty" && risk > 0.5
  }

  /** The row for one light and one season. */
  function WeatherRecord(today: int, light: LightRow, season: Season, d: WeatherDraw): WeatherRow
    requires ValidWeatherDraw(d)
  {
    var risk := FinalRisk(Draw(RiskRange(season), d.risk), today - light.installDay, light.status);
    WeatherRow(light.id, season,
               Round2(Draw(TempRange(season), d.temp)),
               Round2(Draw(RainfallRange(season), d.rain)),
               risk,
               if Predicts(light.status, risk) then Some(today + DaysToFailure(risk, d.days)) else None)
  }

  /** The rows for the first `n` lights: row `3 * k + s` is light `k` in season `s`. */
  function WeatherRows(today: int, lights: seq<LightRow>, draws: seq<seq<WeatherDraw>>, n: nat): (rows: seq<WeatherRow>)
    requires n <= |lights| == |draws| && ValidWeatherDraws(draws)
    ensures |rows| == 3 * n
  {
    seq(3 * n, i requires 0 <= i < 3 * n => WeatherRecord(today, lights[i / 3], SEASONS[i % 3], draws[i / 3][i % 3]))
  }

  /** The body of the season loop, statement by statement; specified by `WeatherRecord`. */
  method SeasonRecord(today: int, light: LightRow, season: Season, d: WeatherDraw) returns (row: WeatherRow)
    requires ValidWeatherDraw(d)
    ensures row == WeatherRecord(today, light, season, d)
  {
    var lightAgeDays := today - light.installDay;
    var avgTemp := Round2(Draw(TempRange(season), d.temp));
    var rainfall := Round2(Draw(RainfallRange(season), d.rain));
    var baseRisk := Draw(RiskRange(season), d.risk);
    var finalRisk := AdjustedRisk(baseRisk, lightAgeDays, light.status);
    var predicted := PredictedDay(today, light.status, finalRisk, d.days);
    row := WeatherRow(light.id, season, avgTemp, rainfall, finalRisk, predicted);
  }

  /** The risk adjustment: age factor, status factor, cap and rounding; specified by
      `FinalRisk`. */
  method AdjustedRisk(baseRisk: real, lightAgeDays: int, status: string) returns (finalRisk: real)
    ensures finalRisk == FinalRisk(baseRisk, lightAgeDays, status)
  {
    var ageFactor := Min(0.15, lightAgeDays as real / 10950.0);
    var statusFactor := if status in STATUS_FACTORS then STATUS_FACTORS[status] else 0.0;
    finalRisk := Min(0.99, baseRisk + ageFactor + statusFactor);
    finalRisk := Round2(finalRisk);
  }

  /** The predicted failure date, left empty for faulty lights and risks of 0.5 or less;
      specified by `Predicts` and `DaysToFailure`. */
  method PredictedDay(today: int, status: string, finalRisk: real, u: real) returns (predicted: Option<int>)
    requires Unit(u)
    ensures predicted == if Predicts(status, finalRisk) then Some(today + DaysToFailure(finalRisk, u)) else None
  {
    predicted := None;
    if status != "faulty" && finalRisk > 0.5 {
      var daysToFailure := Trunc(Uniform(7.0, 180.0, u) * (1.0 - finalRisk));
      predicted := Some(today + daysToFailure);
    }
  }

  /** The inner loop over the three seasons of one light. */
  method LightWeather(today: int, light: LightRow, ds: seq<WeatherDraw>) returns (block: seq<WeatherRow>)
    requires |ds| == 3 && forall s :: 0 <= s < 3 ==> ValidWeatherDraw(ds[s])
    ensures |block| == 3
    ensures forall s :: 0 <= s < 3 ==> block[s] == WeatherRecord(today, light, SEASONS[s], ds[s])
  {
    block := [];
    for s := 0 to 3
      invariant |block| == s
      invariant forall t :: 0 <= t < s ==> block[t] == WeatherRecord(today, light, SEASONS[t], ds[t])
    {
      var row := SeasonRecord(today, light, SEASONS[s], ds[s]);
      block := block + [row];
    }
  }

  /** One more light appends its three seasonal rows. */
  lemma WeatherRowsSnoc(today: int, lights: seq<LightRow>, draws: seq<seq<WeatherDraw>>, k: nat, block: seq<WeatherRow>)
    requires k < |lights| == |draws| && ValidWeatherDraws(draws)
    requires |block| == 3
    requires forall s :: 0 <= s < 3 ==> block[s] == WeatherRecord(today, lights[k], SEASONS[s], draws[k][s])
    ensures WeatherRows(today, lights, draws, k + 1) == WeatherRows(today, lights, draws, k) + block
  {
    var next := WeatherRows(today, lights, draws, k + 1);
    var both := WeatherRows(today, lights, draws, k) + block;
    forall i | 0 <= i < 3 * (k + 1)
      ensures next[i] == both[i]
    {
      if i >= 3 * k {
        assert i / 3 == k && i % 3 == i - 3 * k;
      }
    }
  }

  /** `generate_weather_enrichment(lights)`. */
  method GenerateWeatherEnrichment(today: int, lights: seq<LightRow>, draws: seq<seq<WeatherDraw>>)
    returns (rows: seq<WeatherRow>)
    requires |draws| == |lights| && ValidWeatherDraws(draws)
    ensures rows == WeatherRows(today, lights, draws, |lights|)
  {
    rows := [];
    for k := 0 to |lights|
      invariant rows == WeatherRows(today, lights, draws, k)
    {
      var block := LightWeather(today, lights[k], draws[k]);
      WeatherRowsSnoc(today, lights, draws, k, block);
      rows := rows + block;
    }
  }

  /** Exactly three rows per light, in season order monsoon, summer, winter, each carrying
      the light's id. */
  lemma WeatherRowAt(today: int, lights: seq<LightRow>, draws: seq<seq<WeatherDraw>>, k: nat, s: nat)
    requires |lights| == |draws| && ValidWeatherDraws(draws)
    requires k < |lights| && s < 3
    ensures var rows := WeatherRows(today, lights, draws, |lights|);
      && |rows| == 3 * |lights|
      && 3 * k + s < |rows|
      && rows[3 * k + s] == WeatherRecord(today, lights[k], SEASONS[s], draws[k][s])
      && rows[3 * k + s].lightId == lights[k].id
      && SeasonName(rows[3 * k + s].season) == ["monsoon", "summer", "winter"][s]
  {
    assert (3 * k + s) / 3 == k && (3 * k + s) % 3 == s;
  }

  /** The age factor never exceeds 0.15, and is non-negative for an installation day that is
      not in the future. */
  lemma AgeFactorBounds(ageDays: int)
    ensures AgeFactor(ageDays) <= 0.15
    ensures ageDays >= 0 ==> 0.0 <= AgeFactor(ageDays)
  {
  }

  /** The status factor is 0.10 for `maintenance_required` and 0 for every other status,
      listed or not. */
  lemma StatusFactorValue(status: string)
    ensures StatusFactor(status) == if status == "maintenance_required" then 0.10 else 0.0
  {
  }

  /** The final risk is at most 0.99, and at least the season's lowest base risk when the
      light was installed on or before today. */
  lemma RiskBounds(today: int, light: LightRow, season: Season, d: WeatherDraw)
    requires ValidWeatherDraw(d)
    ensures WeatherRecord(today, light, season, d).failureRisk <= 0.99
    ensures light.installDay <= today ==>
      Real(RiskRange(season).lo) <= WeatherRecord(today, light, season, d).failureRisk
  {
    var base := Draw(RiskRange(season), d.risk);
    var age := today - light.installDay;
    var x := Min(0.99, base + AgeFactor(age) + StatusFactor(light.status));
    StatusFactorValue(light.status);
    AgeFactorBounds(age);
    Round2Monotone(x, Real(99));
    Round2Fixes(99);
    if age >= 0 {
      Round2Between(RiskRange(season).lo, 99, x);
    }
  }

  /** A light whose installation day lies in the future gets a negative age factor, which
      nothing clamps: sixty years (21 900 days) ahead, a winter row's risk is below zero. */
  lemma FutureInstallGivesNegativeRisk(today: int, d: WeatherDraw)
    requires ValidWeatherDraw(d)
    ensures WeatherRecord(today, LightRow("SL-0001", "operational", today + 21900), Winter, d).failureRisk < 0.0
  {
    var light := LightRow("SL-0001", "operational", today + 21900);
    var base := Draw(RiskRange(Winter), d.risk);
    assert AgeFactor(-21900) == -2.0;
    StatusFactorValue("operational");
    var x := Min(0.99, base + AgeFactor(-21900) + StatusFactor("operational"));
    assert x <= -1.6;
    Round2Monotone(x, Real(-160));
    Round2Fixes(-160);
  }

  /** Only working lights (any status but `faulty`) with a risk above 0.5 get a predicted
      failure date, and it falls within the next 90 days. */
  lemma PredictionRule(today: int, light: LightRow, season: Season, d: WeatherDraw)
    requires ValidWeatherDraw(d)
    ensures var row := WeatherRecord(today, light, season, d);
      && (row.predictedFailureDay.Some? <==> light.status != "faulty" && row.failureRisk > 0.5)
      && (row.predictedFailureDay.Some? ==> today <= row.predictedFailureDay.value < today + 90)
  {
    var row := WeatherRecord(today, light, season, d);
    RiskBounds(today, light, season, d);
    if row.predictedFailureDay.Some? {
      DaysToFailureBounds(row.failureRisk, d.days);
    }
  }

  /** With a risk in (0.5, 0.99], `int(uniform(7, 180) * (1 - risk))` lies in [0, 90). */
  lemma DaysToFailureBounds(risk: real, u: real)
    requires 0.5 < risk <= 0.99 && Unit(u)
    ensures 0 <= DaysToFailure(risk, u) < 90
  {
    var x := Uniform(7.0, 180.0, u);
    var y := 1.0 - risk;
    MulNonNegative(x, y);
    MulNonNegative(180.0 - x, y);
    assert x * y <= 180.0 * y < 90.0;
  }

  /** Temperature and rainfall stay within the season's ranges after rounding. */
  lemma WeatherRanges(today: int, light: LightRow, season: Season, d: WeatherDraw)
    requires ValidWeatherDraw(d)
    ensures var row := WeatherRecord(today, light, season, d);
      && Real(TempRange(season).lo) <= row.avgTemperature <= Real(TempRange(season).hi)
      && Real(RainfallRange(season).lo) <= row.rainfall <= Real(RainfallRange(season).hi)
  {
    Round2Between(TempRange(season).lo, TempRange(season).hi, Draw(TempRange(season), d.temp));
    Round2Between(RainfallRange(season).lo, RainfallRange(season).hi, Draw(RainfallRange(season), d.rain));
  }

  // ---------------------------------------------------------------------------------
  // Demographics

  /** The columns of neighborhoods.csv the demographics read. */
  datatype NeighborhoodRow = NeighborhoodRow(id: string, population: int)

  datatype UrbanClass = Urban | Suburban | Rural

  function UrbanClassName(c: UrbanClass): string {
    match c
    case Urban => "urban"
    case Suburban => "suburban"
    case Rural => "rural"
  }

  /** One row of demographics_enrichment.csv. */
  datatype DemographicsRow = DemographicsRow(neighborhoodId: string, populationDensity: int, classification: string)

  /** `int(population / uniform(2, 10))`: people per square kilometre over a drawn area. */
  function Density(population: int, u: real): int
    requires Unit(u)
  {
    Trunc(population as real / Uniform(2.0, 10.0, u))
  }

  function Classify(density: int): UrbanClass {
    if density > 15000 then Urban
    else if density > 5000 then Suburban
    else Rural
  }

  /** How dense a class is: rural 0, suburban 1, urban 2. */
  function Rank(c: UrbanClass): nat {
    match c
    case Rural => 0
    case Suburban => 1
    case Urban => 2
  }

  /** A denser neighbourhood is never classified as less urban. */
  lemma ClassifyMonotone(d1: int, d2: int)
    requires d1 <= d2
    ensures Rank(Classify(d1)) <= Rank(Classify(d2))
  {
  }

  /** Over an area of 2 to 10 square kilometres the density lies between a tenth and a half
      of the population. */
  lemma DensityBounds(population: nat, u: real)
    requires Unit(u)
    ensures population as real / 10.0 - 1.0 < Density(population, u) as real <= population as real / 2.0
  {
    var area := Uniform(2.0, 10.0, u);
    var p := population as real;
    var q := p / area;
    assert q * area == p;
    assert 0.0 <= q;
    MulNonNegative(q, area - 2.0);
    MulNonNegative(q, 10.0 - area);
    assert q * 2.0 <= p && p <= q * 10.0;
  }

  /** A neighbourhood of 160 010 people or more is urban whatever its drawn area; one of
      10 000 or fewer is rural. */
  lemma ClassByPopulation(population: nat, u: real)
    requires Unit(u)
    ensures population >= 160010 ==> Classify(Density(population, u)) == Urban
    ensures population <= 10000 ==> Classify(Density(population, u)) == Rural
  {
    DensityBounds(population, u);
  }

  function DemographicsRecord(nh: NeighborhoodRow, u: real): DemographicsRow
    requires Unit(u)
  {
    var density := Density(nh.population, u);
    DemographicsRow(nh.id, density, UrbanClassName(Classify(density)))
  }

  function DemographicsRows(nhs: seq<NeighborhoodRow>, areas: seq<real>, n: nat): (rows: seq<DemographicsRow>)
    requires n <= |nhs| == |areas| && forall k :: 0 <= k < |areas| ==> Unit(areas[k])
    ensures |rows| == n
  {
    seq(n, k requires 0 <= k < n => DemographicsRecord(nhs[k], areas[k]))
  }

  /** `generate_demographics_enrichment(neighborhoods)`. */
  method GenerateDemographicsEnrichment(nhs: seq<NeighborhoodRow>, areas: seq<real>) returns (rows: seq<DemographicsRow>)
    requires |areas| == |nhs| && forall k :: 0 <= k < |areas| ==> Unit(areas[k])
    ensures rows == DemographicsRows(nhs, areas, |nhs|)
  {
    rows := [];
    for k := 0 to |nhs|
      invariant rows == DemographicsRows(nhs, areas, k)
    {
      var nh := nhs[k];
      var areaSqkm := Uniform(2.0, 10.0, areas[k]);
      var populationDensity := Trunc(nh.population as real / areaSqkm);
      var urbanClassification: string;
      if populationDensity > 15000 {
        urbanClassification := "urban";
      } else if populationDensity > 5000 {
        urbanClassification := "suburban";
      } else {
        urbanClassification := "rural";
      }
      rows := rows + [DemographicsRow(nh.id, populationDensity, urbanClassification)];
    }
  }

  /** One row per neighbourhood, in input order, classified by its density's band. */
  lemma DemographicsRowAt(nhs: seq<NeighborhoodRow>, areas: seq<real>, k: nat)
    requires |areas| == |nhs| && forall k :: 0 <= k < |areas| ==> Unit(areas[k])
    requires k < |nhs|
    ensures var row := DemographicsRows(nhs, areas, |nhs|)[k];
      && row.neighborhoodId == nhs[k].id
      && (row.classification == "urban" <==> row.populationDensity > 15000)
      && (row.classification == "suburban" <==> 5000 < row.populationDensity <= 15000)
      && (row.classification == "rural" <==> row.populationDensity <= 5000)
  {
  }

  // ---------------------------------------------------------------------------------
  // Power grid

  const GRID_ZONES: seq<string> := ["ZONE-A", "ZONE-B", "ZONE-C", "ZONE-D", "ZONE-E"]

  const ZONE_BASE_LOAD: map<string, int> :=
    map["ZONE-A" := 75, "ZONE-B" := 82, "ZONE-C" := 68, "ZONE-D" := 78, "ZONE-E" := 71]

  /** What Python raises when the light id has no `-` (IndexError) or no number after it
      (ValueError). */
  datatype ZoneError = IndexError | ValueError

  /** `grid_zones[int(light_id.split('-')[1]) % len(grid_zones)]`. */
  function ZoneOf(lightId: string): (r: Result<string, ZoneError>)
    ensures r.Success? ==> r.value in ZONE_BASE_LOAD
  {
    var parts := Split(lightId, '-');
    if |parts| < 2 then Failure(IndexError)
    else
      match ParseNat(parts[1])
      case None => Failure(ValueError)
      case Some(n) =>
        var zone := GRID_ZONES[n % |GRID_ZONES|];
        assert zone in ZONE_BASE_LOAD by {
          assert n % 5 in {0, 1, 2, 3, 4};
        }
        Success(zone)
  }

  /** The unit draw behind the load and the pick behind the outage count. */
  datatype PowerDraw = PowerDraw(load: real, outagePick: nat)

  /** One row of power_grid_enrichment.csv. */
  datatype PowerRow = PowerRow(lightId: string, zone: string, avgLoadPercent: real, outageHistoryCount: int)

  /** `round(base_load + uniform(-5, 5), 2)`. */
  function Load(baseLoad: int, u: real): real
    requires Unit(u)
  {
    Round2(baseLoad as real + Uniform(-5.0, 5.0, u))
  }

  /** The outage count: `randint(3, 8)` above 80% load, `randint(1, 4)` above 75%,
      `randint(0, 2)` otherwise. */
  function Outages(load: real, pick: nat): (n: int)
    ensures load > 80.0 ==> 3 <= n <= 8
    ensures 75.0 < load <= 80.0 ==> 1 <= n <= 4
    ensures load <= 75.0 ==> 0 <= n <= 2
  {
    if load > 80.0 then RandInt(3, 8, pick)
    else if load > 75.0 then RandInt(1, 4, pick)
    else RandInt(0, 2, pick)
  }

  function PowerRecord(light: LightRow, d: PowerDraw): Result<PowerRow, ZoneError>
    requires Unit(d.load)
  {
    match ZoneOf(light.id)
    case Failure(e) => Failure(e)
    case Success(zone) =>
      var load := Load(ZONE_BASE_LOAD[zone], d.load);
      Success(PowerRow(light.id, zone, load, Outages(load, d.outagePick)))
  }

  /** The rows for the first `n` lights, or the error of the first light whose id does not
      parse: the exception ends the function. */
  function PowerGridRows(lights: seq<LightRow>, draws: seq<PowerDraw>, n: nat): (r: Result<seq<PowerRow>, ZoneError>)
    requires n <= |lights| == |draws| && forall k :: 0 <= k < |draws| ==> Unit(draws[k].load)
    ensures r.Success? ==> |r.value| == n
  {
    if n == 0 then Success([])
    else
      var prev := PowerGridRows(lights, draws, n - 1);
      if prev.Failure? then prev
      else
        match PowerRecord(lights[n - 1], draws[n - 1])
        case Failure(e) => Failure(e)
        case Success(row) => Success(prev.value + [row])
  }

  /** Once a light fails, the whole run fails with that error. */
  lemma {:induction false} FailurePersists(lights: seq<LightRow>, draws: seq<PowerDraw>, k: nat, m: nat)
    requires k <= m <= |lights| == |draws| && forall j :: 0 <= j < |draws| ==> Unit(draws[j].load)
    requires PowerGridRows(lights, draws, k).Failure?
    ensures PowerGridRows(lights, draws, m) == PowerGridRows(lights, draws, k)
    decreases m - k
  {
    if k < m {
      FailurePersists(lights, draws, k, m - 1);
    }
  }

  /** `generate_power_grid_enrichment(lights)`. */
  method GeneratePowerGridEnrichment(lights: seq<LightRow>, draws: seq<PowerDraw>)
    returns (r: Result<seq<PowerRow>, ZoneError>)
    requires |draws| == |lights| && forall k :: 0 <= k < |draws| ==> Unit(draws[k].load)
    ensures r == PowerGridRows(lights, draws, |lights|)
  {
    var rows: seq<PowerRow> := [];
    for k := 0 to |lights|
      invariant PowerGridRows(lights, draws, k) == Success(rows)
    {
      var row := PowerRowOf(lights[k], draws[k]);
      if row.Failure? {
        FailurePersists(lights, draws, k + 1, |lights|);
        return Failure(row.error);
      }
      rows := rows + [row.value];
    }
    return Success(rows);
  }

  /** The body of the loop over lights, statement by statement; specified by `PowerRecord`. */
  method PowerRowOf(light: LightRow, d: PowerDraw) returns (r: Result<PowerRow, ZoneError>)
    requires Unit(d.load)
    ensures r == PowerRecord(light, d)
  {
    var parts := Split(light.id, '-');
    if |parts| < 2 {
      return Failure(IndexError);
    }
    var number := ParseNat(parts[1]);
    if number.None? {
      return Failure(ValueError);
    }
    var gridZone := GRID_ZONES[number.value % |GRID_ZONES|];
    assert ZoneOf(light.id) == Success(gridZone);
    var baseLoad := ZONE_BASE_LOAD[gridZone];
    var avgLoadPercent := Round2(baseLoad as real + Uniform(-5.0, 5.0, d.load));
    var outageHistoryCount;
    if avgLoadPercent > 80.0 {
      outageHistoryCount := RandInt(3, 8, d.outagePick);
    } else if avgLoadPercent > 75.0 {
      outageHistoryCount := RandInt(1, 4, d.outagePick);
    } else {
      outageHistoryCount := RandInt(0, 2, d.outagePick);
    }
    return Success(PowerRow(light.id, gridZone, avgLoadPercent, outageHistoryCount));
  }

  /** The id `SL-####` of light `c` lands in zone `c % 5`: the zones cycle A, B, C, D, E with
      the light counter. */
  lemma ZoneOfLightId(c: nat)
    ensures ZoneOf(StreetLights.LightId(c)) == Success(GRID_ZONES[c % 5])
  {
    var digits := Padded(c, 4);
    assert StreetLights.LightId(c) == "SL" + ['-'] + digits;
    SplitAtFirst("SL", '-', digits);
    assert '-' !in digits;
    SplitNoSeparator(digits, '-');
    ParsePadded(c, 4);
  }

  /** The load stays within 5 points of the zone's base load. */
  lemma LoadNearBase(baseLoad: int, u: real)
    requires Unit(u)
    ensures baseLoad as real - 5.0 <= Load(baseLoad, u) <= baseLoad as real + 5.0
  {
    Round2Between(100 * baseLoad - 500, 100 * baseLoad + 500, baseLoad as real + Uniform(-5.0, 5.0, u));
  }

  /** What the bands give per zone: zone C (base 68) never exceeds two outages, zone B
      (base 82) always has at least one, and zones A and E (bases 75 and 71) never exceed four. */
  lemma ZoneOutageBounds(light: LightRow, d: PowerDraw)
    requires Unit(d.load) && PowerRecord(light, d).Success?
    ensures var row := PowerRecord(light, d).value;
      && 0 <= row.outageHistoryCount <= 8
      && (row.zone == "ZONE-C" ==> row.outageHistoryCount <= 2)
      && (row.zone == "ZONE-B" ==> row.outageHistoryCount >= 1)
      && (row.zone in {"ZONE-A", "ZONE-E"} ==> row.outageHistoryCount <= 4)
  {
    var zone := ZoneOf(light.id).value;
    LoadNearBase(ZONE_BASE_LOAD[zone], d.load);
  }

  /** A successful run's row `k` is the record of light `k`. */
  lemma {:induction false} PowerGridRowAt(lights: seq<LightRow>, draws: seq<PowerDraw>, n: nat, k: nat)
    requires n <= |lights| == |draws| && forall j :: 0 <= j < |draws| ==> Unit(draws[j].load)
    requires PowerGridRows(lights, draws, n).Success? && k < n
    ensures PowerRecord(lights[k], draws[k]).Success?
    ensures PowerGridRows(lights, draws, n).value[k] == PowerRecord(lights[k], draws[k]).value
  {
    if k < n - 1 {
      PowerGridRowAt(lights, draws, n - 1, k);
    }
  }

  /** Ids of the form `SL-####` all parse, so a run over them never fails. */
  lemma {:induction false} GeneratedLightsParse(lights: seq<LightRow>, draws: seq<PowerDraw>, n: nat)
    requires n <= |lights| == |draws| && forall k :: 0 <= k < |draws| ==> Unit(draws[k].load)
    requires forall k :: 0 <= k < |lights| ==> lights[k].id == StreetLights.LightId(k + 1)
    ensures PowerGridRows(lights, draws, n).Success?
  {
    if n > 0 {
      GeneratedLightsParse(lights, draws, n - 1);
      ZoneOfLightId(n);
    }
  }

  /** For the generated lights, whose ids follow the counter from 1, every row parses and
      light `k` lands in zone `(k + 1) % 5`. */
  lemma GeneratedLightsZones(lights: seq<LightRow>, draws: seq<PowerDraw>)
    requires |lights| == |draws| && forall k :: 0 <= k < |draws| ==> Unit(draws[k].load)
    requires forall k :: 0 <= k < |lights| ==> lights[k].id == StreetLights.LightId(k + 1)
    ensures var r := PowerGridRows(lights, draws, |lights|);
      && r.Success? && |r.value| == |lights|
      && forall k :: 0 <= k < |lights| ==> r.value[k].lightId == lights[k].id && r.value[k].zone == GRID_ZONES[(k + 1) % 5]
  {
    var n := |lights|;
    GeneratedLightsParse(lights, draws, n);
    var rows := PowerGridRows(lights, draws, n).value;
    forall k | 0 <= k < n
      ensures rows[k].lightId == lights[k].id && rows[k].zone == GRID_ZONES[(k + 1) % 5]
    {
      PowerGridRowAt(lights, draws, n, k);
      ZoneOfLightId(k + 1);
    }
  }

  /** The rows street_lights.csv holds for the generated lights. */
  function LightRows(lights: seq<StreetLights.Light>): (rows: seq<LightRow>)
    ensures |rows| == |lights|
  {
    seq(|lights|, k requires 0 <= k < |lights| => RowOf(lights[k]))
  }

  /** Fed the output of the street-light generator, the power-grid table has one row per
      light and assigns light `k` (id `SL-` and `k + 1` padded) to zone `(k + 1) % 5`. */
  lemma PipelineZones(nhs: seq<Allocation.Region>, total: nat, picks: seq<nat>, w: StreetLights.World,
                      draws: seq<PowerDraw>)
    requires Allocation.Allocatable(nhs, total) && StreetLights.HasBoundaries(nhs)
    requires |picks| == StreetLights.POOL_SIZE && StreetLights.ValidWorld(w)
    requires |draws| == |StreetLights.Lights(nhs, total, picks, w)| && forall k :: 0 <= k < |draws| ==> Unit(draws[k].load)
    ensures var rows := LightRows(StreetLights.Lights(nhs, total, picks, w));
      var r := PowerGridRows(rows, draws, |rows|);
      && r.Success? && |r.value| == |rows|
      && forall k :: 0 <= k < |rows| ==> r.value[k].zone == GRID_ZONES[(k + 1) % 5]
  {
    var rows := LightRows(StreetLights.Lights(nhs, total, picks, w));
    var counts := Allocation.FinalCounts(nhs, total);
    var owners := StreetLights.Owners(counts, |nhs|);
    forall k | 0 <= k < |rows|
      ensures rows[k].id == StreetLights.LightId(k + 1)
    {
      StreetLights.RecordAt(nhs, owners, StreetLights.Shuffled(StreetLights.StatusPool(), picks), w, k);
    }
    GeneratedLightsZones(rows, draws);
  }

  /** Fed the output of the street-light generator on the same day, every weather row's
      risk lies between its season's lowest base risk and 0.99: the generated lights were
      all installed at least a year ago, so the age factor is never negative. */
  lemma PipelineRiskBounds(nhs: seq<Allocation.Region>, total: nat, picks: seq<nat>, w: StreetLights.World,
                           draws: seq<seq<WeatherDraw>>, k: nat, s: nat)
    requires Allocation.Allocatable(nhs, total) && StreetLights.HasBoundaries(nhs)
    requires |picks| == StreetLights.POOL_SIZE && StreetLights.ValidWorld(w)
    requires |draws| == |StreetLights.Lights(nhs, total, picks, w)| && ValidWeatherDraws(draws)
    requires k < |draws| && s < 3
    ensures var rows := LightRows(StreetLights.Lights(nhs, total, picks, w));
      var weather := WeatherRows(w.today, rows, draws, |rows|);
      && 3 * k + s < |weather|
      && Real(RiskRange(SEASONS[s]).lo) <= weather[3 * k + s].failureRisk <= 0.99
  {
    var lights := StreetLights.Lights(nhs, total, picks, w);
    var rows := LightRows(lights);
    var owners := StreetLights.Owners(Allocation.FinalCounts(nhs, total), |nhs|);
    var pool := StreetLights.Shuffled(StreetLights.StatusPool(), picks);
    assert lights[k] == StreetLights.LightAt(k + 1, nhs[owners[k]], pool, w);
    assert rows[k].installDay <= w.today;
    WeatherRowAt(w.today, rows, draws, k, s);
    RiskBounds(w.today, rows[k], SEASONS[s], draws[k][s]);
  }
}
