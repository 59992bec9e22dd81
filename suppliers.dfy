/** The supplier table of data/generate_suppliers.py. Each supplier gets:
    - an id and a name;
    - a location, clustered near the city centre or spread uniformly, then clamped into the
      city bounds;
    - a phone number, a service radius, a response time and a specialization drawn with
      weights 4, 2 and 4.

    Every random draw is an input. */
module Suppliers {
  import opened Builtins
  import opened Text
  import opened Geometry

  const SUPPLIER_NAMES: seq<string> := [
    "Acme Lights & Co.", "BrightBeam Systems Demo", "CloudGlow Innovations", "DeltaLux Technologies",
    "EchoLight Solutions Demo", "FusionBright Industries", "GammaWatt Distributors", "HorizonLED Technologies",
    "InfinityLight Demo Corp", "JetStream Illumination", "KryptoLux Systems", "LumiFlex Technologies Demo",
    "MegaBeam Industries", "NovaSpark Lighting Co.", "OmegaBright Solutions", "PixelGlow Technologies",
    "QuantumLight Demo Inc", "RadiantEdge Systems", "StellarBeam Technologies", "TitanLux Industries Demo",
    "UltraGlow Solutions", "VortexLight Systems", "WarpSpeed Illumination", "XenonBright Technologies",
    "ZenithLight Demo Corp", "AlphaLux Enterprises", "BetaBeam Industries", "CrystalGlow Solutions Demo",
    "DynamicLight Systems", "EliteBeam Technologies Demo"]

  const SPECIALIZATIONS: seq<string> := ["LED", "Sodium Vapor", "All"]
  const SPEC_WEIGHTS: seq<nat> := [4, 2, 4]
  const SERVICE_RADII: seq<nat> := [5, 8, 10, 12, 15]
  const RESPONSE_HOURS: seq<nat> := [2, 3, 4, 5, 6, 8]

  /** The city centre the clustered suppliers gather around. */
  const CENTRE_LAT: real := 12.9716
  const CENTRE_LON: real := 77.5946

  /** The draws made for one supplier: the branch draw, two Gaussian offsets for the
      clustered branch, two unit draws for the uniform branch, the phone pick, the radius
      and response picks, and the unit draw behind the weighted specialization. */
  datatype SupplierDraw = SupplierDraw(branch: real, gaussLat: real, gaussLon: real, uLat: real, uLon: real,
                                       phonePick: nat, radiusPick: nat, responsePick: nat, specU: real)

  predicate ValidSupplierDraw(d: SupplierDraw) {
    Unit(d.uLat) && Unit(d.uLon)
  }

  /** One row of suppliers.csv; the location is the point itself rather than its WKT text. */
  datatype Supplier = Supplier(id: string, name: string, location: Point, phone: string,
                               serviceRadiusKm: nat, avgResponseHours: nat, specialization: string)

  function SupplierId(i: nat): string {
    "SUP-" + Padded(i + 1, 3)
  }

  function SupplierName(i: nat): string {
    if i < |SUPPLIER_NAMES| then SUPPLIER_NAMES[i] else "Supplier " + NatToString(i + 1)
  }

  /** The location before clamping: the centre plus Gaussian offsets on the clustered
      branch (branch draw below 0.4), a uniform point of the bounds otherwise. */
  function RawLatLon(d: SupplierDraw): (real, real)
    requires ValidSupplierDraw(d)
  {
    if d.branch < 0.4 then (CENTRE_LAT + d.gaussLat, CENTRE_LON + d.gaussLon)
    else (Uniform(LAT_MIN, LAT_MAX, d.uLat), Uniform(LON_MIN, LON_MAX, d.uLon))
  }

  function Location(d: SupplierDraw): Point
    requires ValidSupplierDraw(d)
  {
    ClampToCity(RawLatLon(d).0, RawLatLon(d).1)
  }

  /** `f"+91-80-{random.randint(20000000, 99999999)}"`. */
  function Phone(pick: nat): string {
    "+91-80-" + NatToString(RandInt(20000000, 99999999, pick))
  }

  /** `sum(weights[:i])`: the running totals `random.choices` accumulates. */
  function CumWeight(weights: seq<nat>, i: nat): nat
    requires i <= |weights|
  {
    if i == 0 then 0 else CumWeight(weights, i - 1) + weights[i - 1]
  }

  /** `bisect(cum_weights, x, 0, n - 1)` searched from index `i`: the first index whose
      running total exceeds `x`, or the last index when none before it does. */
  function WeightedIndex(weights: seq<nat>, x: real, i: nat): (r: nat)
    requires i < |weights|
    ensures i <= r < |weights|
    decreases |weights| - i
  {
    if i == |weights| - 1 || x < CumWeight(weights, i + 1) as real then i
    else WeightedIndex(weights, x, i + 1)
  }

  /** `random.choices(population, weights)[0]` for the unit draw `u`. */
  function WeightedChoice<T>(population: seq<T>, weights: seq<nat>, u: real): T
    requires |population| == |weights| > 0
  {
    population[WeightedIndex(weights, u * CumWeight(weights, |weights|) as real, 0)]
  }

  function Specialization(u: real): string {
    WeightedChoice(SPECIALIZATIONS, SPEC_WEIGHTS, u)
  }

  /** The supplier built in pass `i` of the loop. */
  function SupplierAt(i: nat, d: SupplierDraw): Supplier
    requires ValidSupplierDraw(d)
  {
    Supplier(SupplierId(i), SupplierName(i), Location(d), Phone(d.phonePick),
             Choice(SERVICE_RADII, d.radiusPick), Choice(RESPONSE_HOURS, d.responsePick),
             Specialization(d.specU))
  }

  function SuppliersUpTo(draws: seq<SupplierDraw>, n: nat): (s: seq<Supplier>)
    requires n <= |draws| && forall k :: 0 <= k < |draws| ==> ValidSupplierDraw(draws[k])
    ensures |s| == n
  {
    seq(n, k requires 0 <= k < n => SupplierAt(k, draws[k]))
  }

  /** `generate_suppliers(count)`. */
  method GenerateSuppliers(count: nat, draws: seq<SupplierDraw>) returns (suppliers: seq<Supplier>)
    requires |draws| == count && forall k :: 0 <= k < |draws| ==> ValidSupplierDraw(draws[k])
    ensures suppliers == SuppliersUpTo(draws, count)
  {
    suppliers := [];
    for i := 0 to count
      invariant suppliers == SuppliersUpTo(draws, i)
    {
      var supplier := BuildSupplier(i, draws[i]);
      suppliers := suppliers + [supplier];
    }
  }

  /** The body of the loop, statement by statement; specified by `SupplierAt`. */
  method BuildSupplier(i: nat, d: SupplierDraw) returns (supplier: Supplier)
    requires ValidSupplierDraw(d)
    ensures supplier == SupplierAt(i, d)
  {
    var supplierId := "SUP-" + Padded(i + 1, 3);
    var name := if i < |SUPPLIER_NAMES| then SUPPLIER_NAMES[i] else "Supplier " + NatToString(i + 1);
    var latitude, longitude;
    if d.branch < 0.4 {
      latitude := CENTRE_LAT + d.gaussLat;
      longitude := CENTRE_LON + d.gaussLon;
    } else {
      latitude := Uniform(LAT_MIN, LAT_MAX, d.uLat);
      longitude := Uniform(LON_MIN, LON_MAX, d.uLon);
    }
    latitude := Max(LAT_MIN, Min(LAT_MAX, latitude));
    longitude := Max(LON_MIN, Min(LON_MAX, longitude));
    var location := Point(longitude, latitude);
    var contactPhone := "+91-80-" + NatToString(RandInt(20000000, 99999999, d.phonePick));
    var serviceRadiusKm := Choice(SERVICE_RADII, d.radiusPick);
    var avgResponseHours := Choice(RESPONSE_HOURS, d.responsePick);
    var specialization := WeightedChoice(SPECIALIZATIONS, SPEC_WEIGHTS, d.specU);
    supplier := Supplier(supplierId, name, location, contactPhone, serviceRadiusKm, avgResponseHours, specialization);
  }

  /** Supplier `i` gets the id `SUP-` and `i + 1` padded to three digits: the number
      after the prefix reads back as `i + 1`, so no two suppliers share an id. */
  lemma SupplierIds(i: nat, j: nat)
    ensures SupplierId(i)[..4] == "SUP-"
    ensures ParseNat(SupplierId(i)[4..]) == Some(i + 1)
    ensures SupplierId(i) == SupplierId(j) ==> i == j
  {
    assert SupplierId(i)[4..] == Padded(i + 1, 3);
    ParsePadded(i + 1, 3);
    if SupplierId(i) == SupplierId(j) {
      PrefixCancel("SUP-", Padded(i + 1, 3), Padded(j + 1, 3));
      PaddedInjective(i + 1, j + 1, 3);
    }
  }

  /** The first thirty suppliers take the listed names; later ones are `Supplier` and their
      number. */
  lemma SupplierNames(i: nat)
    ensures i < 30 ==> SupplierName(i) == SUPPLIER_NAMES[i]
    ensures i >= 30 ==> SupplierName(i)[..9] == "Supplier " && ParseNat(SupplierName(i)[9..]) == Some(i + 1)
  {
    if i >= 30 {
      assert SupplierName(i)[9..] == NatToString(i + 1);
      DigitsOfNatToString(i + 1);
    }
  }

  /** Both branches end inside the city bounds; a uniform draw is left where it fell, and
      clamping never pulls a clustered supplier further from the centre than its Gaussian
      offset put it. */
  lemma LocationInCity(d: SupplierDraw)
    requires ValidSupplierDraw(d)
    ensures InCity(Location(d))
    ensures d.branch >= 0.4 ==> Location(d) == Point(Uniform(LON_MIN, LON_MAX, d.uLon), Uniform(LAT_MIN, LAT_MAX, d.uLat))
    ensures d.branch < 0.4 ==>
      Abs(Location(d).y - CENTRE_LAT) <= Abs(d.gaussLat) && Abs(Location(d).x - CENTRE_LON) <= Abs(d.gaussLon)
  {
    if d.branch < 0.4 {
      ClampCloser(LAT_MIN, LAT_MAX, CENTRE_LAT + d.gaussLat, CENTRE_LAT);
      ClampCloser(LON_MIN, LON_MAX, CENTRE_LON + d.gaussLon, CENTRE_LON);
    }
  }

  /** The phone number is `+91-80-` and eight digits that read back as the drawn number. */
  lemma PhoneFormat(pick: nat)
    ensures var phone := Phone(pick);
      && |phone| == 15
      && phone[..7] == "+91-80-"
      && ParseNat(phone[7..]) == Some(RandInt(20000000, 99999999, pick))
  {
    var n := RandInt(20000000, 99999999, pick);
    assert Pow10(7) == 10000000 && Pow10(8) == 100000000;
    NatToStringLength(n, 8);
    assert Phone(pick)[7..] == NatToString(n);
    DigitsOfNatToString(n);
  }

  /** The index drawn has `x` inside its band: the running total before it is at most `x`,
      and `x` is below the running total through it whenever `x` is below the grand total. */
  lemma {:induction false} WeightedIndexBand(weights: seq<nat>, x: real, i: nat)
    requires i < |weights| && CumWeight(weights, i) as real <= x
    ensures var r := WeightedIndex(weights, x, i);
      && CumWeight(weights, r) as real <= x
      && (x < CumWeight(weights, |weights|) as real ==> x < CumWeight(weights, r + 1) as real)
    decreases |weights| - i
  {
    if i < |weights| - 1 && CumWeight(weights, i + 1) as real <= x {
      WeightedIndexBand(weights, x, i + 1);
    }
  }

  /** With weights 4, 2, 4 and a draw `u` in [0, 1): LED for `10u < 4`, Sodium Vapor for
      `4 <= 10u < 6`, All for `10u >= 6` — bands of 40%, 20% and 40%. */
  lemma SpecializationBands(u: real)
    requires 0.0 <= u < 1.0
    ensures Specialization(u) == "LED" <==> u * 10.0 < 4.0
    ensures Specialization(u) == "Sodium Vapor" <==> 4.0 <= u * 10.0 < 6.0
    ensures Specialization(u) == "All" <==> 6.0 <= u * 10.0
  {
    assert CumWeight(SPEC_WEIGHTS, 1) == 4 && CumWeight(SPEC_WEIGHTS, 2) == 6 && CumWeight(SPEC_WEIGHTS, 3) == 10;
    WeightedIndexBand(SPEC_WEIGHTS, u * 10.0, 0);
  }

  /** Radius, response time and specialization come from their lists. */
  lemma SupplierFields(i: nat, d: SupplierDraw)
    requires ValidSupplierDraw(d)
    ensures var s := SupplierAt(i, d);
      && s.serviceRadiusKm in {5, 8, 10, 12, 15}
      && s.avgResponseHours in {2, 3, 4, 5, 6, 8}
      && s.specialization in {"LED", "Sodium Vapor", "All"}
  {
  }
}
