/** The population-proportional split of the street-light total over the neighbourhoods,
    as `generate_street_lights` computes it before it builds any record.

    Every neighbourhood first receives `max(1, int(total_count * population / total_population))`
    lights. If those shares sum to less than the total, the shortfall is handed out one
    light at a time to the neighbourhoods in descending-population order, cycling through
    that order. Shares that already reach or exceed the total are kept as they are.

    The model uses exact integer floor division. The source divides floats and then
    truncates; for non-negative operands the two differ only where the float quotient is
    rounded across an integer. */
module Allocation {
  import opened Builtins
  import opened Geometry

  /** A neighbourhood row as `generate_street_lights` receives it: its id, its population
      and its boundary ring. The allocator reads the first two. */
  datatype Region = Region(id: string, population: nat, boundary: Ring)

  /** The only way the allocator can fail: a division or modulo by zero. */
  datatype AllocError = ZeroDivisionError

  predicate DistinctIds(nhs: seq<Region>) {
    forall a, b :: 0 <= a < b < |nhs| ==> nhs[a].id != nhs[b].id
  }

  /** The neighbourhood ids among the first `m` rows. */
  function IdsUpTo(nhs: seq<Region>, m: nat): set<string>
    requires m <= |nhs|
  {
    set k | 0 <= k < m :: nhs[k].id
  }

  function Sum(xs: seq<nat>): nat {
    if xs == [] then 0 else Sum(xs[..|xs| - 1]) + xs[|xs| - 1]
  }

  /** `sum(int(n['population']) for n in neighborhoods)`. */
  function TotalPopulation(nhs: seq<Region>): nat {
    if nhs == [] then 0 else TotalPopulation(nhs[..|nhs| - 1]) + nhs[|nhs| - 1].population
  }

  /** The allocator completes without dividing by zero: either some neighbourhood has
      people, or there is no neighbourhood and nothing to hand out. */
  predicate Allocatable(nhs: seq<Region>, total: nat) {
    TotalPopulation(nhs) > 0 || (nhs == [] && total == 0)
  }

  /** `max(1, int(total * pop / totalPop))`: the floor of the proportional share, and at least one. */
  function InitialCount(total: nat, pop: nat, totalPop: nat): (c: nat)
    requires totalPop > 0
    ensures c >= 1
  {
    var share := total * pop / totalPop;
    if share >= 1 then share else 1
  }

  /** The initial dictionary, as a sequence aligned with the neighbourhoods. */
  function InitialCounts(nhs: seq<Region>, total: nat): (init: seq<nat>)
    requires Allocatable(nhs, total)
    ensures |init| == |nhs|
    ensures forall j :: 0 <= j < |nhs| ==> init[j] >= 1
  {
    if nhs == [] then []
    else seq(|nhs|, j requires 0 <= j < |nhs| => InitialCount(total, nhs[j].population, TotalPopulation(nhs)))
  }

  /** Neighbourhood `a` comes before `b` in `sorted(..., key=population, reverse=True)`:
      a larger population first, and between equal populations the input order, since
      Python's sort is stable also when reversed. */
  predicate Before(nhs: seq<Region>, a: nat, b: nat)
    requires a < |nhs| && b < |nhs|
  {
    nhs[a].population > nhs[b].population || (nhs[a].population == nhs[b].population && a < b)
  }

  /** Insert index `x` into the index sequence `s`, ahead of the first entry it comes before. */
  function Insert(nhs: seq<Region>, x: nat, s: seq<nat>): (r: seq<nat>)
    requires x < |nhs| && forall t :: 0 <= t < |s| ==> s[t] < |nhs|
    ensures |r| == |s| + 1
    ensures forall e :: e in r <==> e in s || e == x
    ensures forall t :: 0 <= t < |r| ==> r[t] < |nhs|
  {
    if s == [] then [x]
    else if Before(nhs, x, s[0]) then [x] + s
    else [s[0]] + Insert(nhs, x, s[1..])
  }

  function SortIndices(nhs: seq<Region>, n: nat): (order: seq<nat>)
    requires n <= |nhs|
    ensures |order| == n
    ensures forall e :: e in order ==> e < n
    ensures forall t :: 0 <= t < n ==> order[t] < n
  {
    if n == 0 then []
    else
      var order := Insert(nhs, n - 1, SortIndices(nhs, n - 1));
      assert forall t :: 0 <= t < n ==> order[t] in order;
      order
  }

  /** The positions of the neighbourhoods in the order the shortfall is handed out. */
  function PopulationOrder(nhs: seq<Region>): (order: seq<nat>)
    ensures |order| == |nhs|
    ensures forall t :: 0 <= t < |order| ==> order[t] < |nhs|
  {
    SortIndices(nhs, |nhs|)
  }

  /** The counts after the first `s` passes of the correction loop, each of which adds one
      light to the neighbourhood at `order[s % len(order)]`. */
  function Distribute(init: seq<nat>, order: seq<nat>, s: nat): (c: seq<nat>)
    requires |order| > 0 && forall t :: 0 <= t < |order| ==> order[t] < |init|
    ensures |c| == |init|
  {
    if s == 0 then init
    else
      var prev := Distribute(init, order, s - 1);
      var j := order[(s - 1) % |order|];
      prev[j := prev[j] + 1]
  }

  /** One more pass of the correction loop adds one light at `order[s % len(order)]`. */
  lemma DistributeStep(init: seq<nat>, order: seq<nat>, s: nat)
    requires |order| > 0 && forall t :: 0 <= t < |order| ==> order[t] < |init|
    ensures var prev := Distribute(init, order, s);
      var j := order[s % |order|];
      Distribute(init, order, s + 1) == prev[j := prev[j] + 1]
  {
  }

  /** How many lights the initial shares fall short of the total. */
  function Shortfall(nhs: seq<Region>, total: nat): nat
    requires Allocatable(nhs, total)
  {
    var current := Sum(InitialCounts(nhs, total));
    if current < total then total - current else 0
  }

  /** The final `lights_per_neighborhood`, aligned with the neighbourhoods. */
  function FinalCounts(nhs: seq<Region>, total: nat): (counts: seq<nat>)
    requires Allocatable(nhs, total)
    ensures |counts| == |nhs|
  {
    var init := InitialCounts(nhs, total);
    if Shortfall(nhs, total) == 0 then init
    else Distribute(init, PopulationOrder(nhs), Shortfall(nhs, total))
  }

  /** The allocation step of `generate_street_lights`: the dictionary from neighbourhood id
      to light count, or the ZeroDivisionError Python raises when every population is zero
      (the share's division) or when there is no neighbourhood but lights to hand out (the
      modulo by the length of the empty sorted list). */
  method AllocateLights(nhs: seq<Region>, total: nat) returns (r: Result<map<string, nat>, AllocError>)
    requires DistinctIds(nhs)
    ensures r.Failure? <==> !Allocatable(nhs, total)
    ensures r.Success? ==>
      && r.value.Keys == IdsUpTo(nhs, |nhs|)
      && forall j :: 0 <= j < |nhs| ==> r.value[nhs[j].id] == FinalCounts(nhs, total)[j]
  {
    var totalPop := TotalPopulation(nhs);
    if totalPop == 0 && |nhs| > 0 {
      return Failure(ZeroDivisionError);
    }
    if |nhs| == 0 && total > 0 {
      return Failure(ZeroDivisionError);
    }
    var counts, current := InitialShares(nhs, total, totalPop);
    if current < total {
      assert |nhs| > 0;
      counts := HandOutShortfall(nhs, total, counts, total - current);
    }
    return Success(counts);
  }

  /** The dictionary comprehension of initial shares, and `sum(...values())` over it. */
  method InitialShares(nhs: seq<Region>, total: nat, totalPop: nat) returns (counts: map<string, nat>, current: nat)
    requires DistinctIds(nhs) && Allocatable(nhs, total) && totalPop == TotalPopulation(nhs)
    ensures counts.Keys == IdsUpTo(nhs, |nhs|)
    ensures forall k :: 0 <= k < |nhs| ==> counts[nhs[k].id] == InitialCounts(nhs, total)[k]
    ensures current == Sum(InitialCounts(nhs, total))
  {
    ghost var init := InitialCounts(nhs, total);
    counts := map[];
    current := 0;
    var j := 0;
    while j < |nhs|
      invariant 0 <= j <= |nhs|
      invariant counts.Keys == IdsUpTo(nhs, j)
      invariant forall k :: 0 <= k < j ==> counts[nhs[k].id] == init[k]
      invariant current == Sum(init[..j])
    {
      var share := InitialCount(total, nhs[j].population, totalPop);
      InitialCountsAt(nhs, total, j);
      TabulateSnoc(nhs, counts, init, j);
      counts := counts[nhs[j].id := share];
      assert init[..j + 1] == init[..j] + [init[j]];
      SumSnoc(init[..j], init[j]);
      current := current + share;
      j := j + 1;
    }
    assert init[..|nhs|] == init;
  }

  /** The correction loop: `shortfall` passes, each adding one light to the next neighbourhood
      of the descending-population order, cycling through it. */
  method HandOutShortfall(nhs: seq<Region>, total: nat, counts0: map<string, nat>, shortfall: nat)
    returns (counts: map<string, nat>)
    requires DistinctIds(nhs) && Allocatable(nhs, total) && |nhs| > 0
    requires shortfall == Shortfall(nhs, total) > 0
    requires counts0.Keys == IdsUpTo(nhs, |nhs|)
    requires forall k :: 0 <= k < |nhs| ==> counts0[nhs[k].id] == InitialCounts(nhs, total)[k]
    ensures counts.Keys == IdsUpTo(nhs, |nhs|)
    ensures forall k :: 0 <= k < |nhs| ==> counts[nhs[k].id] == FinalCounts(nhs, total)[k]
  {
    ghost var init := InitialCounts(nhs, total);
    var order := PopulationOrder(nhs);
    counts := CycleThrough(nhs, order, counts0, init, shortfall);
    assert FinalCounts(nhs, total) == Distribute(init, order, shortfall);
  }

  /** The loop `for i in range(shortfall): lights_per_neighborhood[order[i % len(order)]] += 1`
      on a dictionary that holds the aligned counts `init`. */
  method CycleThrough(nhs: seq<Region>, order: seq<nat>, counts0: map<string, nat>, ghost init: seq<nat>,
                      shortfall: nat) returns (counts: map<string, nat>)
    requires DistinctIds(nhs) && |init| == |nhs| == |order| > 0
    requires forall t :: 0 <= t < |order| ==> order[t] < |nhs|
    requires counts0.Keys == IdsUpTo(nhs, |nhs|)
    requires forall k :: 0 <= k < |nhs| ==> counts0[nhs[k].id] == init[k]
    ensures counts.Keys == IdsUpTo(nhs, |nhs|)
    ensures forall k :: 0 <= k < |nhs| ==> counts[nhs[k].id] == Distribute(init, order, shortfall)[k]
  {
    counts := counts0;
    ghost var cur := init;
    var i := 0;
    while i < shortfall
      invariant 0 <= i <= shortfall
      invariant cur == Distribute(init, order, i)
      invariant counts.Keys == IdsUpTo(nhs, |nhs|)
      invariant forall k :: 0 <= k < |nhs| ==> counts[nhs[k].id] == cur[k]
    {
      var pos := order[i % |order|];
      var id := nhs[pos].id;
      TabulateBump(nhs, counts, cur, pos);
      counts := counts[id := counts[id] + 1];
      DistributeStep(init, order, i);
      cur := cur[pos := cur[pos] + 1];
      i := i + 1;
    }
  }

  lemma InitialCountsAt(nhs: seq<Region>, total: nat, j: nat)
    requires TotalPopulation(nhs) > 0 && j < |nhs|
    ensures InitialCounts(nhs, total)[j] == InitialCount(total, nhs[j].population, TotalPopulation(nhs))
  {
  }

  lemma IdsUpToSnoc(nhs: seq<Region>, j: nat)
    requires j < |nhs|
    ensures IdsUpTo(nhs, j + 1) == IdsUpTo(nhs, j) + {nhs[j].id}
  {
  }

  /** Entering the next neighbourhood's value extends a dictionary that maps the first `j`
      ids to their values, leaving the earlier entries alone because the ids differ. */
  lemma TabulateSnoc(nhs: seq<Region>, counts: map<string, nat>, vals: seq<nat>, j: nat)
    requires DistinctIds(nhs) && j < |nhs| && j < |vals|
    requires counts.Keys == IdsUpTo(nhs, j)
    requires forall k :: 0 <= k < j ==> counts[nhs[k].id] == vals[k]
    ensures var c := counts[nhs[j].id := vals[j]];
      && c.Keys == IdsUpTo(nhs, j + 1)
      && forall k :: 0 <= k < j + 1 ==> c[nhs[k].id] == vals[k]
  {
    IdsUpToSnoc(nhs, j);
    assert forall k :: 0 <= k < j ==> nhs[k].id != nhs[j].id;
  }

  /** Adding one light to neighbourhood `pos` in the dictionary adds it to entry `pos` of the
      aligned counts, and to no other. */
  lemma TabulateBump(nhs: seq<Region>, counts: map<string, nat>, vals: seq<nat>, pos: nat)
    requires DistinctIds(nhs) && pos < |nhs| == |vals|
    requires counts.Keys == IdsUpTo(nhs, |nhs|)
    requires forall k :: 0 <= k < |nhs| ==> counts[nhs[k].id] == vals[k]
    ensures var id := nhs[pos].id;
      var c := counts[id := counts[id] + 1];
      && c.Keys == IdsUpTo(nhs, |nhs|)
      && forall k :: 0 <= k < |nhs| ==> c[nhs[k].id] == vals[pos := vals[pos] + 1][k]
  {
    assert forall k :: 0 <= k < |nhs| && k != pos ==> nhs[k].id != nhs[pos].id;
  }

  // ---------------------------------------------------------------------------------
  // Sums

  lemma {:induction false} SumSnoc(xs: seq<nat>, x: nat)
    ensures Sum(xs + [x]) == Sum(xs) + x
  {
    assert (xs + [x])[..|xs|] == xs;
  }

  /** Changing one entry changes the sum by the difference. */
  lemma {:induction false} SumUpdate(xs: seq<nat>, j: nat, v: nat)
    requires j < |xs|
    ensures Sum(xs[j := v]) + xs[j] == Sum(xs) + v
    decreases |xs|
  {
    var n := |xs| - 1;
    if j < n {
      SumUpdate(xs[..n], j, v);
      assert xs[j := v][..n] == xs[..n][j := v];
    } else {
      assert xs[j := v][..n] == xs[..n];
    }
  }

  // ---------------------------------------------------------------------------------
  // The proportional shares

  /** The population of the first `m` neighbourhoods. */
  lemma {:induction false} TotalPopulationPrefix(nhs: seq<Region>, m: nat)
    requires m < |nhs|
    ensures TotalPopulation(nhs[..m + 1]) == TotalPopulation(nhs[..m]) + nhs[m].population
  {
    assert nhs[..m + 1][..m] == nhs[..m];
  }

  lemma MulAdd(a: nat, b: nat, c: nat)
    ensures a * (b + c) == a * b + a * c
  {
  }

  /** What the floor and the minimum of one give for a single share. */
  lemma ShareBounds(total: nat, pop: nat, totalPop: nat)
    requires totalPop > 0
    ensures var c := InitialCount(total, pop, totalPop);
      && total * pop + 1 <= totalPop * (c + 1)
      && (total * pop >= totalPop ==> totalPop * c <= total * pop)
      && (total * pop < totalPop ==> c == 1)
  {
    var c := InitialCount(total, pop, totalPop);
    var share := total * pop / totalPop;
    var x := total * pop;
    assert share * totalPop <= x < (share + 1) * totalPop;
    if x >= totalPop {
      assert share >= 1;
    } else {
      assert share == 0;
      assert totalPop * (c + 1) == 2 * totalPop;
    }
  }

  /** Summing `total * pop < totalPop * (share + 1)` over the first `m` neighbourhoods. */
  lemma {:induction false} SharesCoverPrefix(nhs: seq<Region>, shares: seq<nat>, total: nat, P: nat, m: nat)
    requires |shares| == |nhs| && m <= |nhs|
    requires forall j :: 0 <= j < |nhs| ==> total * nhs[j].population + 1 <= P * (shares[j] + 1)
    ensures total * TotalPopulation(nhs[..m]) + m <= P * (Sum(shares[..m]) + m)
  {
    if m == 0 {
      assert nhs[..0] == [] && shares[..0] == [];
    } else {
      SharesCoverPrefix(nhs, shares, total, P, m - 1);
      TotalPopulationPrefix(nhs, m - 1);
      assert shares[..m] == shares[..m - 1] + [shares[m - 1]];
      SumSnoc(shares[..m - 1], shares[m - 1]);
      CoverStep(total, P, TotalPopulation(nhs[..m - 1]), nhs[m - 1].population, Sum(shares[..m - 1]), shares[m - 1], m - 1);
    }
  }

  lemma CoverStep(total: nat, P: nat, A: nat, pop: nat, S: nat, c: nat, k: nat)
    requires total * A + k <= P * (S + k)
    requires total * pop + 1 <= P * (c + 1)
    ensures total * (A + pop) + (k + 1) <= P * ((S + c) + (k + 1))
  {
    MulAdd(total, A, pop);
    MulAdd(P, S + k, c + 1);
    assert (S + c) + (k + 1) == (S + k) + (c + 1);
  }

  /** With floor division the initial shares fall short of the total by less than the number
      of neighbourhoods: the correction loop's cyclic index never wraps. */
  lemma ShortfallBelowCount(nhs: seq<Region>, total: nat)
    requires TotalPopulation(nhs) > 0
    ensures Shortfall(nhs, total) < |nhs|
  {
    var P := TotalPopulation(nhs);
    var n := |nhs|;
    var init := InitialCounts(nhs, total);
    var s := Sum(init);
    forall j | 0 <= j < n
      ensures total * nhs[j].population + 1 <= P * (init[j] + 1)
    {
      InitialCountsAt(nhs, total, j);
      ShareBounds(total, nhs[j].population, P);
    }
    SharesCoverPrefix(nhs, init, total, P, n);
    assert nhs[..n] == nhs;
    assert init[..n] == init;
    CoverBound(total, P, s, n);
  }

  lemma CoverBound(total: nat, P: nat, s: nat, n: nat)
    requires total * P + n <= P * (s + n) && n > 0
    ensures total < s + n
  {
    if total >= s + n {
      MulLeft(P, s + n, total);
      assert false;
    }
  }

  lemma MulLeft(p: nat, x: nat, y: nat)
    requires x <= y
    ensures p * x <= p * y
  {
  }

  /** When no share is raised to the minimum of one, the shares never exceed the total, so the
      final counts sum to it exactly. With 50 to 200 thousand inhabitants per neighbourhood and
      at least four lights per neighbourhood this is always the case. */
  lemma ExactWhenNoMinimumApplies(nhs: seq<Region>, total: nat)
    requires TotalPopulation(nhs) > 0
    requires forall j :: 0 <= j < |nhs| ==> total * nhs[j].population >= TotalPopulation(nhs)
    ensures Sum(FinalCounts(nhs, total)) == total
  {
    SharesAtMostTotal(nhs, total);
    FinalSum(nhs, total);
  }

  lemma SharesAtMostTotal(nhs: seq<Region>, total: nat)
    requires TotalPopulation(nhs) > 0
    requires forall j :: 0 <= j < |nhs| ==> total * nhs[j].population >= TotalPopulation(nhs)
    ensures Sum(InitialCounts(nhs, total)) <= total
  {
    var P := TotalPopulation(nhs);
    var init := InitialCounts(nhs, total);
    var s := Sum(init);
    forall j | 0 <= j < |nhs|
      ensures P * init[j] <= total * nhs[j].population
    {
      InitialCountsAt(nhs, total, j);
      ShareBounds(total, nhs[j].population, P);
    }
    SharesWithinTotal(nhs, init, total, P, |nhs|);
    assert nhs[..|nhs|] == nhs;
    assert init[..|nhs|] == init;
    CancelFactor(P, s, total);
  }

  /** Cancelling a positive factor from both sides of an inequality. */
  lemma CancelFactor(p: nat, x: nat, y: nat)
    requires p > 0 && p * x <= y * p
    ensures x <= y
  {
    if x > y {
      MulLeft(p, y + 1, x);
      assert false;
    }
  }

  lemma {:induction false} SharesWithinTotal(nhs: seq<Region>, shares: seq<nat>, total: nat, P: nat, m: nat)
    requires |shares| == |nhs| && m <= |nhs|
    requires forall j :: 0 <= j < |nhs| ==> P * shares[j] <= total * nhs[j].population
    ensures P * Sum(shares[..m]) <= total * TotalPopulation(nhs[..m])
  {
    if m == 0 {
      assert nhs[..0] == [] && shares[..0] == [];
    } else {
      SharesWithinTotal(nhs, shares, total, P, m - 1);
      TotalPopulationPrefix(nhs, m - 1);
      assert shares[..m] == shares[..m - 1] + [shares[m - 1]];
      SumSnoc(shares[..m - 1], shares[m - 1]);
      WithinStep(total, P, TotalPopulation(nhs[..m - 1]), nhs[m - 1].population, Sum(shares[..m - 1]), shares[m - 1]);
    }
  }

  lemma WithinStep(total: nat, P: nat, A: nat, pop: nat, S: nat, c: nat)
    requires P * S <= total * A
    requires P * c <= total * pop
    ensures P * (S + c) <= total * (A + pop)
  {
    MulAdd(total, A, pop);
    MulAdd(P, S, c);
  }

  /** A larger population never gets a smaller initial share. */
  lemma InitialCountMonotone(total: nat, p: nat, q: nat, totalPop: nat)
    requires totalPop > 0 && p >= q
    ensures InitialCount(total, p, totalPop) >= InitialCount(total, q, totalPop)
  {
    MulLeft(total, q, p);
    DivMonotone(total * q, total * p, totalPop);
  }

  lemma DivMonotone(x: nat, y: nat, d: nat)
    requires d > 0 && x <= y
    ensures x / d <= y / d
  {
    if x / d > y / d {
      MulLeft(d, y / d + 1, x / d);
      assert false;
    }
  }

  // ---------------------------------------------------------------------------------
  // The descending-population order

  predicate SortedBy(nhs: seq<Region>, s: seq<nat>)
    requires forall t :: 0 <= t < |s| ==> s[t] < |nhs|
  {
    forall a, b :: 0 <= a < b < |s| ==> Before(nhs, s[a], s[b])
  }

  predicate NoRepeats(s: seq<nat>) {
    forall a, b :: 0 <= a < b < |s| ==> s[a] != s[b]
  }

  lemma BeforeTransitive(nhs: seq<Region>, a: nat, b: nat, c: nat)
    requires a < |nhs| && b < |nhs| && c < |nhs|
    requires Before(nhs, a, b) && Before(nhs, b, c)
    ensures Before(nhs, a, c)
  {
  }

  lemma {:induction false} InsertSorted(nhs: seq<Region>, x: nat, s: seq<nat>)
    requires x < |nhs| && forall t :: 0 <= t < |s| ==> s[t] < |nhs|
    requires SortedBy(nhs, s) && NoRepeats(s) && x !in s
    ensures SortedBy(nhs, Insert(nhs, x, s)) && NoRepeats(Insert(nhs, x, s))
    decreases |s|
  {
    var r := Insert(nhs, x, s);
    if s == [] {
    } else if Before(nhs, x, s[0]) {
      forall a, b | 0 <= a < b < |r|
        ensures Before(nhs, r[a], r[b]) && r[a] != r[b]
      {
        if a == 0 && b > 1 {
          BeforeTransitive(nhs, x, s[0], s[b - 1]);
        }
      }
    } else {
      var rest := Insert(nhs, x, s[1..]);
      InsertSorted(nhs, x, s[1..]);
      assert Before(nhs, s[0], x);
      forall a, b | 0 <= a < b < |r|
        ensures Before(nhs, r[a], r[b]) && r[a] != r[b]
      {
        if a == 0 {
          var e := rest[b - 1];
          assert e in rest;
          if e != x {
            assert e in s[1..];
            var t :| 0 <= t < |s[1..]| && s[1..][t] == e;
            assert s[t + 1] == e;
          }
        }
      }
    }
  }

  lemma {:induction false} SortIndicesSorted(nhs: seq<Region>, n: nat)
    requires n <= |nhs|
    ensures SortedBy(nhs, SortIndices(nhs, n)) && NoRepeats(SortIndices(nhs, n))
  {
    if n > 0 {
      SortIndicesSorted(nhs, n - 1);
      InsertSorted(nhs, n - 1, SortIndices(nhs, n - 1));
    }
  }

  /** `PopulationOrder` is what Python's stable `sorted(..., reverse=True)` returns: every
      neighbourhood exactly once, larger populations first, ties in input order. */
  lemma PopulationOrderSorted(nhs: seq<Region>)
    ensures SortedBy(nhs, PopulationOrder(nhs)) && NoRepeats(PopulationOrder(nhs))
    ensures forall j :: 0 <= j < |nhs| ==> j in PopulationOrder(nhs)
  {
    SortIndicesSorted(nhs, |nhs|);
    SortIndicesCovers(nhs, |nhs|);
  }

  lemma {:induction false} SortIndicesCovers(nhs: seq<Region>, n: nat)
    requires n <= |nhs|
    ensures forall j :: 0 <= j < n ==> j in SortIndices(nhs, n)
  {
    if n > 0 {
      SortIndicesCovers(nhs, n - 1);
    }
  }

  // ---------------------------------------------------------------------------------
  // The correction loop

  /** Handing out `s` lights one per pass, never more than the order is long, gives one
      light to each of the first `s` neighbourhoods of the order and none to the rest. */
  lemma {:induction false} DistributePrefix(init: seq<nat>, order: seq<nat>, s: nat, j: nat)
    requires |order| > 0 && forall t :: 0 <= t < |order| ==> order[t] < |init|
    requires NoRepeats(order) && s <= |order| && j < |init|
    ensures Distribute(init, order, s)[j] == init[j] + (if j in order[..s] then 1 else 0)
  {
    if s > 0 {
      DistributePrefix(init, order, s - 1, j);
      var prev := Distribute(init, order, s - 1);
      ModBelow(s - 1, |order|);
      var k := order[s - 1];
      assert Distribute(init, order, s) == prev[k := prev[k] + 1];
      assert order[..s] == order[..s - 1] + [k];
      if k == j {
        assert j !in order[..s - 1];
      }
    }
  }

  lemma ModBelow(x: nat, n: nat)
    requires x < n
    ensures x % n == x
  {
  }

  /** Each pass of the correction loop adds exactly one light in total. */
  lemma {:induction false} DistributeSum(init: seq<nat>, order: seq<nat>, s: nat)
    requires |order| > 0 && forall t :: 0 <= t < |order| ==> order[t] < |init|
    ensures Sum(Distribute(init, order, s)) == Sum(init) + s
  {
    if s > 0 {
      DistributeSum(init, order, s - 1);
      var prev := Distribute(init, order, s - 1);
      var j := order[(s - 1) % |order|];
      SumUpdate(prev, j, prev[j] + 1);
    }
  }

  /** The final counts add up to the total when the initial shares fall short of it, and to
      the initial shares' sum, unchanged, when they already reach or exceed it. */
  lemma FinalSum(nhs: seq<Region>, total: nat)
    requires Allocatable(nhs, total)
    ensures Sum(FinalCounts(nhs, total)) == if Sum(InitialCounts(nhs, total)) < total then total
                                            else Sum(InitialCounts(nhs, total))
    ensures Sum(InitialCounts(nhs, total)) >= total ==> FinalCounts(nhs, total) == InitialCounts(nhs, total)
  {
    if Shortfall(nhs, total) > 0 {
      DistributeSum(InitialCounts(nhs, total), PopulationOrder(nhs), Shortfall(nhs, total));
    }
  }

  /** Every neighbourhood ends with its initial share plus at most one light, and the extra
      lights go to a prefix of the descending-population order. */
  lemma FinalCountsPrefix(nhs: seq<Region>, total: nat, j: nat)
    requires Allocatable(nhs, total) && j < |nhs|
    ensures Shortfall(nhs, total) < |nhs|
    ensures var order := PopulationOrder(nhs);
      FinalCounts(nhs, total)[j]
        == InitialCounts(nhs, total)[j] + (if j in order[..Shortfall(nhs, total)] then 1 else 0)
  {
    var order := PopulationOrder(nhs);
    var s := Shortfall(nhs, total);
    ShortfallBelowCount(nhs, total);
    if s > 0 {
      PopulationOrderSorted(nhs);
      DistributePrefix(InitialCounts(nhs, total), order, s, j);
    }
  }

  /** A neighbourhood that comes earlier in the descending-population order receives an extra
      light whenever a later one does. */
  lemma LargerServedFirst(nhs: seq<Region>, total: nat, a: nat, b: nat)
    requires Allocatable(nhs, total) && a < |nhs| && b < |nhs| && Before(nhs, a, b)
    requires FinalCounts(nhs, total)[b] > InitialCounts(nhs, total)[b]
    ensures FinalCounts(nhs, total)[a] > InitialCounts(nhs, total)[a]
  {
    var order := PopulationOrder(nhs);
    var s := Shortfall(nhs, total);
    FinalCountsPrefix(nhs, total, a);
    FinalCountsPrefix(nhs, total, b);
    PopulationOrderSorted(nhs);
    assert b in order[..s];
    var pb :| 0 <= pb < s && order[pb] == b;
    assert a in order;
    var pa :| 0 <= pa < |order| && order[pa] == a;
    if pa > pb {
      assert Before(nhs, b, a);
    }
    assert a in order[..s];
  }

  /** A neighbourhood with more inhabitants never ends with fewer lights. */
  lemma FinalCountsMonotone(nhs: seq<Region>, total: nat, a: nat, b: nat)
    requires Allocatable(nhs, total) && a < |nhs| && b < |nhs|
    requires nhs[a].population > nhs[b].population
    ensures FinalCounts(nhs, total)[a] >= FinalCounts(nhs, total)[b]
  {
    var init := InitialCounts(nhs, total);
    var final := FinalCounts(nhs, total);
    InitialCountMonotone(total, nhs[a].population, nhs[b].population, TotalPopulation(nhs));
    FinalCountsPrefix(nhs, total, a);
    FinalCountsPrefix(nhs, total, b);
    if init[a] == init[b] && final[b] > init[b] {
      LargerServedFirst(nhs, total, a, b);
    }
  }

  /** The correction never removes lights: two neighbourhoods of one inhabitant each and a
      total of one light end with two lights, one more than the total. */
  lemma OvershootExample()
    ensures var nhs := [Region("NH-001", 1, []), Region("NH-002", 1, [])];
      Sum(FinalCounts(nhs, 1)) == 2
  {
    var nhs := [Region("NH-001", 1, []), Region("NH-002", 1, [])];
    assert TotalPopulation(nhs) == 2 by {
      assert nhs[..1] == [Region("NH-001", 1, [])];
      assert nhs[..1][..0] == [];
    }
    var init := InitialCounts(nhs, 1);
    assert init == [1, 1];
    assert Sum(init) == 2 by {
      assert init[..1] == [1];
      assert [1][..0] == [];
      assert Sum([1]) == 1;
    }
    FinalSum(nhs, 1);
  }
}
