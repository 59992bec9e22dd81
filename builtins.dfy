/** Python built-ins and `random` draws used by the data generators, stated over
    exact integers and reals.

    Every random draw is an input of the model:
    - `random.random()` and the fraction behind `random.uniform(a, b)` are a real `u`
      in [0, 1] (a "unit draw"); `uniform(a, b)` is then `a + (b - a) * u`, which is
      how CPython computes it;
    - `random.randint(a, b)` and `random.choice(xs)` are driven by an arbitrary `pick: nat`
      reduced into the range, so every admissible value is reachable and no other is. */
module Builtins {

  datatype Option<+T> = None | Some(value: T)

  datatype Result<+T, +E> = Success(value: T) | Failure(error: E)

  function Min(a: real, b: real): (r: real)
    ensures r <= a && r <= b && (r == a || r == b)
  {
    if a <= b then a else b
  }

  function Max(a: real, b: real): (r: real)
    ensures r >= a && r >= b && (r == a || r == b)
  {
    if a >= b then a else b
  }

  /** `max(lo, min(hi, x))`: the clamp both geometry generators apply to coordinates. */
  function Clamp(lo: real, hi: real, x: real): (r: real)
    requires lo <= hi
    ensures lo <= r <= hi
    ensures lo <= x <= hi ==> r == x
    ensures x < lo ==> r == lo
    ensures x > hi ==> r == hi
  {
    Max(lo, Min(hi, x))
  }

  /** Python's `int(x)` on a float: truncation toward zero. */
  function Trunc(x: real): (r: int)
    ensures 0.0 <= x ==> 0 <= r && r as real <= x < r as real + 1.0
    ensures x < 0.0 ==> r <= 0 && r as real - 1.0 < x <= r as real
  {
    if x >= 0.0 then x.Floor else -((-x).Floor)
  }

  /** `round(x, 2)`, to the nearest hundredth with ties rounded up. */
  function Round2(x: real): (r: real)
    ensures x - 0.005 < r <= x + 0.005
    ensures IsHundredth(r)
  {
    (x * 100.0 + 0.5).Floor as real / 100.0
  }

  /** `x` is a whole number of hundredths. */
  ghost predicate IsHundredth(x: real) {
    (x * 100.0).Floor as real == x * 100.0
  }

  /** Rounding to hundredths never reverses the order of two values. */
  lemma Round2Monotone(x: real, y: real)
    requires x <= y
    ensures Round2(x) <= Round2(y)
  {
    assert (x * 100.0 + 0.5).Floor <= (y * 100.0 + 0.5).Floor;
  }

  /** A value that already is a whole number of hundredths is left unchanged. */
  lemma Round2Fixes(h: int)
    ensures Round2(h as real / 100.0) == h as real / 100.0
  {
    var x := h as real / 100.0;
    assert x * 100.0 + 0.5 == h as real + 0.5;
    assert (h as real + 0.5).Floor == h;
  }

  /** A bound that is a whole number of hundredths survives rounding. */
  lemma Round2Between(lo: int, hi: int, x: real)
    requires lo as real / 100.0 <= x <= hi as real / 100.0
    ensures lo as real / 100.0 <= Round2(x) <= hi as real / 100.0
  {
    Round2Monotone(lo as real / 100.0, x);
    Round2Monotone(x, hi as real / 100.0);
    Round2Fixes(lo);
    Round2Fixes(hi);
  }

  /** A draw of `random.random()`: a real in the unit interval. */
  predicate Unit(u: real) {
    0.0 <= u <= 1.0
  }

  /** `random.uniform(a, b)` for the unit draw `u`. */
  function Uniform(a: real, b: real, u: real): (r: real)
    requires a <= b && Unit(u)
    ensures a <= r <= b
  {
    assert 0.0 <= (b - a) * u by { MulNonNegative(b - a, u); }
    assert 0.0 <= (b - a) * (1.0 - u) by { MulNonNegative(b - a, 1.0 - u); }
    a + (b - a) * u
  }

  /** Every value of [a, b] is some draw of `random.uniform(a, b)`. */
  lemma UniformOnto(a: real, b: real, v: real)
    requires a < b && a <= v <= b
    ensures Unit((v - a) / (b - a)) && Uniform(a, b, (v - a) / (b - a)) == v
  {
    var u := (v - a) / (b - a);
    assert u * (b - a) == v - a;
    MulNonNegative(v - a, 1.0 / (b - a));
    assert u == (v - a) * (1.0 / (b - a));
    MulNonNegative(b - v, 1.0 / (b - a));
    assert 1.0 - u == (b - v) * (1.0 / (b - a));
  }

  /** The product of two non-negative reals is non-negative. */
  lemma MulNonNegative(x: real, y: real)
    requires 0.0 <= x && 0.0 <= y
    ensures 0.0 <= x * y
  {
  }

  /** `random.randint(a, b)` for the draw `pick`. */
  function RandInt(a: int, b: int, pick: nat): (r: int)
    requires a <= b
    ensures a <= r <= b
  {
    a + pick % (b - a + 1)
  }

  /** Every value of [a, b] is some draw of `random.randint(a, b)`. */
  lemma RandIntOnto(a: int, b: int, v: int)
    requires a <= v <= b
    ensures RandInt(a, b, v - a) == v
  {
  }

  /** `random.choice(xs)` for the draw `pick`. */
  function Choice<T>(xs: seq<T>, pick: nat): (r: T)
    requires |xs| > 0
    ensures r in xs
  {
    xs[pick % |xs|]
  }
}
