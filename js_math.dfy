/**
 * The JavaScript `Math` functions the planner uses, over exact reals.
 * IEEE-754 binary rounding is not modelled.
 */
module JsMath {
  import opened Wrappers

  /**
   * `parseFloat(text) || 0`: the parsed number, with `NaN` (`None`, text that does not parse)
   * and `0` both falling back to `0`. Negative numbers pass through unchanged.
   */
  function ParsedOrZero(parsed: Option<real>): (r: real)
    ensures r == 0.0 <==> parsed.None? || parsed.value == 0.0
    ensures r != 0.0 ==> parsed == Some(r)
  {
    match parsed
    case None => 0.0
    case Some(x) => x
  }

  /** `Math.round`: the nearest integer, halves rounded up (towards +infinity). */
  function Round(x: real): (r: int)
    ensures r as real - 0.5 <= x < r as real + 0.5
  {
    (x + 0.5).Floor
  }

  /** `Math.round(x * 10) / 10`: rounding to one decimal place. */
  function Round1(x: real): (r: real)
    ensures x - 0.05 < r <= x + 0.05
    ensures r * 10.0 == (r * 10.0).Floor as real
  {
    var tenths := Round(x * 10.0);
    assert (tenths as real / 10.0) * 10.0 == tenths as real;
    tenths as real / 10.0
  }

  /** `Math.ceil`: the least integer not below `x`. */
  function Ceil(x: real): (r: int)
    ensures x <= r as real < x + 1.0
  {
    -((-x).Floor)
  }

  /** `Math.min` on two integers. */
  function Min(a: int, b: int): (r: int)
    ensures r <= a && r <= b && (r == a || r == b)
  {
    if a <= b then a else b
  }

  /** `Math.max` on two reals. */
  function MaxReal(a: real, b: real): (r: real)
    ensures a <= r && b <= r && (r == a || r == b)
  {
    if a <= b then b else a
  }

  /** Rounding an integral value gives it back. */
  lemma RoundOfInteger(k: int)
    ensures Round(k as real) == k
  {
  }

  /** Rounding to one decimal gives back a value that already has one decimal. */
  lemma Round1OfTenths(k: int)
    ensures Round1(k as real / 10.0) == k as real / 10.0
  {
    assert (k as real / 10.0) * 10.0 == k as real;
    RoundOfInteger(k);
  }

  /** Rounding is monotone. */
  lemma RoundMonotone(x: real, y: real)
    requires x <= y
    ensures Round(x) <= Round(y)
  {
  }

  /** Rounding to one decimal is monotone. */
  lemma Round1Monotone(x: real, y: real)
    requires x <= y
    ensures Round1(x) <= Round1(y)
  {
    RoundMonotone(x * 10.0, y * 10.0);
  }

  /** Multiplying by a positive factor keeps `<=`. */
  lemma MulMonotone(x: real, y: real, p: real)
    requires x <= y && p > 0.0
    ensures x * p <= y * p
  {
    assert y * p - x * p == (y - x) * p;
  }

  /** Multiplying by a positive factor keeps `<`. */
  lemma MulStrict(x: real, y: real, p: real)
    requires x < y && p > 0.0
    ensures x * p < y * p
  {
    assert y * p - x * p == (y - x) * p;
  }
}
