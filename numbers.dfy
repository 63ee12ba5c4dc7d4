/**
 * Numeric helpers of the ledger: clamping, and the rounding applied to
 * serving quantities (one decimal place) and to displayed calories (whole
 * units). Quantities are exact reals; the floating-point nudge the source
 * adds before rounding is not modelled.
 */
module Numbers {

  /** `Math.min(hi, Math.max(lo, v))`. */
  function Clamp(v: real, lo: real, hi: real): (r: real)
    ensures lo <= hi ==> lo <= r <= hi
    ensures lo <= v <= hi ==> r == v
    ensures lo <= hi && v < lo ==> r == lo
    ensures v > hi ==> r == hi
  {
    var atLeastLo := if v > lo then v else lo;
    if atLeastLo < hi then atLeastLo else hi
  }

  /** The larger of two reals (`Math.max`). */
  function Max(a: real, b: real): (r: real)
    ensures r >= a && r >= b && (r == a || r == b)
  {
    if a >= b then a else b
  }

  /** `Math.round(n)`: the nearest integer, halves rounded up. */
  function Round0(n: real): (r: int)
    ensures n - 0.5 < r as real <= n + 0.5
  {
    (n + 0.5).Floor
  }

  /** `Math.round(n * 10) / 10`: `n` rounded to one decimal place. */
  function Round1(n: real): (r: real)
    ensures n - 0.05 < r <= n + 0.05
    ensures (10.0 * r).Floor as real == 10.0 * r
    ensures 0.0 <= n ==> 0.0 <= r
  {
    (Round0(10.0 * n) as real) / 10.0
  }

  /** Rounding a value that already has one decimal place leaves it alone. */
  lemma Round1Idempotent(n: real)
    ensures Round1(Round1(n)) == Round1(n)
  {
    var k := Round0(10.0 * n);
    assert 10.0 * Round1(n) == k as real;
    assert (k as real + 0.5).Floor == k;
  }

  /** Half of a non-negative quantity, rounded, lies between 0 and the quantity. */
  lemma HalfRoundedWithin(p: real)
    requires 0.0 <= p
    ensures 0.0 <= Round1(p * 0.5) <= p
  {
    if p < 0.1 {
      assert 0.5 <= 10.0 * (p * 0.5) + 0.5 < 1.0;
      assert Round0(10.0 * (p * 0.5)) == 0;
    }
  }
}
