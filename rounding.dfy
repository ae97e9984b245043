/** `Math.round` applied to a quotient of integers. */
module Rounding {

  /** `Math.round(a / b)`: the integer nearest to a/b, halves rounded up (towards +infinity). */
  function RoundDiv(a: int, b: int): (r: int)
    requires b > 0
    ensures 2 * b * r - b <= 2 * a < 2 * b * r + b
  {
    var r := (2 * a + b) / (2 * b);
    assert 2 * b * r <= 2 * a + b < 2 * b * r + 2 * b;
    r
  }

  /** Rounding a quotient that lies between two integers gives a value between them. */
  lemma RoundDivBounds(a: int, b: int, lo: int, hi: int)
    requires b > 0 && lo * b <= a <= hi * b
    ensures lo <= RoundDiv(a, b) <= hi
  {
    var r := RoundDiv(a, b);
    assert 2 * b * lo < 2 * b * (r + 1);
    CancelLess(2 * b, lo, r + 1);
    assert 2 * b * (r - 1) < 2 * b * hi;
    CancelLess(2 * b, r - 1, hi);
  }

  lemma CancelLess(k: int, x: int, y: int)
    requires k > 0 && k * x < k * y
    ensures x < y
  {
    MulMonoImplies(k, y, x);
  }

  lemma MulMonoImplies(k: int, x: int, y: int)
    requires k > 0
    ensures x <= y ==> k * x <= k * y
  {
  }
}
