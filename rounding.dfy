/** Python's `round` on an exact quotient: to the nearest integer, halves to even. */
module Rounding {

  function Abs(x: int): int { if x < 0 then -x else x }

  /** The integer nearest to n / d, ties going to the even neighbour. */
  function RoundDiv(n: int, d: int): (r: int)
    requires d > 0
    ensures 2 * Abs(r * d - n) <= d
    ensures 2 * Abs(r * d - n) == d ==> r % 2 == 0
  {
    var q := n / d;
    var rem := n % d;
    assert n == q * d + rem && 0 <= rem < d;
    if 2 * rem < d then q
    else if 2 * rem > d then
      assert (q + 1) * d - n == d - rem;
      q + 1
    else if q % 2 == 0 then q
    else
      assert (q + 1) * d - n == d - rem;
      q + 1
  }

  lemma MulLe(a: int, b: int, d: int)
    requires a <= b && d >= 0
    ensures a * d <= b * d
  {
  }

  /** Floor division keeps order. */
  lemma DivMonotone(n: int, n': int, d: int)
    requires d > 0 && n <= n'
    ensures n / d <= n' / d
  {
    var q, q' := n / d, n' / d;
    assert n == q * d + n % d && n' == q' * d + n' % d;
    assert (q' - q) * d == q' * d - q * d;
    assert (q' - q) * d > -d;
    if q' - q <= -1 {
      MulLe(q' - q, -1, d);
    }
  }

  /** Rounding keeps order: a larger amount never rounds to less. */
  lemma RoundDivMonotone(n: int, n': int, d: int)
    requires d > 0 && n <= n'
    ensures RoundDiv(n, d) <= RoundDiv(n', d)
  {
    DivMonotone(n, n', d);
    var q, q' := n / d, n' / d;
    if q == q' {
      assert n == q * d + n % d && n' == q' * d + n' % d;
      assert n % d <= n' % d;
    }
  }

  lemma MulInUnit(a: int, d: int)
    requires d > 0 && 0 <= a * d < d
    ensures a == 0
  {
    if a >= 1 {
      MulLe(1, a, d);
    } else if a <= -1 {
      MulLe(a, -1, d);
    }
  }

  /** An exact quotient is returned unchanged. */
  lemma RoundDivExact(k: int, d: int)
    requires d > 0
    ensures RoundDiv(k * d, d) == k
  {
    var n := k * d;
    var q, rem := n / d, n % d;
    assert n == q * d + rem;
    assert (k - q) * d == k * d - q * d;
    MulInUnit(k - q, d);
  }
}
