/** Arithmetic shared by the counter, the alarm and the timer: 32-bit wrap-around and
    how quotient and remainder move when a count goes up by one. */
module Clocks {

  /** The range of the unsigned 32-bit tick values of the timing classes. */
  const RANGE := 0x1_0000_0000

  function Wrap(x: int): (r: nat)
    ensures r < RANGE
    ensures 0 <= x < RANGE ==> r == x
    ensures -RANGE <= x < 0 ==> r == x + RANGE
    ensures RANGE <= x < 2 * RANGE ==> r == x - RANGE
  {
    x % RANGE
  }

  lemma DivModUnique(x: int, m: int, q: int, r: int)
    requires 0 < m && 0 <= r < m && x == q * m + r
    ensures x / m == q && x % m == r
  {
    var d := x / m - q;
    assert d * m == r - x % m by { assert x == (x / m) * m + x % m; }
    MulFar(d, m);
  }

  lemma MulFar(d: int, m: int)
    requires 0 < m
    ensures d >= 1 ==> d * m >= m
    ensures d <= -1 ==> d * m <= -m
  {}

  /** One more tick: the remainder goes up, or wraps and the quotient goes up. */
  lemma OneMore(n: nat, m: nat)
    requires 0 < m
    ensures (n + 1) % m == if n % m + 1 == m then 0 else n % m + 1
    ensures (n + 1) / m == if n % m + 1 == m then n / m + 1 else n / m
  {
    assert n == (n / m) * m + n % m;
    if n % m + 1 == m {
      assert n + 1 == (n / m + 1) * m + 0;
      DivModUnique(n + 1, m, n / m + 1, 0);
    } else {
      DivModUnique(n + 1, m, n / m, n % m + 1);
    }
  }

  lemma Small(n: nat, m: nat)
    requires n < m
    ensures n % m == n && n / m == 0
  {}
}
