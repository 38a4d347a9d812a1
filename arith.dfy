/** Facts about `%` on naturals shared by the carousel's and the gallery's wrap-around steps. */
module Modular {

  /** Counting up by one modulo `m` wraps from `m - 1` to 0. */
  lemma ModSuccessor(a: nat, m: nat)
    requires m > 0
    ensures (a + 1) % m == if a % m == m - 1 then 0 else a % m + 1
  {
    var q, p := a / m, a % m;
    assert a == q * m + p;
    if p == m - 1 {
      assert a + 1 == (q + 1) * m + 0;
      ModOfSum(a + 1, q + 1, m, 0);
    } else {
      assert a + 1 == q * m + (p + 1);
      ModOfSum(a + 1, q, m, p + 1);
    }
  }

  /** The remainder of `q * m + r` is `r` when `0 <= r < m`. */
  lemma ModOfSum(x: nat, q: nat, m: nat, r: nat)
    requires m > 0 && r < m && x == q * m + r
    ensures x % m == r
  {
    var q', r' := x / m, x % m;
    assert x == q' * m + r';
    assert (q - q') * m == r' - r;
    if q > q' {
      MulAtLeast(q - q', m);
    } else if q < q' {
      MulAtLeast(q' - q, m);
    }
  }

  lemma MulAtLeast(k: int, m: nat)
    requires k >= 1
    ensures k * m >= m
  {
  }
}
