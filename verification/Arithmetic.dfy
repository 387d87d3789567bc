/** Division facts shared by the modules that compute with blocks, windows and intervals. */
module Arithmetic {

  function Power10(k: nat): (p: nat)
    ensures p >= 1
  {
    if k == 0 then 1 else 10 * Power10(k - 1)
  }

  lemma MultipleBound(x: int, m: int)
    requires m > 0
    ensures x >= 1 ==> x * m >= m
    ensures x <= -1 ==> x * m <= -m
  {
  }

  /** Quotient and remainder are the only way to write a number as q * m + r with 0 <= r < m. */
  lemma DivModUnique(q: int, r: int, m: int)
    requires 0 <= r < m
    ensures (q * m + r) / m == q && (q * m + r) % m == r
  {
    var n := q * m + r;
    var x := n / m - q;
    assert n == n / m * m + n % m;
    assert x * m == r - n % m by {
      assert x * m == n / m * m - q * m;
    }
    MultipleBound(x, m);
  }

  lemma ModAddMultiple(n: int, k: int, m: int)
    requires m > 0
    ensures (n + k * m) % m == n % m
  {
    var q, r := n / m, n % m;
    assert n == q * m + r;
    assert n + k * m == (q + k) * m + r;
    DivModUnique(q + k, r, m);
  }

  /** Reducing one summand first does not change the remainder. */
  lemma ModAdd(a: int, b: int, m: int)
    requires m > 0
    ensures (a % m + b) % m == (a + b) % m
  {
    var q := a / m;
    assert a == q * m + a % m;
    ModAddMultiple(a % m + b, q, m);
  }

  /** Adding back what was subtracted before reducing. */
  lemma ModReturns(a: int, b: int, m: int)
    requires 0 <= a + b < m
    ensures (b + a % m) % m == a + b
  {
    var q := a / m;
    assert a == q * m + a % m;
    assert b + a % m == -q * m + (a + b);
    DivModUnique(-q, a + b, m);
  }

  /** Numbers less than m apart have different remainders. */
  lemma ModDistinct(a: int, d: int, m: int)
    requires 0 < d < m
    ensures (a + d) % m != a % m
  {
    var q, r := a / m, a % m;
    assert a == q * m + r;
    if r + d < m {
      assert a + d == q * m + (r + d);
      DivModUnique(q, r + d, m);
    } else {
      assert a + d == (q + 1) * m + (r + d - m);
      DivModUnique(q + 1, r + d - m, m);
    }
  }
}
