/** Facts about Euclidean division used by the modular-arithmetic models. */
module Arithmetic {

  /** A quotient and an in-range remainder determine `%`. */
  lemma ModUnique(x: int, d: int, s: int, m: int)
    requires m > 0 && 0 <= s < m && x == d * m + s
    ensures x % m == s
  {
    var e := x / m - d;
    assert e * m == s - x % m by {
      assert x == (x / m) * m + x % m;
      assert e * m == (x / m) * m - d * m;
    }
  }

  /** The remainder of a successor: it steps by one and wraps from m - 1 to 0. */
  lemma ModSucc(x: int, m: int)
    requires m > 0
    ensures (x + 1) % m == if x % m == m - 1 then 0 else x % m + 1
  {
    var q, r := x / m, x % m;
    assert x == q * m + r;
    if r == m - 1 {
      ModUnique(x + 1, q + 1, 0, m);
    } else {
      ModUnique(x + 1, q, r + 1, m);
    }
  }

  /** The remainder of a sum depends only on the remainder of its first term. */
  lemma ModOfSum(a: int, b: int, m: int)
    requires m > 0
    ensures (a % m + b) % m == (a + b) % m
  {
    var r := a % m + b;
    assert a == (a / m) * m + a % m;
    assert r == (r / m) * m + r % m;
    ModUnique(a + b, a / m + r / m, r % m, m);
  }

  /** A multiple j * n with j >= 1 is at least n; with j <= -1 at most -n. */
  lemma MultipleBounds(j: int, n: int)
    requires n >= 0
    ensures j >= 1 ==> j * n >= n
    ensures j <= -1 ==> j * n <= -n
  {
    if j >= 1 {
      assert j * n == (j - 1) * n + n;
    } else if j <= -1 {
      assert j * n == (j + 1) * n - n;
    }
  }

  /** Scaling a positive real by a factor in [0, 1) makes it strictly smaller. */
  lemma ScaledBelow(u: real, d: real)
    requires 0.0 <= u < 1.0 && d > 0.0
    ensures 0.0 <= u * d < d
  {
    assert d - u * d == (1.0 - u) * d;
  }
}
