/** Facts about integer multiplication and truncating division that the
    percentage computations rest on. */
module Arith {

  lemma MulMonotone(a: int, b: int, c: int)
    requires a <= b && 0 <= c
    ensures a * c <= b * c
  {
    assert b * c - a * c == (b - a) * c;
  }

  lemma MulCancel(a: int, b: int, c: int)
    requires 0 < c && a * c <= b * c
    ensures a <= b
  {
    if a > b {
      MulMonotone(b + 1, a, c);
    }
  }

  /** Euclidean division by a positive divisor is floor division. */
  lemma DivBracket(n: int, d: int)
    requires 0 < d
    ensures (n / d) * d <= n < (n / d + 1) * d
  {
    assert n == (n / d) * d + n % d;
    assert (n / d + 1) * d == (n / d) * d + d;
  }

  lemma DivAtMostDividend(n: nat, d: int)
    requires 0 < d
    ensures 0 <= n / d <= n
  {
    DivBracket(n, d);
    if n / d < 0 {
      MulMonotone(n / d + 1, 0, d);
    }
    MulMonotone(1, d, n / d);
  }

  /** Truncating division by a fixed positive divisor never decreases. */
  lemma DivMonotone(m: int, n: int, d: int)
    requires m <= n && 0 < d
    ensures m / d <= n / d
  {
    DivBracket(m, d);
    DivBracket(n, d);
    if m / d > n / d {
      MulMonotone(n / d + 1, m / d, d);
    }
  }
}
