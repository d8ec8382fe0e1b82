/** Go's integer division and remainder for a positive divisor, and the
    facts about them that index arithmetic needs. */
module GoInt {

  /** Go's `a / b` for a positive divisor: the quotient is truncated toward
      zero, whereas Dafny's `/` rounds toward negative infinity. */
  function GoDiv(a: int, b: int): (q: int)
    requires b > 0
    ensures 0 <= a ==> 0 <= a - b * q < b
    ensures a < 0 ==> -b < a - b * q <= 0
  {
    if 0 <= a then a / b else -((-a) / b)
  }

  /** Go's `a % b` for a positive divisor: the remainder takes the sign of `a`. */
  function GoRem(a: int, b: int): (m: int)
    requires b > 0
    ensures 0 <= a ==> 0 <= m < b && m == a % b
    ensures a < 0 ==> -b < m <= 0 && m == -((-a) % b)
  {
    a - b * GoDiv(a, b)
  }

  lemma {:induction false} MulAtLeast(d: int, n: int)
    requires d >= 1 && n > 0
    ensures d * n >= n
  {
    if d > 1 {
      MulAtLeast(d - 1, n);
      assert d * n == (d - 1) * n + n;
    }
  }

  /** Quotient and remainder are determined by x == q * n + r with 0 <= r < n. */
  lemma DivModUnique(x: int, n: int, q: int, r: int)
    requires n > 0 && 0 <= r < n && x == q * n + r
    ensures x % n == r && x / n == q
  {
    var q', r' := x / n, x % n;
    var d := q - q';
    assert d * n == q * n - q' * n;
    if d >= 1 {
      MulAtLeast(d, n);
    } else if d <= -1 {
      MulAtLeast(-d, n);
    }
  }

  /** Stepping a reduced index by one and reducing again is reducing the step. */
  lemma ModStep(a: int, n: int)
    requires 0 <= a && n > 0
    ensures (a % n + 1) % n == (a + 1) % n
  {
    var q, r := a / n, a % n;
    if r + 1 < n {
      DivModUnique(a + 1, n, q, r + 1);
      DivModUnique(r + 1, n, 0, r + 1);
    } else {
      DivModUnique(a + 1, n, q + 1, 0);
      DivModUnique(r + 1, n, 1, 0);
    }
  }

  /** Go's remainder of an index plus one within [0, n): wrap at n. */
  lemma RemSucc(a: int, n: int)
    requires 0 <= a < n
    ensures GoRem(a + 1, n) == if a + 1 == n then 0 else a + 1
  {
    if a + 1 == n {
      DivModUnique(a + 1, n, 1, 0);
    } else {
      DivModUnique(a + 1, n, 0, a + 1);
    }
  }

  /** Go's remainder of an index minus one, for 1 <= a <= n: a - 1. */
  lemma RemPred(a: int, n: int)
    requires 0 < a <= n
    ensures GoRem(a - 1, n) == a - 1
  {
    DivModUnique(a - 1, n, 0, a - 1);
  }
}
