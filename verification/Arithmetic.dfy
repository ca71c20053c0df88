/** The few facts about quotients and remainders that the solver does not find alone. */
module Arithmetic {

  lemma AtLeastOnce(a: int, b: int)
    requires a >= 1 && b >= 0
    ensures a * b >= b
  {
    assert a * b == (a - 1) * b + b;
    assert (a - 1) * b >= 0;
  }

  /** Quotient and remainder are determined by x == q * d + r with 0 <= r < d. */
  lemma QuotientUnique(x: int, d: int, q: int, r: int)
    requires d > 0 && 0 <= r < d && x == q * d + r
    ensures x / d == q && x % d == r
  {
    var p, s := x / d, x % d;
    assert x == p * d + s;
    assert (q - p) * d == s - r;
    assert (p - q) * d == r - s;
    if q > p {
      AtLeastOnce(q - p, d);
    } else if p > q {
      AtLeastOnce(p - q, d);
    }
  }

  // ----- Row-major positions -----

  /** Row-major position of (i, j) in rows of n. */
  function Flat(i: nat, j: nat, n: nat): nat {
    i * n + j
  }

  lemma FlatSplits(i: nat, j: nat, n: nat)
    requires j < n
    ensures Flat(i, j, n) / n == i && Flat(i, j, n) % n == j
  {
    QuotientUnique(Flat(i, j, n), n, i, j);
  }

  lemma FlatBelow(i: nat, j: nat, m: nat, n: nat)
    requires i < m && j < n
    ensures Flat(i, j, n) < m * n
  {
    assert (m - i - 1) * n >= 0;
  }

  lemma QuotientBelow(p: nat, m: nat, n: nat)
    requires n > 0 && p < m * n
    ensures p / n < m && p % n < n && Flat(p / n, p % n, n) == p
  {
    var q := p / n;
    assert p == q * n + p % n;
    assert q >= m ==> (q - m) * n >= 0;
  }

  lemma SplitFlat(p: nat, m: nat, n: nat) returns (i: nat, j: nat)
    requires n > 0 && p < m * n
    ensures i < m && j < n && i * n + j == p
  {
    QuotientBelow(p, m, n);
    i, j := p / n, p % n;
  }
}
