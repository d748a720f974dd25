/** Division and multiplication facts the solver does not find by itself. */
module Arithmetic {

  lemma Multiples(d: int, n: nat)
    ensures d >= 1 ==> d * n >= n
    ensures d <= -1 ==> d * n + n <= 0
  {
  }

  lemma Distribute(a: int, b: int, c: int)
    ensures (a + b) * c == a * c + b * c
  {
  }

  /** Quotient and remainder are unique. */
  lemma Quotient(x: int, n: nat, q: int, r: int)
    requires n > 0 && x == q * n + r && 0 <= r < n
    ensures x / n == q && x % n == r
  {
    var p := x / n;
    assert x == p * n + x % n;
    assert (p - q) * n == p * n - q * n;
    Multiples(p - q, n);
  }

  lemma AddMultiple(x: int, n: nat, k: int)
    requires n > 0
    ensures (x + k * n) % n == x % n
  {
    var q := x / n;
    assert x == q * n + x % n;
    Distribute(q, k, n);
    Quotient(x + k * n, n, q + k, x % n);
  }
}
