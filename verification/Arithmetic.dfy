/** Facts about products and integer quotients. */
module Arithmetic {
  function Min(a: int, b: int): int {
    if a < b then a else b
  }

  function Max(a: int, b: int): int {
    if a < b then b else a
  }

  lemma MulMono(a: int, b: int, c: nat)
    requires a <= b
    ensures a * c <= b * c
  {
    assert (b - a) * c >= 0;
  }

  lemma MulBelow(a: int, b: int, c: nat)
    requires a * c < b * c
    ensures a < b
  {
    assert a >= b ==> a * c >= b * c by {
      if a >= b { MulMono(b, a, c); }
    }
  }

  lemma DivBounds(a: int, n: int)
    requires n > 0
    ensures a / n * n <= a < (a / n + 1) * n
  {
    assert a == n * (a / n) + a % n;
  }

  /** The quotient is the only number whose multiple lies just below. */
  lemma QuotientIs(a: int, n: int, q: int)
    requires n > 0 && q * n <= a < (q + 1) * n
    ensures a / n == q
  {
    DivBounds(a, n);
    MulBelow(q, a / n + 1, n);
    MulBelow(a / n, q + 1, n);
  }

  lemma DivAtLeast(a: int, n: int, q: int)
    requires n > 0 && q * n <= a
    ensures a / n >= q
  {
    DivBounds(a, n);
    MulBelow(q, a / n + 1, n);
  }

  lemma DivLess(a: int, n: int, q: int)
    requires n > 0 && a < q * n
    ensures a / n < q
  {
    DivBounds(a, n);
    MulBelow(a / n, q, n);
  }
}
