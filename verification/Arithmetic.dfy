/** Products of integers, kept apart from the proofs that use them. */
module Arithmetic {

  lemma MulMono(a: int, b: int, n: int)
    requires a <= b && n >= 0
    ensures a * n <= b * n
  {
  }

  lemma OneMore(x: int, n: int)
    ensures x * (n + 1) == x * n + x
  {
  }

  lemma Nonnegative(a: int, b: int)
    requires a >= 0 && b >= 0
    ensures a * b >= 0
  {
  }

  /** Dividing the limit is a guard for the product that forms no product. */
  lemma DivIsTimes(a: int, n: int, limit: int)
    requires n > 0
    ensures a <= limit / n <==> a * n <= limit
  {
    var q := limit / n;
    assert q * n <= limit < (q + 1) * n;
    if a <= q { MulMono(a, q, n); } else { MulMono(q + 1, a, n); }
  }
}
