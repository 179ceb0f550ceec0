/** Facts about products and quotients that the solver is given once. */
module Arithmetic {

  lemma CancelLess(a: int, b: int, k: nat)
    requires k > 0
    ensures a < b <==> a * k < b * k
  {
    var d := b - a;
    assert b * k - a * k == d * k;
    assert d > 0 <==> d * k > 0;
  }

  lemma QuotientFacts(p: nat, words: nat)
    requires words > 0
    ensures p / words * words <= p < (p / words + 1) * words
  {
  }

  lemma QuotientUnique(i: nat, j: nat, n: nat)
    requires j < n
    ensures (i * n + j) / n == i && (i * n + j) % n == j
  {
    var k := i * n + j;
    var q := k / n;
    QuotientFacts(k, n);
    assert (i + 1) * n == i * n + n;
    CancelLess(i, q + 1, n);
    CancelLess(q, i + 1, n);
    assert q == i;
    assert k == q * n + k % n;
  }

  lemma CancelDivisor(x: real, y: real, n: real)
    requires n > 0.0 && x * n <= y * n
    ensures x <= y
  {
  }

  lemma PositiveProduct(x: real, y: real)
    requires x > 0.0 && y > 0.0
    ensures x * y > 0.0
  {
  }
}
