/** Order facts about quotients of reals. */
module Quotients {

  lemma QuotientsInOrder(a: real, b: real, f: real)
    requires f > 0.0 && a <= b
    ensures a / f <= b / f
  {
    assert (b / f - a / f) * f == b - a;
  }

  lemma QuotientBelow(n: real, f: real, p: real)
    requires f > 0.0 && n <= p * f
    ensures n / f <= p
  {
    assert (p - n / f) * f >= 0.0;
  }

  lemma QuotientAbove(n: real, f: real, p: real)
    requires f > 0.0 && p * f <= n
    ensures p <= n / f
  {
    assert (n / f - p) * f >= 0.0;
  }
}
