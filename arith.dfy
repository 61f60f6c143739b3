/**
 Small facts about real multiplication and division that the circularity and
 aspect-ratio proofs use. Each is stated over plain parameters so that the
 solver reasons about each product as one term.
 */
module RealArith {

  lemma PositiveProduct(a: real, b: real)
    requires a > 0.0 && b > 0.0
    ensures a * b > 0.0
  {
  }

  lemma Quotient(a: real, q: real)
    requires q > 0.0
    ensures (a / q) * q == a
    ensures a >= 0.0 ==> a / q >= 0.0
  {
  }

  /** Dividing by a positive square: the sign is kept and the product undoes it. */
  lemma QuotientBySquare(a: real, p: real)
    requires p > 0.0
    ensures p * p > 0.0
    ensures (a / (p * p)) * (p * p) == a
    ensures a >= 0.0 ==> a / (p * p) >= 0.0
  {
    var q :| q == p * p && q > 0.0 by {
      PositiveProduct(p, p);
    }
    Quotient(a, q);
  }

  lemma QuotientBounds(a: real, q: real, k: real)
    requires q > 0.0
    ensures k <= a / q <==> k * q <= a
    ensures a / q <= k <==> a <= k * q
  {
  }

  lemma UnitRatio(m: real, a: real, q: real)
    requires m > 0.0 && q > 0.0 && q == m * a
    ensures m * (a / q) == 1.0
  {
  }

  /** A common positive factor cancels from a quotient. */
  lemma CancelFactor(a: real, q: real, k: real)
    requires q > 0.0 && k > 0.0
    ensures (k * a) / (k * q) == a / q
  {
  }
}
