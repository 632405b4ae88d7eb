// Products of reals behind a name. The solver compares named products by congruence and
// learns their order only from the lemmas below, which keeps every proof about money linear.

module Algebra {
  function Times(a: real, b: real): real {
    a * b
  }

  lemma TimesPositive(a: real, b: real)
    requires 0.0 < a && 0.0 < b
    ensures 0.0 < Times(a, b)
  {
  }

  lemma TimesNonNegative(a: real, b: real)
    requires 0.0 <= a && 0.0 <= b
    ensures 0.0 <= Times(a, b)
  {
    if 0.0 < a && 0.0 < b { TimesPositive(a, b); }
  }

  /** Scaling by a positive factor keeps the order of two numbers, strict order included. */
  lemma TimesOrder(a: real, b: real, c: real)
    requires 0.0 < c
    ensures a <= b <==> Times(a, c) <= Times(b, c)
    ensures a < b <==> Times(a, c) < Times(b, c)
  {
    if a < b { assert 0.0 < (b - a) * c; }
    if b < a { assert 0.0 < (a - b) * c; }
  }

  lemma TimesMonotone(a: real, b: real, c: real)
    requires 0.0 <= c && a <= b
    ensures Times(a, c) <= Times(b, c)
  {
    if 0.0 < c { TimesOrder(a, b, c); }
  }

  lemma TimesSum(a: real, b: real, c: real)
    ensures Times(a + b, c) == Times(a, c) + Times(b, c)
    ensures Times(c, a + b) == Times(c, a) + Times(c, b)
  {
  }

  lemma TimesDifference(a: real, b: real, c: real)
    ensures Times(a - b, c) == Times(a, c) - Times(b, c)
    ensures Times(c, a - b) == Times(c, a) - Times(c, b)
  {
  }

  lemma TimesCommutes(a: real, b: real)
    ensures Times(a, b) == Times(b, a)
  {
  }

  lemma TimesTwice(a: real, b: real)
    ensures Times(a, 2.0 * b) == 2.0 * Times(a, b)
  {
  }

  lemma TimesAssociates(a: real, b: real, c: real)
    ensures Times(Times(a, b), c) == Times(a, Times(b, c))
  {
  }

  lemma Quotient(a: real, c: real)
    requires c != 0.0
    ensures Times(a / c, c) == a
  {
  }

  /** Comparing a quotient is comparing a product. */
  lemma QuotientOrder(a: real, b: real, c: real)
    requires 0.0 < c
    ensures a / c <= b <==> a <= Times(b, c)
    ensures b <= a / c <==> Times(b, c) <= a
  {
    Quotient(a, c);
    TimesOrder(a / c, b, c);
    TimesOrder(b, a / c, c);
  }
}

/** The same for natural numbers. */
module NatAlgebra {
  function Mul(a: nat, b: nat): nat {
    a * b
  }

  lemma MulCommutes(a: nat, b: nat)
    ensures Mul(a, b) == Mul(b, a)
  {
  }

  lemma MulAssociates(a: nat, b: nat, c: nat)
    ensures Mul(Mul(a, b), c) == Mul(a, Mul(b, c))
  {
  }

  lemma MulSum(a: nat, b: nat, c: nat)
    ensures Mul(a + b, c) == Mul(a, c) + Mul(b, c)
  {
  }

  lemma MulTen(a: nat, b: nat)
    ensures Mul(10 * a, b) == Mul(a, 10 * b) == 10 * Mul(a, b)
  {
  }

  /** The last two factors may change places. */
  lemma MulSwap(a: nat, b: nat, c: nat)
    ensures Mul(Mul(a, b), c) == Mul(Mul(a, c), b)
  {
    MulAssociates(a, b, c);
    MulAssociates(a, c, b);
    MulCommutes(b, c);
  }

  lemma MulOrder(a: nat, b: nat, c: nat)
    requires 0 < c
    ensures a <= b <==> Mul(a, c) <= Mul(b, c)
    ensures a < b <==> Mul(a, c) < Mul(b, c)
  {
    if a < b { MulSum(a, b - a, c); }
    if b < a { MulSum(b, a - b, c); }
  }
}
