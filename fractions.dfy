/**
 * Exact capacities: non-negative fractions numer/denom, as the graph stores
 * them, with the value comparison and the doubling the splitter encoder uses.
 */
module Fractions {

  datatype Frac = Frac(numer: nat, denom: nat)

  /** A fraction with a non-zero denominator. */
  type Fraction = f: Frac | 0 < f.denom witness Frac(0, 1)

  /** The largest value of a 32-bit signed integer. */
  const I32_MAX: nat := 0x7fff_ffff

  /** The rational number a fraction stands for. */
  function Value(f: Fraction): real
  {
    f.numer as real / f.denom as real
  }

  /** Numerator and denominator are both representable as 32-bit signed integers. */
  predicate FitsI32(f: Fraction)
  {
    f.numer <= I32_MAX && f.denom <= I32_MAX
  }

  /** `a <= b` on fractions, decided by cross-multiplication. */
  function LessEq(a: Fraction, b: Fraction): (r: bool)
    ensures r <==> Value(a) <= Value(b)
  {
    var lhs, rhs := a.numer * b.denom, b.numer * a.denom;
    var da, db := a.denom as real, b.denom as real;
    assert Value(a) == (lhs as real) / (da * db) by {
      assert (lhs as real) == (a.numer as real) * db;
    }
    assert Value(b) == (rhs as real) / (da * db) by {
      assert (rhs as real) == (b.numer as real) * da;
    }
    lhs <= rhs
  }

  /**
   * The product `f * 2`. For a fraction in lowest terms (as the fraction
   * library keeps them) this is again in lowest terms: an even denominator is
   * halved, otherwise the numerator is doubled.
   */
  function Double(f: Fraction): (r: Fraction)
    ensures Value(r) == 2.0 * Value(f)
  {
    if f.denom % 2 == 0 then
      var h := f.denom / 2;
      assert f.denom as real == 2.0 * h as real;
      Frac(f.numer, h)
    else
      Frac(2 * f.numer, f.denom)
  }
}
