/**
 * The capacity conversion as the source writes it: numerator and
 * denominator are cast from u128 to i32 with `as`, which keeps the low 32
 * bits and reads them as a two's-complement number.
 */
module I32Cast {
  import opened Wrappers
  import opened Fractions

  const TWO_32: int := 0x1_0000_0000

  /** Rust's `x as i32` for an unsigned `x`. */
  function AsI32(x: nat): (r: int)
    ensures -0x8000_0000 <= r <= 0x7fff_ffff
    ensures (x - r) % TWO_32 == 0
    ensures x <= I32_MAX ==> r == x
  {
    var low := x % TWO_32;
    if low < 0x8000_0000 then low else low - TWO_32
  }

  /**
   * The number the converted capacity denotes as written; none when the cast
   * denominator is 0, which the solver rejects.
   */
  function AsWrittenDenotation(f: Fraction): Option<real>
  {
    var num, den := AsI32(f.numer), AsI32(f.denom);
    if den == 0 then None else Some(num as real / den as real)
  }

  /** Where numerator and denominator fit, the cast changes nothing. */
  lemma CastAgreesWhenFits(f: Fraction)
    requires FitsI32(f)
    ensures AsWrittenDenotation(f) == Some(Value(f))
  {
  }

  /** A capacity of 2^31 becomes the constant -2^31. */
  lemma TruncationFlipsSign()
    ensures Value(Frac(0x8000_0000, 1)) == 2147483648.0
    ensures AsWrittenDenotation(Frac(0x8000_0000, 1)) == Some(-2147483648.0)
  {
  }

  /** A denominator of 2^32 becomes 0, and the conversion fails. */
  lemma TruncationZeroesDenominator()
    ensures AsWrittenDenotation(Frac(1, TWO_32)) == None
  {
  }
}
