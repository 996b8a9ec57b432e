/** Java's fixed-width integer types and the one piece of `long` arithmetic the sender does. */
module JavaTypes {

  const LONG_MODULUS: int := 0x1_0000_0000_0000_0000

  /** Java `int`. */
  newtype int32 = x: int | -0x8000_0000 <= x < 0x8000_0000

  /** Java `long`. */
  newtype int64 = x: int | -0x8000_0000_0000_0000 <= x < 0x8000_0000_0000_0000

  /** True when `x` fits in a Java `long`. */
  predicate InLongRange(x: int) {
    -0x8000_0000_0000_0000 <= x < 0x8000_0000_0000_0000
  }

  /**
   * Java's `a - b` on `long`: the mathematical difference, wrapped into 64 bits
   * (two's complement). It agrees with the true difference whenever that fits.
   */
  function LongSub(a: int64, b: int64): (r: int64)
    ensures InLongRange(a as int - b as int) ==> r as int == a as int - b as int
    ensures (a as int - b as int - r as int) % LONG_MODULUS == 0
  {
    var d := (a as int - b as int) % LONG_MODULUS;
    if d < 0x8000_0000_0000_0000 then d as int64 else (d - LONG_MODULUS) as int64
  }

  /** Wall-clock readings (non-negative milliseconds) never make the subtraction wrap. */
  lemma ClockDifferenceExact(now: int64, last: int64)
    requires 0 <= last && 0 <= now
    ensures LongSub(now, last) as int == now as int - last as int
  {
  }
}
