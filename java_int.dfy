/** Java's 32-bit `int`: its range, the wrap-around of `-` and the unsigned shift `>>>`. */
module JavaInt {

  const Modulus: int := 0x1_0000_0000

  /** A Java `int`. */
  newtype int32 = x: int | Fits(x)

  /** True if the mathematical value `x` is representable as a Java `int`. */
  predicate Fits(x: int) {
    -0x8000_0000 <= x < 0x8000_0000
  }

  /** The Java `int` that `x` becomes when a computation overflows: the unique
      representable value congruent to `x` modulo 2^32. */
  function Wrap(x: int): (r: int32)
    ensures (r as int - x) % Modulus == 0
    ensures Fits(x) ==> r as int == x
  {
    var m := x % Modulus;
    if m < 0x8000_0000 then m as int32 else (m - Modulus) as int32
  }

  /** Java's `a - b` on two `int`s. */
  function Sub(a: int32, b: int32): (r: int32)
    ensures Fits(a as int - b as int) ==> r as int == a as int - b as int
    ensures (r as int - (a as int - b as int)) % Modulus == 0
  {
    Wrap(a as int - b as int)
  }

  /** Java's `x >>> 24`: the top byte of the 32-bit two's-complement pattern of `x`. */
  function UnsignedShiftRight24(x: int32): (r: int)
    ensures 0 <= r < 256
    ensures x >= 0 ==> r < 128
  {
    assert Fits(x as int);
    (x as int % Modulus) / 0x100_0000
  }
}
