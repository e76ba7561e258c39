/** Java `int` arithmetic: 32-bit two's complement with silent wrap-around. */
module Int32 {

  const MIN: int := -0x8000_0000
  const MAX: int := 0x7FFF_FFFF
  const MODULUS: int := 0x1_0000_0000

  newtype int32 = x: int | -0x8000_0000 <= x < 0x8000_0000

  /** The 32-bit value congruent to `x` modulo 2^32. */
  function Wrap(x: int): (r: int32)
    ensures MIN <= x <= MAX ==> r as int == x
    ensures (r as int - x) % MODULUS == 0
  {
    ((x - MIN) % MODULUS + MIN) as int32
  }

  /** Java's `a + b` on two ints. */
  function Add(a: int32, b: int32): (r: int32)
    ensures MIN <= a as int + b as int <= MAX ==> r as int == a as int + b as int
    ensures (r as int - (a as int + b as int)) % MODULUS == 0
  {
    Wrap(a as int + b as int)
  }

  /** Java's `a - b` on two ints. */
  function Sub(a: int32, b: int32): (r: int32)
    ensures MIN <= a as int - b as int <= MAX ==> r as int == a as int - b as int
    ensures (r as int - (a as int - b as int)) % MODULUS == 0
  {
    Wrap(a as int - b as int)
  }
}
