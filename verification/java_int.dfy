/** Java's fixed-width integers: `int` (32 bits) and `long` (64 bits), with the
    two's-complement wrap-around of `int` addition and subtraction. */
module JavaInt {

  const MinInt32: int := -0x8000_0000
  const MaxInt32: int := 0x7fff_ffff
  const Modulus32: int := 0x1_0000_0000

  type int32 = x: int | -0x8000_0000 <= x < 0x8000_0000
  type int64 = x: int | -0x8000_0000_0000_0000 <= x < 0x8000_0000_0000_0000

  /** The 32-bit value Java keeps of an exact integer result. */
  function WrapInt32(x: int): (r: int32)
    ensures r % Modulus32 == x % Modulus32
    ensures MinInt32 <= x <= MaxInt32 ==> r == x
  {
    (x + 0x8000_0000) % 0x1_0000_0000 - 0x8000_0000
  }

  /** Java `a + b` on two `int`s. */
  function AddInt32(a: int32, b: int32): (r: int32)
    ensures MinInt32 <= a + b <= MaxInt32 ==> r == a + b
    ensures a + b > MaxInt32 ==> r == a + b - Modulus32
    ensures a + b < MinInt32 ==> r == a + b + Modulus32
  {
    WrapInt32(a + b)
  }

  /** Java `a - b` on two `int`s. */
  function SubInt32(a: int32, b: int32): (r: int32)
    ensures MinInt32 <= a - b <= MaxInt32 ==> r == a - b
    ensures a - b > MaxInt32 ==> r == a - b - Modulus32
    ensures a - b < MinInt32 ==> r == a - b + Modulus32
  {
    WrapInt32(a - b)
  }
}
