/** Go's 64-bit signed integers and their two's-complement wrap-around. */
module GoInt {
  const Two63: int := 0x8000_0000_0000_0000
  const Two64: int := 0x1_0000_0000_0000_0000

  newtype int64 = x: int | -0x8000_0000_0000_0000 <= x < 0x8000_0000_0000_0000

  const MinInt64: int64 := -0x8000_0000_0000_0000
  const MaxInt64: int64 := 0x7FFF_FFFF_FFFF_FFFF

  /** The int64 that Go's arithmetic yields for the mathematical value x. */
  function Wrap(x: int): (r: int64)
    ensures -Two63 <= x < Two63 ==> r as int == x
    ensures Two63 <= x < Two63 + Two64 ==> r as int == x - Two64
    ensures -Two63 - Two64 <= x < -Two63 ==> r as int == x + Two64
  {
    ((x + Two63) % Two64 - Two63) as int64
  }

  /** Go's `a - b` on int64. */
  function Sub(a: int64, b: int64): (r: int64)
    ensures -Two63 <= a as int - b as int < Two63 ==> r as int == a as int - b as int
    ensures a as int - b as int >= Two63 ==> r as int == a as int - b as int - Two64
    ensures a as int - b as int < -Two63 ==> r as int == a as int - b as int + Two64
  {
    Wrap(a as int - b as int)
  }

  /** Go's `a + b` on int64. */
  function Add(a: int64, b: int64): (r: int64)
    ensures -Two63 <= a as int + b as int < Two63 ==> r as int == a as int + b as int
    ensures a as int + b as int >= Two63 ==> r as int == a as int + b as int - Two64
    ensures a as int + b as int < -Two63 ==> r as int == a as int + b as int + Two64
  {
    Wrap(a as int + b as int)
  }
}
