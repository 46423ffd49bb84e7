/** Go's 64-bit signed integers, used for Unix times and token lifetimes. */
module GoInt {

  const MinInt64: int := -0x8000_0000_0000_0000
  const MaxInt64: int := 0x7FFF_FFFF_FFFF_FFFF
  const Modulus: int := 0x1_0000_0000_0000_0000

  type Int64 = x: int | MinInt64 <= x <= MaxInt64

  /** Go's `a + b` on int64 operands: the exact sum reduced to the int64
      range, wrapping around on overflow. */
  function AddInt64(a: Int64, b: Int64): (r: Int64)
    ensures MinInt64 <= a + b <= MaxInt64 ==> r == a + b
    ensures (r - (a + b)) % Modulus == 0
    ensures a + b > MaxInt64 ==> r == a + b - Modulus
    ensures a + b < MinInt64 ==> r == a + b + Modulus
  {
    var s := (a + b - MinInt64) % Modulus + MinInt64;
    s
  }
}
