/** Rust's fixed-width integers as ranges of `int`, with the wrap-around of a release build. */
module Ints {
  const U64: int := 0x1_0000_0000_0000_0000
  const I64_HALF: int := 0x8000_0000_0000_0000
  const U128: int := 0x1_0000_0000_0000_0000_0000_0000_0000_0000

  type u8 = x: int | 0 <= x < 0x100
  type u64 = x: int | 0 <= x < 0x1_0000_0000_0000_0000
  type i64 = x: int | -0x8000_0000_0000_0000 <= x < 0x8000_0000_0000_0000
  type i128 = x: int | -0x8000_0000_0000_0000_0000_0000_0000_0000 <= x < 0x8000_0000_0000_0000_0000_0000_0000_0000
  type u128 = x: int | 0 <= x < 0x1_0000_0000_0000_0000_0000_0000_0000_0000

  // The number that the 32 bytes of a hash spell, so that comparing bytes is comparing numbers.
  type Hash = nat

  const U64_MAX: u64 := 0xFFFF_FFFF_FFFF_FFFF

  function Min(a: int, b: int): int {
    if a <= b then a else b
  }

  function Max(a: int, b: int): int {
    if a <= b then b else a
  }

  // `saturating_add` on u64.
  function SatAdd(a: u64, b: nat): (r: u64)
    ensures a <= r <= a + b
  {
    if a + b > U64_MAX then U64_MAX else a + b
  }

  // `x as i64` for any integer x: two's complement.
  function WrapI64(x: int): (r: i64)
    ensures -I64_HALF <= x < I64_HALF ==> r == x
  {
    var m := x % U64;
    if m >= I64_HALF then m - U64 else m
  }

  function WrapI128(x: int): (r: i128) {
    var m := x % U128;
    if m >= U128 / 2 then m - U128 else m
  }

  // `x as u64` (and, on 64-bit targets, `x as usize`).
  function WrapU64(x: int): (r: u64)
    ensures 0 <= x < U64 ==> r == x
    ensures -U64 <= x < 0 ==> r == x + U64
  {
    x % U64
  }

  // `/` and `%` on Rust's signed integers truncate toward zero.
  function TruncDiv(a: int, b: int): (q: int)
    requires b != 0
  {
    if (a >= 0) == (b > 0) then Abs(a) / Abs(b) else -(Abs(a) / Abs(b))
  }

  function TruncMod(a: int, b: int): (r: int)
    requires b != 0
  {
    if a >= 0 then Abs(a) % Abs(b) else -(Abs(a) % Abs(b))
  }

  function Abs(a: int): (r: int)
    ensures r >= 0
  {
    if a < 0 then -a else a
  }

  function Pow2(n: nat): (p: nat)
    ensures p >= 1
    ensures n > 0 ==> p % 2 == 0
  {
    if n == 0 then 1 else 2 * Pow2(n - 1)
  }
}
