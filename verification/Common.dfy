/** Fixed-width integers, options and the few facts about finite maps that every other module needs. */
module Common {

  datatype Option<+T> = None | Some(value: T)

  const MAX_UINT64: int := 0xFFFF_FFFF_FFFF_FFFF
  const MAX_INT64: int := 0x7FFF_FFFF_FFFF_FFFF

  type uint8 = n: int | 0 <= n < 256
  type uint32 = n: int | 0 <= n < 0x1_0000_0000
  type uint64 = n: int | 0 <= n <= 0xFFFF_FFFF_FFFF_FFFF
  type int64 = n: int | -0x8000_0000_0000_0000 <= n <= 0x7FFF_FFFF_FFFF_FFFF

  /** 64-bit addition that reports overflow instead of wrapping. */
  function SafeAdd(a: uint64, b: uint64): (r: Option<uint64>)
    ensures r.None? <==> a + b > MAX_UINT64
    ensures r.Some? ==> r.value == a + b
  {
    if MAX_UINT64 - a < b then None else Some(a + b)
  }

  /** Two's complement reading of an integer modulo 2^64, as 64-bit signed arithmetic leaves it. */
  function Wrap64(n: int): (r: int64)
    ensures -0x8000_0000_0000_0000 <= n <= MAX_INT64 ==> r == n
  {
    var m := n % 0x1_0000_0000_0000_0000;
    if m <= MAX_INT64 then m else m - 0x1_0000_0000_0000_0000
  }

  function Min(a: int, b: int): int {
    if a <= b then a else b
  }

  function Max(a: int, b: int): int {
    if a >= b then a else b
  }

  function Pow2(n: nat): nat {
    if n == 0 then 1 else 2 * Pow2(n - 1)
  }

  lemma {:induction false} Pow2Positive(n: nat)
    ensures Pow2(n) >= 1
  {
    if n > 0 {
      Pow2Positive(n - 1);
    }
  }

  /** Division rounding toward zero, the quotient of Go's big.Int.Quo. */
  function Quo(a: int, b: int): int
    requires b > 0
  {
    if a >= 0 then a / b else -((-a) / b)
  }
}
