/** What several modules share: an optional value, saturating 32-bit counters
    and the larger of two numbers. */
module Common {
  datatype Option<+T> = None | Some(value: T)

  const U32_MAX: nat := 0xFFFF_FFFF

  type U32 = n: nat | n <= U32_MAX

  /** One more, never past the largest. */
  function SaturatingIncrement(n: U32): U32 {
    if n == U32_MAX then n else n + 1
  }

  function Max(a: real, b: real): (m: real)
    ensures m >= a && m >= b && (m == a || m == b)
  {
    if a >= b then a else b
  }

  function Saturate(n: nat): (s: U32)
    ensures s <= n
  {
    if n <= U32_MAX then n else U32_MAX
  }
}
