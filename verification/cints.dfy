/**
 * The C integer widths the layouter relies on: entity ids are `uint64_t`,
 * the scanner reads an `int`, and `next_id++` wraps around at 2^64.
 */
module CInts {

  const INT_MIN: int := -0x8000_0000
  const INT_MAX: int := 0x7FFF_FFFF

  /** 2^64, one past the largest `uint64_t`. */
  const U64_LIMIT: int := 0x1_0000_0000_0000_0000

  /** 2^63: `uint64_t` values from here on print as negative numbers under `%ld`. */
  const I64_LIMIT: int := 0x8000_0000_0000_0000

  type U64 = x: int | 0 <= x < 0x1_0000_0000_0000_0000

  predicate FitsInt(v: int) {
    INT_MIN <= v <= INT_MAX
  }

  /** The implicit conversion of an `int` to `uint64_t` (modulo 2^64). */
  function IntToU64(v: int): (u: U64)
    requires FitsInt(v)
    ensures (u - v) % U64_LIMIT == 0
  {
    if v < 0 then v + U64_LIMIT else v
  }

  /** `x++` on a `uint64_t`. */
  function Inc(x: U64): (y: U64)
    ensures x + 1 < U64_LIMIT ==> y == x + 1
    ensures x + 1 == U64_LIMIT ==> y == 0
  {
    (x + 1) % U64_LIMIT
  }

  /** `k` increments of a `uint64_t`, wrapping around at 2^64. */
  function AddU64(x: U64, k: nat): U64 {
    (x + k) % U64_LIMIT
  }

  /** One more increment after `k` of them is `k + 1` of them. */
  lemma IncAddU64(x: U64, k: nat)
    ensures Inc(AddU64(x, k)) == AddU64(x, k + 1)
  {
  }

  lemma AddU64One(x: U64)
    ensures AddU64(x, 1) == Inc(x)
  {
  }

  lemma AddU64Add(x: U64, j: nat, k: nat)
    ensures AddU64(AddU64(x, j), k) == AddU64(x, j + k)
  {
  }
}
