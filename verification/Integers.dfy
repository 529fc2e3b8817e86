/** Machine integers of the Rust sources, written out.
    The on-chain programs are built with `overflow-checks = true` (contracts/Cargo.toml), so plain
    `+ - *` on i64/u64 abort the transaction on overflow, while `as` casts truncate silently. */
module Integers {
  const I64_MAX := 0x7FFF_FFFF_FFFF_FFFF
  const U64_MAX := 0xFFFF_FFFF_FFFF_FFFF
  const U128_MAX := 0xFFFF_FFFF_FFFF_FFFF_FFFF_FFFF_FFFF_FFFF

  type i64 = x: int | -I64_MAX - 1 <= x <= I64_MAX
  type u64 = x: int | 0 <= x <= U64_MAX

  /** Unix times a validator clock can report; sums of a time and a schedule stay far inside i64. */
  type Time = t: int | 0 <= t < 0x4000_0000_0000_0000

  datatype Option<+T> = None | Some(value: T)
  datatype Result<+T, +E> = Ok(value: T) | Err(error: E)

  /** `x as u32`, `x as u64`, `x as u128`: keep the low bits of the two's complement form. */
  function AsU32(x: int): (r: int) ensures 0 <= r < 0x1_0000_0000 { Truncate(x, 0x1_0000_0000) }
  function AsU64(x: int): (r: int) ensures 0 <= r <= U64_MAX { Truncate(x, U64_MAX + 1) }
  function AsU128(x: int): (r: int) ensures 0 <= r <= U128_MAX { Truncate(x, U128_MAX + 1) }

  /** The remainder of `x` modulo `n`, without division: casts that do not bite cost no proof. */
  function Truncate(x: int, n: nat): (r: int)
    requires n > 0
    ensures 0 <= r < n
    decreases if x < 0 then -x else x, x < 0
  {
    if x + n < 0 then Truncate(x + n, n) else if x < 0 then x + n
    else if x < n then x else Truncate(x - n, n)
  }

  lemma {:induction false} TruncateIsMod(x: int, n: nat)
    requires n > 0
    ensures Truncate(x, n) == x % n
    decreases if x < 0 then -x else x, x < 0
  {
    if x + n < 0 {
      TruncateIsMod(x + n, n);
      RemainderShifts(x, n);
    } else if x < 0 {
      RemainderIsUnique(x, n, -1, x + n);
    } else if x < n {
      RemainderIsUnique(x, n, 0, x);
    } else {
      TruncateIsMod(x - n, n);
      RemainderShifts(x - n, n);
    }
  }

  lemma RemainderShifts(x: int, n: nat)
    requires n > 0
    ensures (x + n) % n == x % n
  {
    RemainderIsUnique(x + n, n, x / n + 1, x % n);
  }

  lemma RemainderIsUnique(x: int, n: nat, q: int, r: nat)
    requires x == q * n + r && r < n
    ensures x % n == r
  {
    var d := x / n - q;
    assert d * n == (x / n) * n - q * n == r - x % n;
    if d > 0 { ProductAtLeast(d, n); }
    if d < 0 { ProductAtLeast(-d, n); }
  }

  lemma ProductAtLeast(d: nat, n: nat)
    requires d > 0
    ensures d * n >= n
  {
    if d > 1 { ProductAtLeast(d - 1, n); assert d * n == (d - 1) * n + n; }
  }

  function Min(a: int, b: int): int { if a <= b then a else b }
  function Max(a: int, b: int): int { if a >= b then a else b }

  /** `saturating_add` and `saturating_mul` on u128. */
  function SatAdd128(a: nat, b: nat): (r: nat) ensures r <= U128_MAX { Min(a + b, U128_MAX) }
  function SatMul128(a: nat, b: nat): (r: nat) ensures r <= U128_MAX { Min(a * b, U128_MAX) }
}
