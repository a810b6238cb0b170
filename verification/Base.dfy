/** Machine integers, keys and results shared by the models of the three programs. */
module Base {

  const U8_MAX := 0xFF
  const U16_MAX := 0xFFFF
  const U32_MAX := 0xFFFF_FFFF
  const U64_MAX := 0xFFFF_FFFF_FFFF_FFFF
  const U128_MAX := 0xFFFF_FFFF_FFFF_FFFF_FFFF_FFFF_FFFF_FFFF
  const I64_MAX := 0x7FFF_FFFF_FFFF_FFFF

  type u8 = x: int | 0 <= x <= U8_MAX
  type u16 = x: int | 0 <= x <= U16_MAX
  type u32 = x: int | 0 <= x <= U32_MAX
  type u64 = x: int | 0 <= x <= U64_MAX
  type u128 = x: int | 0 <= x <= U128_MAX
  type i64 = x: int | -I64_MAX - 1 <= x <= I64_MAX

  /** Account addresses. Only identity matters, plus the all-zero address. */
  type Pubkey = nat
  const DEFAULT_KEY: Pubkey := 0

  const SECONDS_PER_DAY := 86_400

  datatype Option<+T> = None | Some(value: T)

  datatype Result<+T, +E> = Ok(value: T) | Err(error: E)

  datatype Outcome<+E> = Pass | Fail(error: E)

  /** An instruction that ran to `spec`: on success its new state is written back,
      on failure the runtime discards every write and reports the error. */
  predicate Commits<S(==), E(==)>(spec: Result<S, E>, before: S, after: S, out: Outcome<E>) {
    match spec
    case Ok(s) => out == Pass && after == s
    case Err(e) => out == Fail(e) && after == before
  }

  /** The state after an attempted instruction. */
  function After<S, E>(s: S, r: Result<S, E>): S {
    if r.Ok? then r.value else s
  }

  function Min(a: int, b: int): int {
    if a <= b then a else b
  }

  function Max(a: int, b: int): int {
    if a <= b then b else a
  }

  function SatAdd16(a: u16, b: u16): u16 {
    Min(a + b, U16_MAX)
  }

  function SatAdd32(a: u32, b: u32): u32 {
    Min(a + b, U32_MAX)
  }

  function SatAdd64(a: u64, b: u64): u64 {
    Min(a + b, U64_MAX)
  }

  /** What `checked_add` on i64 accepts. */
  predicate FitsI64(x: int) {
    -I64_MAX - 1 <= x <= I64_MAX
  }

  function SatSub(a: nat, b: nat): nat {
    if a <= b then 0 else a - b
  }

  /** `u32::try_from(now / SECONDS_PER_DAY)`: the quotient truncates toward zero. */
  function UnixDay(now: i64): Option<u32> {
    var t: int := now;
    var q := if t >= 0 then t / SECONDS_PER_DAY else -(-t / SECONDS_PER_DAY);
    if 0 <= q <= U32_MAX then Some(q) else None
  }

  /** Days follow the clock. */
  lemma DaysAdvance(a: i64, b: i64)
    requires 0 <= a <= b && UnixDay(b).Some?
    ensures UnixDay(a).Some? && UnixDay(a).value <= UnixDay(b).value
  {
  }
}
