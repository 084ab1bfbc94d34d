/** Small types shared by every component. */
module Prelude {

  datatype Option<+T> = None | Some(value: T)

  datatype Result<+T, +E> = Ok(value: T) | Err(error: E)

  datatype Unit = Unit

  /** Unsigned 64-bit machine integers. */
  const U64_SIZE: int := 0x1_0000_0000_0000_0000

  type u64 = x: int | 0 <= x < 0x1_0000_0000_0000_0000

  function WrappingAdd(x: u64, n: u64): u64 {
    if x + n < U64_SIZE then x + n else x + n - U64_SIZE
  }

  /** The `n`-th value of a wrapping counter. */
  function At(start: u64, n: nat): u64 {
    (start + n) % 0x1_0000_0000_0000_0000
  }

  lemma AtInjective(start: u64, i: nat, j: nat)
    requires i < U64_SIZE && j < U64_SIZE && At(start, i) == At(start, j)
    ensures i == j
  {
  }

  lemma AtStep(start: u64, n: nat)
    ensures WrappingAdd(At(start, n), 1) == At(start, n + 1)
    ensures WrappingAdd(At(start, n), 2) == At(start, n + 2)
  {
  }

  /** Points in time, in nanoseconds since the epoch. */
  type Time = int

  const SECOND: int := 1_000_000_000
  const DAY: int := 86_400 * SECOND
}
