/** Types and orders shared by every part of the model. */
module Basics {

  datatype Option<+T> = None | Some(value: T) {
    function GetOr(other: T): T {
      if None? then other else value
    }
  }

  datatype Result<+T, +E> = Ok(value: T) | Err(error: E)

  /** Instants and durations, in nanoseconds as in Go's `time` package (unbounded here). */
  type Time = int

  const SECOND: Time := 1_000_000_000
  const MINUTE: Time := 60_000_000_000

  function Min(a: int, b: int): int {
    if a < b then a else b
  }

  /** Go's `x << n` on a duration that does not overflow. */
  function ShiftLeft(x: int, n: nat): int {
    if n == 0 then x else 2 * ShiftLeft(x, n - 1)
  }

  /** Whether what `when` describes happens at the k-th occasion. */
  predicate Happens(when: nat -> bool, k: nat) {
    when(k)
  }

  /** Newest-first record of what happened in a run. */
  datatype Log<E> = Nothing | Then(event: E, before: Log<E>)
}
