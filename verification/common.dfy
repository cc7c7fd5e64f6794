/** Shared vocabulary: optional values, Go-style `(value, error)` results,
    bare `error` returns, and Go's signed 64-bit integers. */
module Common {

  /** A Go pointer or func value that may be nil. */
  datatype Option<T> = None | Some(value: T)

  /** A Go `(T, error)` return: exactly one of the two is meaningful. */
  datatype Result<T, E> = Success(value: T) | Failure(error: E)

  /** A Go function that returns only an `error`: nil is `Pass`. */
  datatype Outcome<E> = Pass | Fail(error: E)

  const MinInt64: int := -0x8000_0000_0000_0000
  const MaxInt64: int := 0x7fff_ffff_ffff_ffff
  const TwoTo64: int := 0x1_0000_0000_0000_0000

  /** Go's `int64` (and `time.Duration`, which is an `int64`). */
  type Int64 = x: int | MinInt64 <= x <= MaxInt64

  /** Two's-complement reduction of a mathematical integer into `int64`,
      which is what Go's `+` and `-` on `int64` produce. */
  function Wrap64(x: int): (r: Int64)
    ensures MinInt64 <= x <= MaxInt64 ==> r == x
    ensures (x - r) % TwoTo64 == 0
  {
    (x - MinInt64) % TwoTo64 + MinInt64
  }
}
