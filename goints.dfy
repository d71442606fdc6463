/** Go's fixed-width integers and `time` values over unbounded `int`.
    A `time.Time` is an instant in nanoseconds since the Unix epoch; a
    `time.Duration` is an `int64` count of nanoseconds. */
module GoInts {

  const TwoTo63: int := 0x8000_0000_0000_0000
  const TwoTo64: int := 0x1_0000_0000_0000_0000
  const MinInt64: int := -TwoTo63
  const MaxInt64: int := TwoTo63 - 1

  predicate InInt64(x: int) { MinInt64 <= x <= MaxInt64 }

  /** Go's `uint64`. */
  type Uint64 = n: int | 0 <= n < TwoTo64

  /** Two's-complement wrap-around to `int64`, as Go's `int64(x)` conversions
      and overflowing `int64` arithmetic do. */
  function Wrap64(x: int): (r: int)
    ensures InInt64(r)
    ensures (r - x) % TwoTo64 == 0
    ensures InInt64(x) ==> r == x
  {
    (x + TwoTo63) % TwoTo64 - TwoTo63
  }

  /** Saturating subtraction, as `time.Time.Sub` clamps to the `Duration` range. */
  function Saturate64(x: int): (r: int)
    ensures InInt64(r)
    ensures InInt64(x) ==> r == x
    ensures x < MinInt64 ==> r == MinInt64
    ensures x > MaxInt64 ==> r == MaxInt64
  {
    if x < MinInt64 then MinInt64 else if x > MaxInt64 then MaxInt64 else x
  }

  /** `int32(x)`: the low 32 bits read as a signed number. */
  function Wrap32(x: int): (r: int)
    ensures -0x8000_0000 <= r < 0x8000_0000
    ensures (r - x) % 0x1_0000_0000 == 0
  {
    (x + 0x8000_0000) % 0x1_0000_0000 - 0x8000_0000
  }

  const NanosPerSecond: int := 1_000_000_000
  const Second: int := NanosPerSecond
  const Minute: int := 60 * Second
  const Hour: int := 60 * Minute
  const Day: int := 24 * Hour

  /** The instant of Go's zero `time.Time` (January 1, year 1, UTC). */
  const ZeroTime: int := -62_135_596_800 * NanosPerSecond

  /** `t.Unix()`: whole seconds, rounded toward negative infinity. */
  function UnixSeconds(t: int): (r: int)
    ensures r * NanosPerSecond <= t < (r + 1) * NanosPerSecond
  {
    t / NanosPerSecond
  }

  /** `t.UnixNano()`: the instant in nanoseconds, wrapped to `int64` when it
      does not fit (as for the zero time). */
  function UnixNano(t: int): (r: int)
    ensures InInt64(r) && (r - t) % TwoTo64 == 0
    ensures InInt64(t) ==> r == t
  {
    Wrap64(t)
  }

  lemma ZeroTimeUnixNano()
    ensures UnixNano(ZeroTime) == -6_795_364_578_871_345_152
  {
  }

  /** The `uint64 -> int64` reinterpretation of a wire timestamp. */
  function FromUint64(n: nat): (r: int)
    requires n < TwoTo64
    ensures InInt64(r)
    ensures n <= MaxInt64 ==> r == n
    ensures n > MaxInt64 ==> r == n - TwoTo64
  {
    Wrap64(n)
  }
}
