/**
 * Time as the writer sees it: Go `time.Time` values are integer nanoseconds since the
 * epoch, and Prometheus `model.Time` values (the chunk bounds) are integer milliseconds.
 */
module Timestamps {

  /** Go's `time.Second`, in nanoseconds. */
  const Second: int := 1_000_000_000

  /** Go's `time.Microsecond`, in nanoseconds. */
  const Microsecond: int := 1_000

  /** Nanoseconds per tick of Prometheus `model.Time`, which counts milliseconds. */
  const NanosPerTick: int := 1_000_000

  /**
   * `model.TimeFromUnixNano`: an int64 division by `NanosPerTick`, which in Go
   * truncates toward zero (Dafny's own `/` is Euclidean, so negative inputs are
   * handled explicitly).
   */
  function TimeFromUnixNano(ns: int): (t: int)
  {
    if ns >= 0 then ns / NanosPerTick else -((-ns) / NanosPerTick)
  }

  /** The result is the tick that contains `ns`, counted toward zero. */
  lemma TimeFromUnixNanoBounds(ns: int)
    ensures ns >= 0 ==> 0 <= TimeFromUnixNano(ns) && UnixNano(TimeFromUnixNano(ns)) <= ns < UnixNano(TimeFromUnixNano(ns) + 1)
    ensures ns < 0 ==> TimeFromUnixNano(ns) <= 0 && UnixNano(TimeFromUnixNano(ns) - 1) < ns <= UnixNano(TimeFromUnixNano(ns))
  {
  }

  /** `model.Time.UnixNano`: milliseconds back to nanoseconds. */
  function UnixNano(t: int): (ns: int)
  {
    t * NanosPerTick
  }

  /** A duration scaled to nanoseconds keeps its sign. */
  lemma MicrosecondsKeepSign(d: int)
    ensures d > 0 ==> d * Microsecond > 0
    ensures d <= 0 ==> d * Microsecond <= 0
  {
  }

  function Min(a: int, b: int): (m: int) { if a <= b then a else b }

  function Max(a: int, b: int): (m: int) { if a >= b then a else b }

  /** Truncation loses nothing on a value that is already a whole number of milliseconds. */
  lemma TimeFromUnixNanoRoundTrip(t: int)
    ensures TimeFromUnixNano(UnixNano(t)) == t
  {
  }

  /** Truncation toward zero is monotone. */
  lemma TimeFromUnixNanoMonotone(a: int, b: int)
    requires a <= b
    ensures TimeFromUnixNano(a) <= TimeFromUnixNano(b)
  {
    TimeFromUnixNanoBounds(a);
    TimeFromUnixNanoBounds(b);
  }

  /**
   * One step of the lower-bound scan in `newChunk`: the running bound `from` holds the
   * truncated minimum `m`, and the entry `e` is compared with `from.UnixNano()` (the
   * truncated value scaled back up), not with `m` itself. The step still yields the
   * truncated minimum of `m` and `e`.
   */
  lemma LowerBoundStep(m: int, e: int)
    ensures (if e < UnixNano(TimeFromUnixNano(m)) then TimeFromUnixNano(e) else TimeFromUnixNano(m))
            == TimeFromUnixNano(Min(m, e))
  {
    var t := TimeFromUnixNano(m);
    TimeFromUnixNanoRoundTrip(t);
    if e < UnixNano(t) {
      if m < e {
        TimeFromUnixNanoMonotone(m, e);
        TimeFromUnixNanoMonotone(e, UnixNano(t));
      }
    } else if e < m {
      TimeFromUnixNanoMonotone(UnixNano(t), e);
      TimeFromUnixNanoMonotone(e, m);
    }
  }

  /** The upper-bound counterpart of `LowerBoundStep`. */
  lemma UpperBoundStep(m: int, e: int)
    ensures (if e > UnixNano(TimeFromUnixNano(m)) then TimeFromUnixNano(e) else TimeFromUnixNano(m))
            == TimeFromUnixNano(Max(m, e))
  {
    var t := TimeFromUnixNano(m);
    TimeFromUnixNanoRoundTrip(t);
    if e > UnixNano(t) {
      if m > e {
        TimeFromUnixNanoMonotone(e, m);
        TimeFromUnixNanoMonotone(UnixNano(t), e);
      }
    } else if e > m {
      TimeFromUnixNanoMonotone(m, e);
      TimeFromUnixNanoMonotone(e, UnixNano(t));
    }
  }
}
