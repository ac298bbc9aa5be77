/** Instants and durations as the handler uses them: an instant is a whole
    number of seconds since the Unix epoch, a duration a whole number of
    nanoseconds held in a signed 64-bit integer. */
module GoTime {

  const NanosPerSecond: int := 1_000_000_000
  const SecondsPerDay: int := 86_400

  /** The trailing window every calculator looks at, in days. */
  const WindowDays: int := 30

  /** Seconds from the Unix epoch back to January 1 of year 1, 00:00:00 UTC:
      the zero instant a nil-safe getter returns for a missing timestamp. */
  const ZeroTime: int := -62_135_596_800

  /** The range of a signed 64-bit nanosecond count. */
  const MinDuration: int := -0x8000_0000_0000_0000
  const MaxDuration: int := 0x7FFF_FFFF_FFFF_FFFF

  /** `t` is strictly later than `u`. */
  predicate After(t: int, u: int)
  {
    t > u
  }

  /** The start of the window, thirty days before `now`: an instant is after
      it exactly when it is less than thirty days old. */
  function Cutoff(now: int): (c: int)
    ensures c < now
    ensures forall t :: After(t, c) <==> now - t < WindowDays * SecondsPerDay
  {
    now - WindowDays * SecondsPerDay
  }

  /** The duration from `u` to `t`, saturated to the 64-bit range instead of
      wrapping around. */
  function Sub(t: int, u: int): (d: int)
    ensures MinDuration <= d <= MaxDuration
    ensures MinDuration <= (t - u) * NanosPerSecond <= MaxDuration ==> d == (t - u) * NanosPerSecond
    ensures (t - u) * NanosPerSecond < MinDuration ==> d == MinDuration
    ensures (t - u) * NanosPerSecond > MaxDuration ==> d == MaxDuration
    ensures t >= u ==> d >= 0
    ensures t <= u ==> d <= 0
  {
    var exact := (t - u) * NanosPerSecond;
    if exact < MinDuration then MinDuration
    else if exact > MaxDuration then MaxDuration
    else exact
  }

  /** A duration as a fractional number of minutes. */
  function Minutes(d: int): real
  {
    d as real / 60_000_000_000.0
  }

  /** A duration as a fractional number of hours. */
  function Hours(d: int): real
  {
    d as real / 3_600_000_000_000.0
  }
}
