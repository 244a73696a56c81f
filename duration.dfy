/**
 * The scheduled flight duration computed by the `/api/flight` handler: each
 * end's scheduled time prefers the UTC text over the local one, the two
 * instants are subtracted, the difference is rounded to whole minutes, and a
 * negative result has one day (1440 minutes) added to it once.
 */
module Duration {
  import opened Wrappers

  const MS_PER_MINUTE: int := 60000
  const HALF_MINUTE_MS: int := 30000
  const MINUTES_PER_DAY: int := 1440

  /**
   * A scheduled time as the provider sends it: its text, and the instant in
   * milliseconds that `new Date(text)` denotes, or `None` for an Invalid Date.
   */
  datatype Timestamp = Timestamp(text: string, millis: Option<int>)

  /** The `scheduledTime` object of one end of the flight; a missing object has both parts absent. */
  datatype Schedule = Schedule(utc: Option<Timestamp>, local: Option<Timestamp>)

  /** JavaScript truthiness of an optional timestamp: absent or empty text is falsy. */
  predicate Present(t: Option<Timestamp>) {
    t.Some? && t.value.text != ""
  }

  /** `scheduledTime.utc || scheduledTime.local`: the UTC text wins whenever it is truthy. */
  function PickTime(s: Schedule): (t: Option<Timestamp>)
    ensures Present(s.utc) ==> t == s.utc
    ensures !Present(s.utc) ==> t == s.local
  {
    if Present(s.utc) then s.utc else s.local
  }

  /**
   * `Math.round(ms / 60000)` for an integer number of milliseconds: the
   * nearest whole minute, with an exact half rounded towards +infinity.
   */
  function RoundedMinutes(ms: int): (r: int)
    ensures MS_PER_MINUTE * r - HALF_MINUTE_MS <= ms < MS_PER_MINUTE * r + HALF_MINUTE_MS
  {
    (ms + HALF_MINUTE_MS) / MS_PER_MINUTE
  }

  /** The bound in `RoundedMinutes`' contract fixes the result: only one integer is that close. */
  lemma RoundedMinutesUnique(ms: int, r: int)
    requires MS_PER_MINUTE * r - HALF_MINUTE_MS <= ms < MS_PER_MINUTE * r + HALF_MINUTE_MS
    ensures RoundedMinutes(ms) == r
  {
  }

  /** Rounding never reverses the order of two differences. */
  lemma RoundedMinutesMonotonic(a: int, b: int)
    requires a <= b
    ensures RoundedMinutes(a) <= RoundedMinutes(b)
  {
  }

  /** `if (durationMin < 0) durationMin += 1440`: a negative minute count has one day added, once. */
  function WrapNegative(r: int): (w: int)
    ensures w == r || w == r + MINUTES_PER_DAY
    ensures w == r <==> r >= 0
    ensures w >= 0 <==> r >= -MINUTES_PER_DAY
    ensures r < 0 ==> w < MINUTES_PER_DAY
  {
    if r < 0 then r + MINUTES_PER_DAY else r
  }

  /**
   * The duration in minutes between two parsed instants, or `None` when
   * either is missing or invalid (JavaScript gets `null` or `NaN`, and both
   * are sent as `null`).
   */
  function DurationFromMillis(dep: Option<int>, arr: Option<int>): (d: Option<int>)
    ensures d.Some? <==> dep.Some? && arr.Some?
    ensures d.Some? ==> d.value == WrapNegative(RoundedMinutes(arr.value - dep.value))
    ensures d.Some? && arr.value >= dep.value ==> d.value == RoundedMinutes(arr.value - dep.value)
    ensures d.Some? ==> (d.value >= 0 <==>
      arr.value - dep.value >= -MINUTES_PER_DAY * MS_PER_MINUTE - HALF_MINUTE_MS)
    ensures d.Some? ==> (d.value - RoundedMinutes(arr.value - dep.value)) % MINUTES_PER_DAY == 0
  {
    match (dep, arr)
    case (Some(t0), Some(t1)) => Some(WrapNegative(RoundedMinutes(t1 - t0)))
    case _ => None
  }

  /**
   * The `durationMin` of the response: `null` unless both chosen scheduled
   * times are truthy, and otherwise the duration between their instants.
   */
  function ScheduledDuration(dep: Schedule, arr: Schedule): (d: Option<int>)
    ensures !Present(PickTime(dep)) || !Present(PickTime(arr)) ==> d == None
    ensures Present(PickTime(dep)) && Present(PickTime(arr)) ==>
      d == DurationFromMillis(PickTime(dep).value.millis, PickTime(arr).value.millis)
  {
    var depTime, arrTime := PickTime(dep), PickTime(arr);
    if Present(depTime) && Present(arrTime) then
      DurationFromMillis(depTime.value.millis, arrTime.value.millis)
    else
      None
  }

  // ---------------------------------------------------------------------------
  // Properties.

  /** A flight whose arrival instant precedes its departure by at most a day and half a minute gets a duration in [0, 1440). */
  lemma NegativeWithinADayWraps(t0: int, t1: int)
    requires t0 - MINUTES_PER_DAY * MS_PER_MINUTE - HALF_MINUTE_MS <= t1 < t0
    ensures DurationFromMillis(Some(t0), Some(t1)).Some?
    ensures 0 <= DurationFromMillis(Some(t0), Some(t1)).value < MINUTES_PER_DAY
  {
  }

  /** A raw difference of -30 minutes becomes 1410 minutes. */
  lemma MinusThirtyMinutes(t0: int)
    ensures DurationFromMillis(Some(t0), Some(t0 - 30 * MS_PER_MINUTE)) == Some(1410)
  {
  }

  /** A difference of more than a day backwards is wrapped only once and stays negative. */
  lemma WrapsOnlyOnce(t0: int)
    ensures DurationFromMillis(Some(t0), Some(t0 - 1500 * MS_PER_MINUTE)) == Some(-60)
  {
  }

  /** Shifting both instants by the same amount leaves the duration unchanged. */
  lemma ShiftInvariant(t0: int, t1: int, c: int)
    ensures DurationFromMillis(Some(t0 + c), Some(t1 + c)) == DurationFromMillis(Some(t0), Some(t1))
  {
  }

  /** When the UTC text of an end is truthy, its local time plays no part. */
  lemma UtcPreferred(dep: Schedule, arr: Schedule, depLocal: Option<Timestamp>, arrLocal: Option<Timestamp>)
    requires Present(dep.utc) && Present(arr.utc)
    ensures ScheduledDuration(dep, arr) == ScheduledDuration(dep.(local := depLocal), arr.(local := arrLocal))
    ensures ScheduledDuration(dep, arr) == DurationFromMillis(dep.utc.value.millis, arr.utc.value.millis)
  {
  }

  /**
   * A truthy UTC text is used even when it does not parse: the duration is
   * then `null`, although a valid local time is available.
   */
  lemma InvalidUtcIsNotReplaced(dep: Schedule, arr: Schedule)
    requires Present(dep.utc) && dep.utc.value.millis == None
    ensures ScheduledDuration(dep, arr) == None
  {
  }

  /**
   * The two ends choose independently: a departure with a truthy UTC text and
   * an arrival with only a truthy local text are combined as they are.
   */
  lemma MixedUtcAndLocal(dep: Schedule, arr: Schedule)
    requires Present(dep.utc) && !Present(arr.utc) && Present(arr.local)
    ensures ScheduledDuration(dep, arr) == DurationFromMillis(dep.utc.value.millis, arr.local.value.millis)
  {
  }

  /** When an end has no truthy UTC text, its local time is used. */
  lemma LocalFallback(dep: Schedule, arr: Schedule)
    requires !Present(dep.utc) && !Present(arr.utc)
    requires Present(dep.local) && Present(arr.local)
    ensures ScheduledDuration(dep, arr) == DurationFromMillis(dep.local.value.millis, arr.local.value.millis)
  {
  }
}
