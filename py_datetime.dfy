/**
 * The parts of Python's standard `datetime` module that the date/time
 * conversions of the binding rely on: normalised `timedelta` values, the
 * validity rules of the `date`, `time` and `datetime` constructors, and the
 * `utcoffset()` check on time zones.  Also the BLPAPI date/time structs and
 * their `parts` bits.
 */
module PyDatetime {
  import opened Wrappers

  const MICROS_PER_SECOND: int := 1_000_000
  const MICROS_PER_MINUTE: int := 60_000_000
  const MICROS_PER_DAY: int := 86_400_000_000

  /** The three fields of a `datetime.timedelta`. */
  datatype TimedeltaFields = TimedeltaFields(days: int, seconds: int, microseconds: int)

  /** A `datetime.timedelta`: Python keeps it in normal form, where only `days` may be negative. */
  type Timedelta = t: TimedeltaFields | Normalised(t) witness TimedeltaFields(0, 0, 0)

  predicate Normalised(t: TimedeltaFields) {
    0 <= t.seconds < 86_400 && 0 <= t.microseconds < MICROS_PER_SECOND
  }

  function TotalMicros(t: TimedeltaFields): int {
    t.days * MICROS_PER_DAY + t.seconds * MICROS_PER_SECOND + t.microseconds
  }

  /** `timedelta(microseconds=us)`: Python normalises so that seconds and microseconds are non-negative. */
  function FromMicros(us: int): (t: Timedelta)
    ensures Normalised(t)
    ensures TotalMicros(t) == us
  {
    var rest := us % MICROS_PER_DAY;
    TimedeltaFields(us / MICROS_PER_DAY, rest / MICROS_PER_SECOND, rest % MICROS_PER_SECOND)
  }

  /** The normal form is unique: normalising the length of a normalised timedelta gives it back. */
  lemma FromMicrosOfTotal(t: Timedelta)
    requires Normalised(t)
    ensures FromMicros(TotalMicros(t)) == t
  {
    var inDay := t.seconds * MICROS_PER_SECOND + t.microseconds;
    assert 0 <= inDay < MICROS_PER_DAY;
    var us := TotalMicros(t);
    assert us == t.days * MICROS_PER_DAY + inDay;
    DivModUnique(us, MICROS_PER_DAY, t.days, inDay);
    DivModUnique(inDay, MICROS_PER_SECOND, t.seconds, t.microseconds);
  }

  lemma DivModUnique(x: int, d: int, q: int, r: int)
    requires 0 < d && 0 <= r < d && x == q * d + r
    ensures x / d == q && x % d == r
  {
    var q', r' := x / d, x % d;
    assert x == q' * d + r';
    if q > q' {
      MulGap(q, q', d);
      assert false;
    } else if q < q' {
      MulGap(q', q, d);
      assert false;
    }
  }

  lemma MulGap(a: int, b: int, d: int)
    requires a > b && d > 0
    ensures a * d >= b * d + d
  {
    var k := a - b;
    assert a * d == b * d + k * d;
    MulAtLeast(k, d);
  }

  lemma {:induction false} MulAtLeast(k: int, d: int)
    requires k >= 1 && d > 0
    ensures k * d >= d
  {
    if k > 1 {
      MulAtLeast(k - 1, d);
      assert k * d == (k - 1) * d + d;
    }
  }

  /**
   * A `tzinfo`: either an instance of the binding's `FixedOffset`, which holds
   * the timedelta it was built with, or any other implementation, described
   * by what its `utcoffset()` returns.
   */
  datatype TzInfo = FixedOffset(offset: Timedelta) | OtherTz(utcoffsetValue: Option<Timedelta>)

  datatype Date = Date(year: int, month: int, day: int)
  datatype Time = Time(hour: int, minute: int, second: int, microsecond: int, tz: Option<TzInfo>)

  /** A value of one of the three classes `datetime.datetime`, `datetime.date`, `datetime.time`. */
  datatype Temporal = DateTime(date: Date, time: Time) | DateOnly(date: Date) | TimeOnly(time: Time)
  {
    predicate HasTimeOfDay() { DateTime? || TimeOnly? }
  }

  datatype PyDatetimeError = ValueError(message: string) | TypeError(message: string)

  predicate IsLeap(year: int) {
    year % 4 == 0 && (year % 100 != 0 || year % 400 == 0)
  }

  function DaysInMonth(year: int, month: int): (n: int)
    requires 1 <= month <= 12
    ensures 28 <= n <= 31
    ensures n == 29 <==> month == 2 && IsLeap(year)
  {
    if month == 2 then (if IsLeap(year) then 29 else 28)
    else if month == 4 || month == 6 || month == 9 || month == 11 then 30
    else 31
  }

  predicate ValidDate(d: Date) {
    1 <= d.year <= 9999 && 1 <= d.month <= 12 && 1 <= d.day <= DaysInMonth(d.year, d.month)
  }

  predicate ValidTime(t: Time) {
    0 <= t.hour < 24 && 0 <= t.minute < 60 && 0 <= t.second < 60
    && 0 <= t.microsecond < MICROS_PER_SECOND
  }

  predicate ValidTemporal(v: Temporal) {
    match v
    case DateTime(d, t) => ValidDate(d) && ValidTime(t)
    case DateOnly(d) => ValidDate(d)
    case TimeOnly(t) => ValidTime(t)
  }

  /** `datetime.date(y, m, d)`: ValueError unless the three fields form a calendar date. */
  function MakeDate(year: int, month: int, day: int): (r: Result<Temporal, PyDatetimeError>)
    ensures r.Ok? <==> ValidDate(Date(year, month, day))
    ensures r.Ok? ==> r.value == DateOnly(Date(year, month, day))
  {
    var d := Date(year, month, day);
    if ValidDate(d) then Ok(DateOnly(d)) else Err(ValueError("date field out of range"))
  }

  /** `datetime.time(h, m, s, us, tz)`: ValueError unless every field is in range. */
  function MakeTime(hour: int, minute: int, second: int, micro: int, tz: Option<TzInfo>)
    : (r: Result<Temporal, PyDatetimeError>)
    ensures r.Ok? <==> ValidTime(Time(hour, minute, second, micro, tz))
    ensures r.Ok? ==> r.value == TimeOnly(Time(hour, minute, second, micro, tz))
  {
    var t := Time(hour, minute, second, micro, tz);
    if ValidTime(t) then Ok(TimeOnly(t)) else Err(ValueError("time field out of range"))
  }

  /** `datetime.datetime(y, mo, d, h, mi, s, us, tz)`. */
  function MakeDateTime(year: int, month: int, day: int, hour: int, minute: int, second: int,
                        micro: int, tz: Option<TzInfo>): (r: Result<Temporal, PyDatetimeError>)
    ensures r.Ok? <==> ValidDate(Date(year, month, day)) && ValidTime(Time(hour, minute, second, micro, tz))
    ensures r.Ok? ==> r.value == DateTime(Date(year, month, day), Time(hour, minute, second, micro, tz))
  {
    var d := Date(year, month, day);
    var t := Time(hour, minute, second, micro, tz);
    if ValidDate(d) && ValidTime(t) then Ok(DateTime(d, t))
    else Err(ValueError("datetime field out of range"))
  }

  /**
   * `x.utcoffset()` for a datetime or time whose time zone is `tz`: what the
   * tzinfo returns, after Python's check that it lies strictly within one day.
   */
  function UtcOffset(tz: Option<TzInfo>): (r: Result<Option<Timedelta>, PyDatetimeError>)
    ensures r.Ok? && r.value.Some? ==> -MICROS_PER_DAY < TotalMicros(r.value.value) < MICROS_PER_DAY
    ensures tz.None? ==> r == Ok(None)
  {
    var raw := match tz
      case None => None
      case Some(FixedOffset(td)) => Some(td)
      case Some(OtherTz(v)) => v;
    match raw
    case None => Ok(None)
    case Some(td) =>
      if -MICROS_PER_DAY < TotalMicros(td) < MICROS_PER_DAY then Ok(Some(td))
      else Err(ValueError("offset must be a timedelta strictly between -timedelta(hours=24) and timedelta(hours=24)"))
  }

  // ----- The BLPAPI date/time structs (blpapi_Datetime_t and its high-precision wrapper) -----

  const YEAR_PART: bv8 := 0x1
  const MONTH_PART: bv8 := 0x2
  const DAY_PART: bv8 := 0x4
  const OFFSET_PART: bv8 := 0x8
  const HOURS_PART: bv8 := 0x10
  const MINUTES_PART: bv8 := 0x20
  const SECONDS_PART: bv8 := 0x40
  const FRACSECONDS_PART: bv8 := 0x80
  const MILLISECONDS_PART: bv8 := 0x80
  const DATE_PART: bv8 := 0x7
  const TIME_PART: bv8 := 0x70
  const TIMEFRACSECONDS_PART: bv8 := 0xF0
  const TIMEMILLI_PART: bv8 := 0xF0

  datatype BlpDatetime = BlpDatetime(
    parts: bv8, hours: int, minutes: int, seconds: int, milliSeconds: int,
    month: int, day: int, year: int, offset: int)

  datatype HighPrecisionDatetime = HighPrecisionDatetime(datetime: BlpDatetime, picoseconds: nat)

  /** The value a freshly allocated ctypes struct holds: every field zero. */
  const ZERO_DATETIME: BlpDatetime := BlpDatetime(0, 0, 0, 0, 0, 0, 0, 0, 0)
}
