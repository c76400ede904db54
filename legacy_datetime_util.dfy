/**
 * The Python 2 version of the date/time conversions (blpapi/datetime.py),
 * which works with the millisecond struct `blpapi_Datetime_t`.  Its
 * `FixedOffset` class stores and compares exactly like the current one, so
 * `DatetimeUtil.NewFixedOffset` and `DatetimeUtil.GetOffsetInMinutes` model it
 * too (Python 2's `/` on integers rounds down like `//`).
 */
module LegacyDatetimeUtil {
  import opened Wrappers
  import opened PyDatetime
  import opened PyValues
  import DatetimeUtil

  /**
   * Python 2's `utcoffset()` check: the tzinfo must give a whole number of
   * minutes strictly within one day.
   */
  function LegacyUtcOffset(tz: Option<TzInfo>): (r: Result<Option<Timedelta>, PyDatetimeError>)
    ensures r.Ok? && r.value.Some? ==> TotalMicros(r.value.value) % MICROS_PER_MINUTE == 0
    ensures r.Ok? ==> UtcOffset(tz) == r
  {
    match UtcOffset(tz)
    case Err(e) => Err(e)
    case Ok(None) => Ok(None)
    case Ok(Some(td)) =>
      if TotalMicros(td) % MICROS_PER_MINUTE == 0 then Ok(Some(td))
      else Err(ValueError("tzinfo.utcoffset() must return a whole number of minutes"))
  }

  /**
   * `convertToNative`: a time needs all of the hour, minute and second bits,
   * the fraction is whole milliseconds, and a value with neither a date nor
   * a time is a ValueError.
   */
  function ConvertToNative(dt: BlpDatetime): (r: Result<Temporal, PyDatetimeError>)
    ensures !DatetimeUtil.HasDate(dt.parts) && !DatetimeUtil.HasFullTime(dt.parts) ==> r.Err? && r.error.ValueError?
    ensures r.Ok? ==> DatetimeUtil.ShapedBy(DatetimeUtil.HasDate(dt.parts), DatetimeUtil.HasFullTime(dt.parts), dt,
                                           Millis(dt), r.value)
    ensures DatetimeUtil.HasDate(dt.parts) || DatetimeUtil.HasFullTime(dt.parts) ==>
              (r.Ok? <==> DatetimeUtil.FieldsValid(DatetimeUtil.HasDate(dt.parts), DatetimeUtil.HasFullTime(dt.parts),
                                                   dt, Millis(dt)))
  {
    var hasDate := DatetimeUtil.HasDate(dt.parts);
    var hasTime := DatetimeUtil.HasFullTime(dt.parts);
    var mlsecs := Millis(dt);
    var tzinfo := DatetimeUtil.TzFromParts(dt.parts, dt.offset);
    if hasDate then
      if hasTime then
        MakeDateTime(dt.year, dt.month, dt.day, dt.hours, dt.minutes, dt.seconds, mlsecs, tzinfo)
      else
        MakeDate(dt.year, dt.month, dt.day)
    else
      if !hasTime then Err(ValueError("Datetime object misses both time and date parts"))
      else MakeTime(dt.hours, dt.minutes, dt.seconds, mlsecs, tzinfo)
  }

  /** The microseconds the struct stands for: whole milliseconds, and only when the millisecond bit is set. */
  function Millis(dt: BlpDatetime): int {
    if dt.parts & MILLISECONDS_PART != 0 then dt.milliSeconds * 1000 else 0
  }

  /** The offset as the Python 2 code stores it: `offset.seconds // 60`, which ignores `offset.days`. */
  function StoredOffsetAsWritten(td: Timedelta): int {
    td.seconds / 60
  }

  /** The offset in whole minutes, counting the days component as well. */
  function StoredOffset(td: Timedelta): int {
    td.days * 24 * 60 + td.seconds / 60
  }

  /**
   * `convertToBlpapi`, with the rule that turns the UTC offset into the
   * stored minute count as a parameter: the code as written passes
   * `StoredOffsetAsWritten`, the corrected conversion `StoredOffset`.
   */
  method ConvertToBlpapiWith(dtime: PyValue, storeOffset: Timedelta -> int)
    returns (r: Result<BlpDatetime, PyDatetimeError>)
    ensures !IsDatetime(dtime) ==> r.Err? && r.error.TypeError?
    ensures IsDatetime(dtime) && dtime.t.DateOnly? ==> r.Ok? && r.value.parts == DATE_PART
    ensures IsDatetime(dtime) && dtime.t.HasTimeOfDay() ==> (r.Err? <==> LegacyUtcOffset(dtime.t.time.tz).Err?)
    ensures IsDatetime(dtime) && r.Ok? ==> CarriesMillis(dtime.t, r.value)
    ensures IsDatetime(dtime) && r.Ok? && dtime.t.HasTimeOfDay() ==>
              && (DatetimeUtil.HasOffset(r.value.parts) <==> LegacyUtcOffset(dtime.t.time.tz).value.Some?)
              && (DatetimeUtil.HasOffset(r.value.parts) ==>
                    r.value.offset == storeOffset(LegacyUtcOffset(dtime.t.time.tz).value.value))
  {
    if !dtime.PyTemporal? {
      return Err(TypeError("Datetime could be created only from datetime.datetime, datetime.date or datetime.time"));
    }
    var res := ZERO_DATETIME;
    var offset: Option<Timedelta> := None;
    match dtime.t {
      case DateTime(d, t) =>
        var off := LegacyUtcOffset(t.tz);
        if off.Err? { return Err(off.error); }
        offset := off.value;
        res := res.(year := d.year, month := d.month, day := d.day,
                    hours := t.hour, minutes := t.minute, seconds := t.second,
                    milliSeconds := t.microsecond / 1000);
        res := res.(parts := DATE_PART | TIMEMILLI_PART);
      case DateOnly(d) =>
        res := res.(year := d.year, month := d.month, day := d.day);
        res := res.(parts := DATE_PART);
      case TimeOnly(t) =>
        var off := LegacyUtcOffset(t.tz);
        if off.Err? { return Err(off.error); }
        offset := off.value;
        res := res.(hours := t.hour, minutes := t.minute, seconds := t.second,
                    milliSeconds := t.microsecond / 1000);
        res := res.(parts := TIMEMILLI_PART);
    }
    ghost var basicParts := res.parts;
    PartsValues(basicParts, offset.Some?);
    if offset.Some? {
      res := res.(offset := storeOffset(offset.value));
      res := res.(parts := res.parts | OFFSET_PART);
    }
    r := Ok(res);
  }

  /** The code as written. */
  method ConvertToBlpapiAsWritten(dtime: PyValue) returns (r: Result<BlpDatetime, PyDatetimeError>)
    ensures IsDatetime(dtime) && dtime.t.HasTimeOfDay() ==> (r.Err? <==> LegacyUtcOffset(dtime.t.time.tz).Err?)
    ensures IsDatetime(dtime) && r.Ok? ==> CarriesMillis(dtime.t, r.value)
    ensures IsDatetime(dtime) && r.Ok? && dtime.t.HasTimeOfDay() ==>
              && (DatetimeUtil.HasOffset(r.value.parts) <==> LegacyUtcOffset(dtime.t.time.tz).value.Some?)
              && (DatetimeUtil.HasOffset(r.value.parts) ==>
                    r.value.offset == LegacyUtcOffset(dtime.t.time.tz).value.value.seconds / 60)
  {
    r := ConvertToBlpapiWith(dtime, StoredOffsetAsWritten);
  }

  /** The conversion with the offset stored in whole minutes, days included. */
  method ConvertToBlpapi(dtime: PyValue) returns (r: Result<BlpDatetime, PyDatetimeError>)
    ensures !IsDatetime(dtime) ==> r.Err? && r.error.TypeError?
    ensures IsDatetime(dtime) && r.Ok? ==> CarriesMillis(dtime.t, r.value)
    ensures IsDatetime(dtime) && r.Ok? && dtime.t.HasTimeOfDay() ==> StoresMinutes(dtime.t, r.value)
    ensures IsDatetime(dtime) && DatetimeUtil.RoundTrips(dtime.t) ==> r.Ok?
  {
    r := ConvertToBlpapiWith(dtime, StoredOffset);
    if IsDatetime(dtime) && r.Ok? && dtime.t.HasTimeOfDay() && DatetimeUtil.HasOffset(r.value.parts) {
      var td := LegacyUtcOffset(dtime.t.time.tz).value.value;
      StoredOffsetIsMinutes(td);
    }
  }

  /** For an offset of whole minutes the corrected rule gives exactly that many minutes. */
  lemma StoredOffsetIsMinutes(td: Timedelta)
    requires Normalised(td) && TotalMicros(td) % MICROS_PER_MINUTE == 0
    ensures StoredOffset(td) * MICROS_PER_MINUTE == TotalMicros(td)
  {
    var inDay := td.seconds * MICROS_PER_SECOND + td.microseconds;
    var m := TotalMicros(td) / MICROS_PER_MINUTE;
    assert TotalMicros(td) == m * MICROS_PER_MINUTE;
    assert inDay == (m - td.days * 1440) * MICROS_PER_MINUTE;
    DivModUnique(inDay, MICROS_PER_SECOND, (m - td.days * 1440) * 60, 0);
  }

  /** The millisecond struct carries every field of the value, the microseconds cut to whole milliseconds. */
  predicate CarriesMillis(t: Temporal, dt: BlpDatetime) {
    && (DatetimeUtil.HasDate(dt.parts) <==> !t.TimeOnly?)
    && (DatetimeUtil.HasFullTime(dt.parts) <==> t.HasTimeOfDay())
    && (!t.TimeOnly? ==> dt.year == t.date.year && dt.month == t.date.month && dt.day == t.date.day)
    && (t.HasTimeOfDay() ==>
          && dt.parts & MILLISECONDS_PART != 0
          && dt.hours == t.time.hour && dt.minutes == t.time.minute && dt.seconds == t.time.second
          && dt.milliSeconds == t.time.microsecond / 1000)
  }

  /** The offset bit marks a UTC offset, and the field holds it in minutes. */
  predicate StoresMinutes(t: Temporal, dt: BlpDatetime)
    requires t.HasTimeOfDay()
  {
    && LegacyUtcOffset(t.time.tz).Ok?
    && (DatetimeUtil.HasOffset(dt.parts) <==> LegacyUtcOffset(t.time.tz).value.Some?)
    && (DatetimeUtil.HasOffset(dt.parts) ==>
          dt.offset * MICROS_PER_MINUTE == TotalMicros(LegacyUtcOffset(t.time.tz).value.value))
  }

  /** The value with its microseconds cut down to whole milliseconds. */
  function TruncatedToMillis(t: Temporal): (r: Temporal)
    ensures r.HasTimeOfDay() ==> r.time.microsecond % 1000 == 0
  {
    match t
    case DateTime(d, tm) => DateTime(d, tm.(microsecond := tm.microsecond / 1000 * 1000))
    case DateOnly(d) => t
    case TimeOnly(tm) => TimeOnly(tm.(microsecond := tm.microsecond / 1000 * 1000))
  }

  /** With the corrected offset rule a value comes back whole, up to its sub-millisecond digits. */
  lemma RoundTripToMillis(t: Temporal, dt: BlpDatetime)
    requires DatetimeUtil.RoundTrips(t) && CarriesMillis(t, dt)
    requires t.HasTimeOfDay() ==> StoresMinutes(t, dt)
    ensures ConvertToNative(dt) == Ok(TruncatedToMillis(t))
  {
    if t.HasTimeOfDay() && t.time.tz.Some? {
      var td := t.time.tz.value.offset;
      assert DatetimeUtil.HasOffset(dt.parts);
      assert dt.offset * MICROS_PER_MINUTE == TotalMicros(td);
      FromMicrosOfTotal(td);
      assert DatetimeUtil.NewFixedOffset(dt.offset) == t.time.tz.value;
    }
  }

  /**
   * The code as written stores `timedelta(minutes=-300).seconds // 60`,
   * that is 1140, for a UTC offset of five hours west.
   */
  method NegativeOffsetStoredAsWritten() returns (stored: int)
    ensures stored == 1140
  {
    var tz := DatetimeUtil.NewFixedOffset(-300);
    assert tz.offset == TimedeltaFields(-1, 68_400, 0);
    var noon := PyTemporal(TimeOnly(Time(12, 0, 0, 0, Some(tz))));
    var r := ConvertToBlpapiAsWritten(noon);
    assert r.Ok?;
    stored := r.value.offset;
  }

  /** Read back, the struct written by the code as written names an offset nineteen hours east. */
  lemma NegativeOffsetReadBack()
    ensures ConvertToNative(BlpDatetime(TIMEMILLI_PART | OFFSET_PART, 12, 0, 0, 0, 0, 0, 0, 1140))
            == Ok(TimeOnly(Time(12, 0, 0, 0, Some(DatetimeUtil.NewFixedOffset(1140)))))
    ensures DatetimeUtil.NewFixedOffset(1140) != DatetimeUtil.NewFixedOffset(-300)
  {
    DatetimeUtil.OffsetInMinutesRoundTrip(1140);
    DatetimeUtil.OffsetInMinutesRoundTrip(-300);
  }

  lemma PartsValues(p: bv8, withOffset: bool)
    requires p == DATE_PART || p == TIMEMILLI_PART || p == DATE_PART | TIMEMILLI_PART
    ensures var q := if withOffset then p | OFFSET_PART else p;
      && (DatetimeUtil.HasDate(q) <==> p != TIMEMILLI_PART)
      && (DatetimeUtil.HasFullTime(q) <==> p != DATE_PART)
      && (DatetimeUtil.HasFullTime(q) ==> q & MILLISECONDS_PART != 0)
      && (DatetimeUtil.HasOffset(q) <==> withOffset)
  {
  }
}
