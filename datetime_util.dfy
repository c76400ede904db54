/**
 * Conversions between the BLPAPI date/time structs and Python's date, time
 * and datetime values, together with the `FixedOffset` time zone
 * (src/blpapi/datetime.py).
 */
module DatetimeUtil {
  import opened Wrappers
  import opened PyDatetime
  import opened PyValues

  // ----- FixedOffset -----

  /** `FixedOffset(m)`: a tzinfo holding `timedelta(minutes=m)`. */
  function NewFixedOffset(offsetInMinutes: int): (tz: TzInfo)
    ensures tz.FixedOffset? && Normalised(tz.offset)
    ensures TotalMicros(tz.offset) == offsetInMinutes * MICROS_PER_MINUTE
  {
    FixedOffset(FromMicros(offsetInMinutes * MICROS_PER_MINUTE))
  }

  /** `FixedOffset.utcoffset(dt)`: the stored timedelta, whatever `dt` is. */
  function FixedUtcOffset(tz: TzInfo): Timedelta
    requires tz.FixedOffset?
  {
    tz.offset
  }

  /** `getOffsetInMinutes`: `days * 24 * 60 + seconds // 60` of the stored timedelta. */
  function GetOffsetInMinutes(tz: TzInfo): int
    requires tz.FixedOffset?
  {
    tz.offset.days * 24 * 60 + tz.offset.seconds / 60
  }

  /** The minute count survives the timedelta normalisation, for negative offsets too. */
  lemma OffsetInMinutesRoundTrip(m: int)
    ensures GetOffsetInMinutes(NewFixedOffset(m)) == m
  {
    var td := NewFixedOffset(m).offset;
    var inDay := td.seconds * MICROS_PER_SECOND + td.microseconds;
    assert td.days * MICROS_PER_DAY + inDay == m * MICROS_PER_MINUTE;
    assert inDay == (m - td.days * 1440) * MICROS_PER_MINUTE;
    var q := m - td.days * 1440;
    DivModUnique(inDay, MICROS_PER_SECOND, q * 60, 0);
    assert td.seconds == q * 60;
  }

  /** `__hash__`, `__eq__`, `__lt__` and `__le__` all go through the minute count. */
  function FixedOffsetHash(tz: TzInfo): int
    requires tz.FixedOffset?
  {
    GetOffsetInMinutes(tz)
  }

  predicate FixedOffsetEq(a: TzInfo, b: TzInfo)
    requires a.FixedOffset? && b.FixedOffset?
  {
    GetOffsetInMinutes(a) == GetOffsetInMinutes(b)
  }

  predicate FixedOffsetLt(a: TzInfo, b: TzInfo)
    requires a.FixedOffset? && b.FixedOffset?
  {
    GetOffsetInMinutes(a) < GetOffsetInMinutes(b)
  }

  predicate FixedOffsetLe(a: TzInfo, b: TzInfo)
    requires a.FixedOffset? && b.FixedOffset?
  {
    GetOffsetInMinutes(a) <= GetOffsetInMinutes(b)
  }

  /** Offsets built from minute counts compare exactly as those counts do, and equal ones hash alike. */
  lemma FixedOffsetOrder(m: int, n: int)
    ensures FixedOffsetEq(NewFixedOffset(m), NewFixedOffset(n)) <==> m == n
    ensures FixedOffsetLt(NewFixedOffset(m), NewFixedOffset(n)) <==> m < n
    ensures FixedOffsetLe(NewFixedOffset(m), NewFixedOffset(n)) <==> m <= n
    ensures m == n ==> FixedOffsetHash(NewFixedOffset(m)) == FixedOffsetHash(NewFixedOffset(n))
  {
    OffsetInMinutesRoundTrip(m);
    OffsetInMinutesRoundTrip(n);
  }

  // ----- parts masks -----

  predicate HasDate(parts: bv8) { parts & DATE_PART == DATE_PART }

  /** Any of the hour, minute, second and fraction bits. */
  predicate HasAnyTime(parts: bv8) { parts & TIMEFRACSECONDS_PART != 0 }

  /** All three of the hour, minute and second bits. */
  predicate HasFullTime(parts: bv8) { parts & TIME_PART == TIME_PART }

  predicate HasOffset(parts: bv8) { parts & OFFSET_PART != 0 }

  /** The tzinfo a conversion attaches: a FixedOffset exactly when the offset bit is set. */
  function TzFromParts(parts: bv8, offset: int): (tz: Option<TzInfo>)
    ensures tz.Some? <==> HasOffset(parts)
    ensures tz.Some? ==> tz.value.FixedOffset? && GetOffsetInMinutes(tz.value) == offset
  {
    if HasOffset(parts) then
      OffsetInMinutesRoundTrip(offset);
      Some(NewFixedOffset(offset))
    else None
  }

  /**
   * `_DatetimeUtil.toPyTimeFromInts`, called from the C decoder.  When
   * neither a whole date nor any time bit is present the Python code falls
   * through to `datetime.now()`, which is the parameter `now` here.
   */
  function ToPyTimeFromInts(parts: bv8, offset: int, year: int, month: int, day: int,
                            hours: int, minutes: int, seconds: int, useconds: int,
                            now: Temporal): (r: Result<Temporal, PyDatetimeError>)
    ensures HasDate(parts) && HasAnyTime(parts) ==>
              r == MakeDateTime(year, month, day, hours, minutes, seconds, useconds,
                                TzFromParts(parts, offset))
    ensures HasDate(parts) && !HasAnyTime(parts) ==> r == MakeDate(year, month, day)
    ensures !HasDate(parts) && HasAnyTime(parts) ==>
              r == MakeTime(hours, minutes, seconds, useconds, TzFromParts(parts, offset))
    ensures !HasDate(parts) && !HasAnyTime(parts) ==> r == Ok(now)
  {
    var hasDate := HasDate(parts);
    var hasTime := HasAnyTime(parts);
    var tzinfo := TzFromParts(parts, offset);
    if hasDate && hasTime then
      MakeDateTime(year, month, day, hours, minutes, seconds, useconds, tzinfo)
    else if hasDate then
      MakeDate(year, month, day)
    else if hasTime then
      MakeTime(hours, minutes, seconds, useconds, tzinfo)
    else
      Ok(now)
  }

  /**
   * What the conversions below promise about their result: the kind of value
   * follows the two flags, a date without a time carries no offset, a time of
   * day carries the offset exactly when the offset bit is set, and the
   * microseconds are the ones computed by the caller.
   */
  predicate ShapedBy(hasDate: bool, hasTime: bool, dt: BlpDatetime, micros: int, v: Temporal) {
    && (v.DateTime? <==> hasDate && hasTime)
    && (v.DateOnly? <==> hasDate && !hasTime)
    && (v.TimeOnly? <==> !hasDate && hasTime)
    && (v.DateTime? || v.DateOnly? ==> v.date == Date(dt.year, dt.month, dt.day))
    && (v.HasTimeOfDay() ==>
          v.time == Time(dt.hours, dt.minutes, dt.seconds, micros, TzFromParts(dt.parts, dt.offset)))
  }

  /**
   * The struct's fields make a valid value: the date fields a calendar date
   * when a date is present, and the time fields (with the given microseconds)
   * in range when a time is present.  This is exactly when the `datetime`,
   * `date` or `time` constructor accepts them.
   */
  predicate FieldsValid(hasDate: bool, hasTime: bool, dt: BlpDatetime, micros: int) {
    && (hasDate ==> ValidDate(Date(dt.year, dt.month, dt.day)))
    && (hasTime ==> ValidTime(Time(dt.hours, dt.minutes, dt.seconds, micros, TzFromParts(dt.parts, dt.offset))))
  }

  datatype DatetimeObject = Plain(datetime: BlpDatetime) | HighPrecision(value: HighPrecisionDatetime)

  /** `_convertToNativeTypeHelper`: ValueError when neither a date nor a time is present. */
  function ConvertToNativeTypeHelper(hasDate: bool, hasTime: bool, dt: BlpDatetime, micros: int)
    : (r: Result<Temporal, PyDatetimeError>)
    ensures !hasDate && !hasTime ==> r.Err? && r.error.ValueError?
    ensures r.Ok? ==> ShapedBy(hasDate, hasTime, dt, micros, r.value) && ValidTemporal(r.value)
    ensures (hasDate || hasTime) && r.Err? ==> r.error.ValueError?
    ensures hasDate || hasTime ==> (r.Ok? <==> FieldsValid(hasDate, hasTime, dt, micros))
  {
    var tzinfo := TzFromParts(dt.parts, dt.offset);
    if hasDate && hasTime then
      MakeDateTime(dt.year, dt.month, dt.day, dt.hours, dt.minutes, dt.seconds, micros, tzinfo)
    else if hasDate then
      MakeDate(dt.year, dt.month, dt.day)
    else if hasTime then
      MakeTime(dt.hours, dt.minutes, dt.seconds, micros, tzinfo)
    else
      Err(ValueError("Blpapi datetime object is invalid: missing both date and time parts"))
  }

  /** The microseconds of a high-precision value: `ms * 1000 + ps // 10^6` when the fraction bit is set. */
  function HighPrecisionMicros(hp: HighPrecisionDatetime): int {
    if hp.datetime.parts & FRACSECONDS_PART != 0 then
      hp.datetime.milliSeconds * 1000 + hp.picoseconds / 1000 / 1000
    else 0
  }

  /** `_DatetimeUtil.convertToNative`: only the high-precision struct is accepted. */
  function ConvertToNative(obj: DatetimeObject): (r: Result<Temporal, PyDatetimeError>)
    ensures obj.Plain? ==> r.Err? && r.error.ValueError?
    ensures r.Ok? ==> (obj.HighPrecision? &&
              ShapedBy(HasDate(obj.value.datetime.parts), HasAnyTime(obj.value.datetime.parts),
                       obj.value.datetime, HighPrecisionMicros(obj.value), r.value))
    ensures obj.HighPrecision? && !HasDate(obj.value.datetime.parts) && !HasAnyTime(obj.value.datetime.parts) ==>
              r.Err? && r.error.ValueError?
    ensures obj.HighPrecision? && (HasDate(obj.value.datetime.parts) || HasAnyTime(obj.value.datetime.parts)) ==>
              (r.Ok? <==> FieldsValid(HasDate(obj.value.datetime.parts), HasAnyTime(obj.value.datetime.parts),
                                      obj.value.datetime, HighPrecisionMicros(obj.value)))
  {
    match obj
    case Plain(_) => Err(ValueError("Datetime object is not high precision"))
    case HighPrecision(hp) =>
      var parts := hp.datetime.parts;
      ConvertToNativeTypeHelper(HasDate(parts), HasAnyTime(parts), hp.datetime, HighPrecisionMicros(hp))
  }

  /**
   * `convertToNativeNotHighPrecision`, used for logging timestamps: a time
   * needs all three of the hour, minute and second bits, and the fraction is
   * whole milliseconds.
   */
  function ConvertToNativeNotHighPrecision(dt: BlpDatetime): (r: Result<Temporal, PyDatetimeError>)
    ensures r.Ok? ==> ShapedBy(HasDate(dt.parts), HasFullTime(dt.parts), dt,
                               if dt.parts & MILLISECONDS_PART != 0 then dt.milliSeconds * 1000 else 0,
                               r.value)
    ensures r.Ok? && r.value.HasTimeOfDay() ==> r.value.time.microsecond % 1000 == 0
    ensures !HasDate(dt.parts) && !HasFullTime(dt.parts) ==> r.Err? && r.error.ValueError?
    ensures HasDate(dt.parts) || HasFullTime(dt.parts) ==>
              (r.Ok? <==> FieldsValid(HasDate(dt.parts), HasFullTime(dt.parts), dt,
                                      if dt.parts & MILLISECONDS_PART != 0 then dt.milliSeconds * 1000 else 0))
  {
    var micros := if dt.parts & MILLISECONDS_PART != 0 then dt.milliSeconds * 1000 else 0;
    ConvertToNativeTypeHelper(HasDate(dt.parts), HasFullTime(dt.parts), dt, micros)
  }

  // ----- Python value to struct -----

  /** Python's `int(td.total_seconds() // 60)` for an offset: whole minutes, rounded down. */
  function FloorMinutes(td: Timedelta): int {
    TotalMicros(td) / MICROS_PER_MINUTE
  }

  /** A value whose time zone, if any, is a `FixedOffset` of a whole number of minutes within a day. */
  predicate MinuteTz(tz: Option<TzInfo>) {
    tz.Some? ==>
      tz.value.FixedOffset? && Normalised(tz.value.offset)
      && TotalMicros(tz.value.offset) % MICROS_PER_MINUTE == 0
      && -MICROS_PER_DAY < TotalMicros(tz.value.offset) < MICROS_PER_DAY
  }

  predicate RoundTrips(t: Temporal) {
    ValidTemporal(t) && (t.HasTimeOfDay() ==> MinuteTz(t.time.tz))
  }

  /** The struct `convertToBlpapi` builds for a value, or the exception it raises. */
  function ToBlpapi(dtime: PyValue): Result<HighPrecisionDatetime, PyDatetimeError> {
    if !dtime.PyTemporal? then
      Err(TypeError("Datetime can be created only from datetime.datetime, datetime.date or datetime.time"))
    else if dtime.t.DateOnly? then
      Ok(HighPrecisionDatetime(StructFields(dtime.t), 0))
    else
      match UtcOffset(dtime.t.time.tz)
      case Err(err) => Err(err)
      case Ok(off) => Ok(HighPrecisionDatetime(WithOffset(StructFields(dtime.t), off), SubMilliPicos(dtime.t.time.microsecond)))
  }

  /** The struct fields a value fills in before its offset is considered, with the matching `parts` bits. */
  function StructFields(t: Temporal): BlpDatetime {
    match t
    case DateOnly(d) =>
      ZERO_DATETIME.(year := d.year, month := d.month, day := d.day, parts := DATE_PART)
    case DateTime(d, tm) =>
      ZERO_DATETIME.(year := d.year, month := d.month, day := d.day,
                     hours := tm.hour, minutes := tm.minute, seconds := tm.second,
                     milliSeconds := tm.microsecond / 1000, parts := DATE_PART | TIMEFRACSECONDS_PART)
    case TimeOnly(tm) =>
      ZERO_DATETIME.(hours := tm.hour, minutes := tm.minute, seconds := tm.second,
                     milliSeconds := tm.microsecond / 1000, parts := TIMEFRACSECONDS_PART)
  }

  /** The `divmod(us, 1000)` remainder scaled by `1000 * 1000` into picoseconds. */
  function SubMilliPicos(us: int): (ps: nat)
    ensures ps < 1_000_000_000
  {
    (us % 1000) * 1000 * 1000
  }

  /** The offset, when there is one, stored in whole minutes with the offset bit ORed in. */
  function WithOffset(dt: BlpDatetime, offset: Option<Timedelta>): BlpDatetime {
    if offset.Some? then dt.(offset := FloorMinutes(offset.value), parts := dt.parts | OFFSET_PART) else dt
  }

  /**
   * What a conversion promises: a TypeError for anything that is not a date,
   * time or datetime; a date sets only the date bits; a time of day fails
   * exactly when its `utcoffset()` does; and a struct that is produced
   * carries the value's fields and offset.
   */
  lemma {:induction false} ToBlpapiCarries(dtime: PyValue)
    ensures !IsDatetime(dtime) ==> ToBlpapi(dtime).Err? && ToBlpapi(dtime).error.TypeError?
    ensures IsDatetime(dtime) && dtime.t.DateOnly? ==>
              ToBlpapi(dtime).Ok? && ToBlpapi(dtime).value.datetime.parts == DATE_PART
    ensures IsDatetime(dtime) && dtime.t.HasTimeOfDay() ==>
              (ToBlpapi(dtime).Err? <==> UtcOffset(dtime.t.time.tz).Err?)
    ensures IsDatetime(dtime) && ToBlpapi(dtime).Ok? ==>
              CarriesFields(dtime.t, ToBlpapi(dtime).value) &&
              StoresOffset(dtime.t, ToBlpapi(dtime).value.datetime)
  {
    if IsDatetime(dtime) && ToBlpapi(dtime).Ok? {
      var hp := ToBlpapi(dtime).value;
      match dtime.t
      case DateOnly(d) =>
        PartsValues(DATE_PART, false);
      case DateTime(d, t) =>
        SubSecondSplit(t.microsecond);
        PartsValues(DATE_PART | TIMEFRACSECONDS_PART, UtcOffset(t.tz).value.Some?);
      case TimeOnly(t) =>
        SubSecondSplit(t.microsecond);
        PartsValues(TIMEFRACSECONDS_PART, UtcOffset(t.tz).value.Some?);
    }
  }

  /**
   * `_DatetimeUtil.convertToBlpapi`: fills a zeroed high-precision struct field
   * by field and ORs the offset bit in when the value has a UTC offset.
   */
  method ConvertToBlpapi(dtime: PyValue) returns (r: Result<HighPrecisionDatetime, PyDatetimeError>)
    ensures r == ToBlpapi(dtime)
  {
    if !dtime.PyTemporal? {
      return Err(TypeError("Datetime can be created only from datetime.datetime, datetime.date or datetime.time"));
    }
    var res := ZERO_DATETIME;
    var picoseconds: nat := 0;
    var offset: Option<Timedelta> := None;
    match dtime.t {
      case DateTime(d, t) =>
        var off := UtcOffset(t.tz);
        if off.Err? { return Err(off.error); }
        offset := off.value;
        res := res.(year := d.year, month := d.month, day := d.day,
                    hours := t.hour, minutes := t.minute, seconds := t.second,
                    milliSeconds := t.microsecond / 1000);
        picoseconds := SubMilliPicos(t.microsecond);
        res := res.(parts := DATE_PART | TIMEFRACSECONDS_PART);
        assert res == StructFields(dtime.t);
      case DateOnly(d) =>
        res := res.(year := d.year, month := d.month, day := d.day);
        res := res.(parts := DATE_PART);
        assert res == StructFields(dtime.t);
      case TimeOnly(t) =>
        var off := UtcOffset(t.tz);
        if off.Err? { return Err(off.error); }
        offset := off.value;
        res := res.(hours := t.hour, minutes := t.minute, seconds := t.second,
                    milliSeconds := t.microsecond / 1000);
        picoseconds := SubMilliPicos(t.microsecond);
        res := res.(parts := TIMEFRACSECONDS_PART);
        assert res == StructFields(dtime.t);
    }
    ghost var fields := res;
    if offset.Some? {
      res := res.(offset := FloorMinutes(offset.value));
      res := res.(parts := res.parts | OFFSET_PART);
    }
    assert res == WithOffset(fields, offset);
    r := Ok(HighPrecisionDatetime(res, picoseconds));
  }

  /** `divmod(us, 1000)` with the remainder scaled to picoseconds loses nothing. */
  lemma SubSecondSplit(us: int)
    ensures 0 <= (us % 1000) * 1000 * 1000
    ensures (us / 1000) * 1000 + ((us % 1000) * 1000 * 1000) / 1_000_000 == us
    ensures (us / 1000) * 1000 + ((us % 1000) * 1000 * 1000) / 1000 / 1000 == us
    ensures ((us % 1000) * 1000 * 1000) % 1_000_000 == 0
  {
    var ps := (us % 1000) * 1_000_000;
    DivModUnique(ps, 1_000_000, us % 1000, 0);
    DivModUnique(ps, 1000, (us % 1000) * 1000, 0);
    DivModUnique((us % 1000) * 1000, 1000, us % 1000, 0);
  }

  /** What the masks say about the four `parts` values a conversion can produce, with and without the offset bit. */
  lemma PartsValues(p: bv8, withOffset: bool)
    requires p == DATE_PART || p == TIMEFRACSECONDS_PART || p == DATE_PART | TIMEFRACSECONDS_PART
    ensures var q := if withOffset then p | OFFSET_PART else p;
      && (HasDate(q) <==> p != TIMEFRACSECONDS_PART)
      && (HasAnyTime(q) <==> p != DATE_PART)
      && (HasAnyTime(q) ==> q & FRACSECONDS_PART != 0)
      && (HasOffset(q) <==> withOffset)
      && q & (DATE_PART | TIMEFRACSECONDS_PART) == p
  {
  }

  /**
   * A struct carries a value when the masks announce exactly the components
   * the value has and every field of those components is copied, the
   * sub-second part split so that it adds back up to the microseconds.
   */
  predicate CarriesFields(t: Temporal, hp: HighPrecisionDatetime) {
    var dt := hp.datetime;
    && (HasDate(dt.parts) <==> !t.TimeOnly?)
    && (HasAnyTime(dt.parts) <==> t.HasTimeOfDay())
    && (!t.TimeOnly? ==> dt.year == t.date.year && dt.month == t.date.month && dt.day == t.date.day)
    && (t.HasTimeOfDay() ==>
          && dt.parts & FRACSECONDS_PART != 0
          && dt.hours == t.time.hour && dt.minutes == t.time.minute && dt.seconds == t.time.second
          && dt.milliSeconds * 1000 + hp.picoseconds / 1000 / 1000 == t.time.microsecond
          && hp.picoseconds % 1_000_000 == 0)
  }

  /**
   * The offset bit is set exactly when the value's `utcoffset()` is not None,
   * and then the offset field holds that offset in whole minutes, rounded down.
   */
  predicate StoresOffset(t: Temporal, dt: BlpDatetime) {
    t.HasTimeOfDay() ==>
      UtcOffset(t.time.tz).Ok?
      && (HasOffset(dt.parts) <==> UtcOffset(t.time.tz).value.Some?)
      && (HasOffset(dt.parts) ==> dt.offset == FloorMinutes(UtcOffset(t.time.tz).value.value))
  }

  /** A struct that carries a valid value converts back to exactly that value. */
  lemma ConvertedRoundTrip(t: Temporal, hp: HighPrecisionDatetime)
    requires RoundTrips(t) && CarriesFields(t, hp) && StoresOffset(t, hp.datetime)
    ensures ConvertToNative(HighPrecision(hp)) == Ok(t)
  {
    if t.HasTimeOfDay() {
      RoundTripTz(t, hp.datetime);
    }
  }

  /** The time zone a converted value comes back with is the one it went in with. */
  lemma RoundTripTz(t: Temporal, res: BlpDatetime)
    requires RoundTrips(t) && t.HasTimeOfDay()
    requires UtcOffset(t.time.tz).Ok?
    requires HasOffset(res.parts) <==> UtcOffset(t.time.tz).value.Some?
    requires HasOffset(res.parts) ==> res.offset == FloorMinutes(UtcOffset(t.time.tz).value.value)
    ensures TzFromParts(res.parts, res.offset) == t.time.tz
  {
    if t.time.tz.Some? {
      var td := t.time.tz.value.offset;
      var m := TotalMicros(td) / MICROS_PER_MINUTE;
      assert TotalMicros(td) == m * MICROS_PER_MINUTE;
      FromMicrosOfTotal(td);
    }
  }

  /**
   * The same struct also comes back as the value through `toPyTimeFromInts`,
   * the path the C decoder takes, with the microseconds computed as it does.
   */
  lemma ToPyTimeRoundTrip(t: Temporal, hp: HighPrecisionDatetime, now: Temporal)
    requires RoundTrips(t) && CarriesFields(t, hp) && StoresOffset(t, hp.datetime)
    ensures hp.datetime.parts != 0
    ensures ToPyTimeFromInts(hp.datetime.parts, hp.datetime.offset, hp.datetime.year, hp.datetime.month,
                             hp.datetime.day, hp.datetime.hours, hp.datetime.minutes, hp.datetime.seconds,
                             hp.datetime.milliSeconds * 1000 + hp.picoseconds / 1000000, now) == Ok(t)
  {
    var dt := hp.datetime;
    assert HasDate(dt.parts) || HasAnyTime(dt.parts);
    if t.HasTimeOfDay() {
      assert hp.picoseconds / 1000000 == hp.picoseconds / 1000 / 1000;
      RoundTripTz(t, dt);
    }
  }
}
