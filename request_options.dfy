/**
 * The request options of the demo applications (util/RequestOptions.py):
 * the `-O fieldId=value` override action, the defaults filled into options
 * the user left empty, and the default time window, which starts at 14:30
 * on the previous trading day.  `datetime.today()` is a parameter.
 */
module RequestOptions {
  import opened Wrappers
  import opened Text

  const INTRADAY_BAR_REQUEST: string := "IntradayBarRequest"
  const REFERENCE_DATA_REQUEST_OVERRIDE: string := "ReferenceDataRequestOverride"
  const REFERENCE_DATA_REQUEST_TABLE_OVERRIDE: string := "ReferenceDataRequestTableOverride"

  datatype Override = Override(fieldId: string, value: string)

  /**
   * A naive `datetime.datetime`: the date as its proleptic Gregorian
   * ordinal (`date.toordinal()`, 1 for 0001-01-01) and the time of day.
   */
  datatype DateTime = DateTime(ordinal: int, hour: int, minute: int, second: int, microsecond: int)

  /** The ordinal of 9999-12-31, the last day `datetime` can hold. */
  const MAX_ORDINAL: int := 3652059

  predicate ValidDateTime(dt: DateTime) {
    1 <= dt.ordinal <= MAX_ORDINAL && 0 <= dt.hour < 24 && 0 <= dt.minute < 60 &&
    0 <= dt.second < 60 && 0 <= dt.microsecond < 1000000
  }

  /** `date.weekday()`: Monday is 0 and Sunday 6; 0001-01-01 was a Monday. */
  function Weekday(ordinal: int): int { (ordinal + 6) % 7 }

  predicate IsWeekend(ordinal: int) { Weekday(ordinal) == 5 || Weekday(ordinal) == 6 }

  /** The whole minutes from the start of day 0 to `dt`. */
  function MinuteCount(dt: DateTime): int { dt.ordinal * 1440 + dt.hour * 60 + dt.minute }

  /**
   * `dt + timedelta(minutes=m)`: whole minutes leave the seconds and the
   * microseconds alone and carry into the date; past 9999-12-31 it is an
   * OverflowError.
   */
  function AddMinutes(dt: DateTime, m: nat): (r: Result<DateTime, string>)
    requires ValidDateTime(dt)
    ensures r.Ok? <==> MinuteCount(dt) + m < (MAX_ORDINAL + 1) * 1440
    ensures r.Ok? ==> ValidDateTime(r.value) && MinuteCount(r.value) == MinuteCount(dt) + m
    ensures r.Ok? ==> r.value.second == dt.second && r.value.microsecond == dt.microsecond
    ensures r.Err? ==> r.error == "OverflowError: date value out of range"
  {
    var minutes := dt.hour * 60 + dt.minute + m;
    var day := dt.ordinal + minutes / 1440;
    var rest := minutes % 1440;
    if day > MAX_ORDINAL then Err("OverflowError: date value out of range")
    else Ok(dt.(ordinal := day, hour := rest / 60, minute := rest % 60))
  }

  /** Minutes that do not reach midnight move only the clock. */
  lemma AddMinutesSameDay(dt: DateTime, m: nat)
    requires ValidDateTime(dt) && dt.hour * 60 + dt.minute + m < 1440
    ensures AddMinutes(dt, m)
            == Ok(dt.(hour := (dt.hour * 60 + dt.minute + m) / 60, minute := (dt.hour * 60 + dt.minute + m) % 60))
  {
  }

  /** `dt - timedelta(days=n)`, or OverflowError before 0001-01-01. */
  function SubtractDays(dt: DateTime, n: nat): (r: Result<DateTime, string>)
    requires ValidDateTime(dt)
    ensures r.Ok? <==> dt.ordinal - n >= 1
    ensures r.Ok? ==> r.value == dt.(ordinal := dt.ordinal - n) && ValidDateTime(r.value)
  {
    if dt.ordinal - n < 1 then Err("OverflowError: date value out of range")
    else Ok(dt.(ordinal := dt.ordinal - n))
  }

  /** `day` is the latest weekday before `today`: every day between them falls on a weekend. */
  predicate PreviousTradingDay(day: int, today: int) {
    day < today && !IsWeekend(day) && forall d :: day < d < today ==> IsWeekend(d)
  }

  /** At most two weekend days lie between the previous trading day and today, and it is unique. */
  lemma PreviousTradingDayProperties(day: int, other: int, today: int)
    requires PreviousTradingDay(day, today)
    ensures 1 <= today - day <= 3
    ensures PreviousTradingDay(other, today) ==> other == day
  {
    if today - day > 3 {
      NoThreeWeekendDays(day + 1);
    }
  }

  /** Of three consecutive days one is a weekday. */
  lemma NoThreeWeekendDays(d: int)
    ensures !IsWeekend(d) || !IsWeekend(d + 1) || !IsWeekend(d + 2)
  {
  }

  /**
   * `computeDefaultStartAndEndDateTime`: the day before `today`, moved back
   * to the Friday when it is a Saturday or a Sunday, at 14:30:00 (the
   * microseconds of `today` are kept, as `replace` leaves them); the bar
   * window ends 60 minutes later and the tick window 5 minutes later.
   */
  method ComputeDefaultStartAndEndDateTime(today: DateTime) returns (r: Result<(DateTime, DateTime, DateTime), string>)
    requires ValidDateTime(today)
    ensures r.Ok? <==> today.ordinal > 1
    ensures r.Ok? ==> var (start, barEnd, tickEnd) := r.value;
              PreviousTradingDay(start.ordinal, today.ordinal) &&
              start == DateTime(start.ordinal, 14, 30, 0, today.microsecond) &&
              barEnd == start.(hour := 15, minute := 30) &&
              tickEnd == start.(minute := 35)
  {
    var previousTradingDate := SubtractDays(today, 1);
    if previousTradingDate.Err? {
      return Err(previousTradingDate.error);
    }
    if Weekday(previousTradingDate.value.ordinal) == 5 {
      previousTradingDate := SubtractDays(previousTradingDate.value, 1);
    } else if Weekday(previousTradingDate.value.ordinal) == 6 {
      previousTradingDate := SubtractDays(previousTradingDate.value, 2);
    }
    if previousTradingDate.Err? {
      // 0001-01-01 is a Monday, so no day before it is a weekend day.
      assert false;
      return Err("OverflowError: date value out of range");
    }
    var startDateTime := previousTradingDate.value.(hour := 14, minute := 30, second := 0);
    AddMinutesSameDay(startDateTime, 60);
    AddMinutesSameDay(startDateTime, 5);
    var barEnd := AddMinutes(startDateTime, 60);
    var tickEnd := AddMinutes(startDateTime, 5);
    r := Ok((startDateTime, barEnd.value, tickEnd.value));
  }

  /** The default end on `day`: 15:30 for bar requests and 14:35 otherwise, with `today`'s microseconds. */
  function DefaultEnd(day: int, requestType: string, today: DateTime): DateTime {
    if requestType == INTRADAY_BAR_REQUEST then DateTime(day, 15, 30, 0, today.microsecond)
    else DateTime(day, 14, 35, 0, today.microsecond)
  }

  /**
   * The date window after `setDefaultValues`: it fails only when a bound is
   * missing and today is 0001-01-01; a bound the user gave is kept; a
   * missing start becomes the previous trading day at 14:30:00 and a missing
   * end the default end on that day.
   */
  predicate WindowDefaulted(requestType: string, today: DateTime,
                            oldStart: Option<DateTime>, oldEnd: Option<DateTime>,
                            start: Option<DateTime>, end: Option<DateTime>, ok: bool)
  {
    && (!ok <==> (oldStart.None? || oldEnd.None?) && today.ordinal == 1)
    && (oldStart.Some? ==> start == oldStart)
    && (oldEnd.Some? ==> end == oldEnd)
    && (ok ==> start.Some? && end.Some?)
    && (ok && oldStart.None? ==>
          PreviousTradingDay(start.value.ordinal, today.ordinal) &&
          start.value == DateTime(start.value.ordinal, 14, 30, 0, today.microsecond))
    && (ok && oldEnd.None? ==>
          PreviousTradingDay(end.value.ordinal, today.ordinal) &&
          end.value == DefaultEnd(end.value.ordinal, requestType, today))
  }

  /** When both bounds are defaulted they fall on the same day, 60 minutes apart for bar requests and 5 otherwise. */
  lemma DefaultWindowLength(requestType: string, today: DateTime,
                            start: Option<DateTime>, end: Option<DateTime>)
    requires WindowDefaulted(requestType, today, None, None, start, end, true)
    ensures start.value.ordinal == end.value.ordinal
    ensures MinuteCount(end.value) == MinuteCount(start.value) + (if requestType == INTRADAY_BAR_REQUEST then 60 else 5)
  {
    PreviousTradingDayProperties(start.value.ordinal, end.value.ordinal, today.ordinal);
  }

  /** `-O fieldId=value`: the text cut at its first "="; a text without "=" raises IndexError. */
  function OverrideFor(values: string): (r: Result<Override, string>)
    ensures r.Ok? <==> '=' in values
    ensures r.Ok? ==> values == r.value.fieldId + "=" + r.value.value && '=' !in r.value.fieldId
  {
    var vals := SplitOnce(values, '=');
    if |vals| < 2 then Err("IndexError: list index out of range") else Ok(Override(vals[0], vals[1]))
  }

  /** A field id without "=" and any value, "=" signs included, are read back from `fieldId=value`. */
  lemma OverrideRoundTrip(fieldId: string, value: string)
    requires '=' !in fieldId
    ensures OverrideFor(fieldId + "=" + value) == Ok(Override(fieldId, value))
  {
    SplitOnceAt(fieldId, '=', value);
  }

  /** The securities used when none is given. */
  function DefaultSecurities(requestType: string): seq<string> {
    if requestType == REFERENCE_DATA_REQUEST_TABLE_OVERRIDE then ["FHR 3709 FA Mtge"]
    else ["IBM US Equity", "MSFT US Equity"]
  }

  /** The fields used when none is given. */
  function DefaultFields(requestType: string): seq<string> {
    if requestType == REFERENCE_DATA_REQUEST_TABLE_OVERRIDE then ["MTG_CASH_FLOW", "SETTLE_DT"]
    else if requestType == REFERENCE_DATA_REQUEST_OVERRIDE then ["PX_LAST", "DS002", "EQY_WEIGHTED_AVG_PX"]
    else ["PX_LAST"]
  }

  /** The parsed command line options a request is built from. */
  class Options {
    var requestType: string
    var eventTypes: seq<string>
    var securities: seq<string>
    var fields: seq<string>
    var overrides: seq<Override>
    var startDateTime: Option<DateTime>
    var endDateTime: Option<DateTime>

    /** The argument parser's defaults: empty lists and no start or end. */
    constructor(requestType: string)
      ensures this.requestType == requestType
      ensures eventTypes == [] && securities == [] && fields == [] && overrides == []
      ensures startDateTime == None && endDateTime == None
    {
      this.requestType := requestType;
      eventTypes := [];
      securities := [];
      fields := [];
      overrides := [];
      startDateTime := None;
      endDateTime := None;
    }

    /** `OverridesAction`: one override appended; nothing else changes. */
    method OverridesAction(values: string) returns (r: Result<Override, string>)
      modifies this
      ensures r == OverrideFor(values)
      ensures overrides == old(overrides) + (if r.Ok? then [r.value] else [])
      ensures requestType == old(requestType) && eventTypes == old(eventTypes) && securities == old(securities)
      ensures fields == old(fields) && startDateTime == old(startDateTime) && endDateTime == old(endDateTime)
    {
      var vals := SplitOnce(values, '=');
      if |vals| < 2 {
        return Err("IndexError: list index out of range");
      }
      overrides := overrides + [Override(vals[0], vals[1])];
      r := Ok(Override(vals[0], vals[1]));
    }

    /**
     * `setDefaultValues`: every option the user left empty gets its default
     * for the request type, and no option the user gave is changed; the
     * default window is computed only when the start or the end is missing,
     * and the end is the bar window's for bar requests and the tick
     * window's otherwise.
     */
    method SetDefaultValues(today: DateTime) returns (r: Result<(), string>)
      requires ValidDateTime(today)
      modifies this
      ensures requestType == old(requestType)
      ensures eventTypes == if old(eventTypes) == [] then ["TRADE"] else old(eventTypes)
      ensures securities == if old(securities) == [] then DefaultSecurities(requestType) else old(securities)
      ensures fields == if old(fields) == [] then DefaultFields(requestType) else old(fields)
      ensures overrides == if old(overrides) == [] && requestType == REFERENCE_DATA_REQUEST_OVERRIDE
                           then [Override("VWAP_START_TIME", "9:30"), Override("VWAP_END_TIME", "11:30")]
                           else old(overrides)
      ensures WindowDefaulted(requestType, today, old(startDateTime), old(endDateTime),
                              startDateTime, endDateTime, r.Ok?)
    {
      if eventTypes == [] {
        eventTypes := ["TRADE"];
      }
      if securities == [] {
        securities := DefaultSecurities(requestType);
      }
      if fields == [] {
        fields := DefaultFields(requestType);
      }
      if overrides == [] && requestType == REFERENCE_DATA_REQUEST_OVERRIDE {
        overrides := [Override("VWAP_START_TIME", "9:30"), Override("VWAP_END_TIME", "11:30")];
      }
      r := SetDefaultWindow(today);
    }

    /** The date part of `setDefaultValues`: a missing start or end is filled from the default window. */
    method SetDefaultWindow(today: DateTime) returns (r: Result<(), string>)
      requires ValidDateTime(today)
      modifies this
      ensures requestType == old(requestType) && eventTypes == old(eventTypes) && securities == old(securities)
      ensures fields == old(fields) && overrides == old(overrides)
      ensures WindowDefaulted(requestType, today, old(startDateTime), old(endDateTime),
                              startDateTime, endDateTime, r.Ok?)
    {
      r := Ok(());
      if startDateTime.None? || endDateTime.None? {
        var defaults := ComputeDefaultStartAndEndDateTime(today);
        if defaults.Err? {
          return Err(defaults.error);
        }
        var (defaultStart, defaultBarEnd, defaultTickEnd) := defaults.value;
        if startDateTime.None? {
          startDateTime := Some(defaultStart);
        }
        if endDateTime.None? {
          endDateTime := Some(if requestType == INTRADAY_BAR_REQUEST then defaultBarEnd else defaultTickEnd);
        }
      }
    }
  }
}
