/**
 * `EntityFactory._format_datetime`: a Python `datetime` rebuilt from its
 * calendar fields down to the second (which drops the microseconds and the
 * time zone) and rendered as `YYYY-MM-DDTHH:MM:SS` followed by `Z`, the
 * `date-time` form with a `Z` offset of section 5.6 of RFC 3339.
 */
module DateFormat {
  import opened Wrappers
  import opened Text

  /** A Python `datetime`; `utcOffset` is the offset of its `tzinfo` in seconds, if it has one. */
  datatype DateTime = DateTime(
    year: int, month: int, day: int,
    hour: int, minute: int, second: int,
    microsecond: int, utcOffset: Option<int>)

  predicate IsLeapYear(y: int) {
    y % 4 == 0 && (y % 100 != 0 || y % 400 == 0)
  }

  function DaysInMonth(y: int, m: int): int
    requires 1 <= m <= 12
  {
    if m == 2 then (if IsLeapYear(y) then 29 else 28)
    else if m == 4 || m == 6 || m == 9 || m == 11 then 30
    else 31
  }

  /** The field ranges every Python `datetime` keeps (`MINYEAR` is 1, `MAXYEAR` 9999). */
  predicate Valid(dt: DateTime) {
    && 1 <= dt.year <= 9999
    && 1 <= dt.month <= 12
    && 1 <= dt.day <= DaysInMonth(dt.year, dt.month)
    && 0 <= dt.hour < 24
    && 0 <= dt.minute < 60
    && 0 <= dt.second < 60
    && 0 <= dt.microsecond < 1000000
  }

  /** `datetime(dt.year, dt.month, dt.day, dt.hour, dt.minute, dt.second)`. */
  function Truncate(dt: DateTime): (r: DateTime)
    ensures Valid(dt) ==> Valid(r)
    ensures r.microsecond == 0 && r.utcOffset.None?
    ensures r.(microsecond := dt.microsecond, utcOffset := dt.utcOffset) == dt
  {
    dt.(microsecond := 0, utcOffset := None)
  }

  /** `_format_datetime(dt)`. */
  function FormatDateTime(dt: DateTime): (s: string)
    requires Valid(dt)
    ensures |s| == 20
    ensures s[4] == '-' && s[7] == '-' && s[10] == 'T' && s[13] == ':' && s[16] == ':'
    ensures s[19] == 'Z'
  {
    var t := Truncate(dt);
    PadDigits(t.year, 4) + "-" + PadDigits(t.month, 2) + "-" + PadDigits(t.day, 2)
    + "T" + PadDigits(t.hour, 2) + ":" + PadDigits(t.minute, 2) + ":" + PadDigits(t.second, 2)
    + "Z"
  }

  /** Reads back a `YYYY-MM-DDTHH:MM:SSZ` string; the inverse of the formatter. */
  function ParseDateTime(s: string): (r: Option<DateTime>)
    ensures r.Some? ==> Valid(r.value) && r.value == Truncate(r.value)
  {
    if |s| == 20 && s[4] == '-' && s[7] == '-' && s[10] == 'T' && s[13] == ':' && s[16] == ':'
      && s[19] == 'Z'
      && AllDigits(s[0..4]) && AllDigits(s[5..7]) && AllDigits(s[8..10])
      && AllDigits(s[11..13]) && AllDigits(s[14..16]) && AllDigits(s[17..19])
    then
      var dt := DateTime(
        DigitsValue(s[0..4]), DigitsValue(s[5..7]), DigitsValue(s[8..10]),
        DigitsValue(s[11..13]), DigitsValue(s[14..16]), DigitsValue(s[17..19]),
        0, None);
      if Valid(dt) then Some(dt) else None
    else None
  }

  /** Formatting keeps every field down to the second: parsing gives the truncated value back. */
  lemma FormatRoundTrip(dt: DateTime)
    requires Valid(dt)
    ensures ParseDateTime(FormatDateTime(dt)) == Some(Truncate(dt))
  {
    var s := FormatDateTime(dt);
    assert s[0..4] == PadDigits(dt.year, 4);
    assert s[5..7] == PadDigits(dt.month, 2);
    assert s[8..10] == PadDigits(dt.day, 2);
    assert s[11..13] == PadDigits(dt.hour, 2);
    assert s[14..16] == PadDigits(dt.minute, 2);
    assert s[17..19] == PadDigits(dt.second, 2);
    PadDigitsRoundTrip(dt.year, 4);
    PadDigitsRoundTrip(dt.month, 2);
    PadDigitsRoundTrip(dt.day, 2);
    PadDigitsRoundTrip(dt.hour, 2);
    PadDigitsRoundTrip(dt.minute, 2);
    PadDigitsRoundTrip(dt.second, 2);
  }

  /**
   * Two datetimes render the same string exactly when they agree down to the
   * second: microseconds and time zone are lost, nothing else is.
   */
  lemma FormatSameIff(a: DateTime, b: DateTime)
    requires Valid(a) && Valid(b)
    ensures FormatDateTime(a) == FormatDateTime(b) <==> Truncate(a) == Truncate(b)
  {
    FormatRoundTrip(a);
    FormatRoundTrip(b);
  }
}
