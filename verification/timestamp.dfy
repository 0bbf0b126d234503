/**
 * Timestamp: a calendar-validated naive date-time (proleptic Gregorian calendar,
 * microsecond precision), its order and its ISO 8601 extended text form.
 */
module Timestamps {
  import opened Results
  import opened DecimalText

  /** Python's `datetime.MINYEAR` and `datetime.MAXYEAR`. */
  const MinYear: int := 1
  const MaxYear: int := 9999

  predicate IsLeapYear(year: int) {
    year % 4 == 0 && (year % 100 != 0 || year % 400 == 0)
  }

  function DaysInMonth(year: int, month: int): (r: int)
    requires 1 <= month <= 12
    ensures 28 <= r <= 31
    ensures month == 2 ==> (r == 29 <==> IsLeapYear(year))
  {
    if month == 2 then (if IsLeapYear(year) then 29 else 28)
    else if month == 4 || month == 6 || month == 9 || month == 11 then 30
    else 31
  }

  datatype DateTime = DateTime(year: int, month: int, day: int,
                               hour: int, minute: int, second: int, microsecond: int)

  /** What `date(year, month, day)` and `time(hour, minute, second, microsecond)` accept. */
  predicate ValidDateTime(d: DateTime) {
    && MinYear <= d.year <= MaxYear
    && 1 <= d.month <= 12
    && 1 <= d.day <= DaysInMonth(d.year, d.month)
    && 0 <= d.hour < 24
    && 0 <= d.minute < 60
    && 0 <= d.second < 60
    && 0 <= d.microsecond < 1000000
  }

  /** A Timestamp is always a real calendar date and time of day. */
  type Timestamp = d: DateTime | ValidDateTime(d) witness DateTime(1, 1, 1, 0, 0, 0, 0)

  /**
   * `Timestamp.from_components`: ValueError unless the components form a valid date
   * and time; the year ... microsecond properties then return the components.
   */
  function FromComponents(year: int, month: int, day: int,
                          hour: int, minute: int, second: int, microsecond: int): (r: Result<Timestamp>)
    ensures r.Ok? <==>
      && 1 <= year <= 9999 && 1 <= month <= 12 && 1 <= day <= DaysInMonth(year, month)
      && 0 <= hour <= 23 && 0 <= minute <= 59 && 0 <= second <= 59 && 0 <= microsecond <= 999999
    ensures r.Ok? ==>
      && r.value.year == year && r.value.month == month && r.value.day == day
      && r.value.hour == hour && r.value.minute == minute && r.value.second == second
      && r.value.microsecond == microsecond
    ensures r.Err? ==> r.error == ValueError(InvalidDate)
  {
    var d := DateTime(year, month, day, hour, minute, second, microsecond);
    if ValidDateTime(d) then Ok(d) else Err(ValueError(InvalidDate))
  }

  /** February 29 exists exactly in the Gregorian leap years. */
  lemma LeapDay(year: int)
    requires MinYear <= year <= MaxYear
    ensures FromComponents(year, 2, 29, 0, 0, 0, 0).Ok? <==> IsLeapYear(year)
  {
  }

  lemma FromComponentsExamples()
    ensures FromComponents(2025, 13, 1, 0, 0, 0, 0) == Err(ValueError(InvalidDate))
    ensures FromComponents(2025, 2, 30, 0, 0, 0, 0) == Err(ValueError(InvalidDate))
    ensures FromComponents(2025, 1, 1, 24, 0, 0, 0) == Err(ValueError(InvalidDate))
    ensures FromComponents(2024, 2, 29, 0, 0, 0, 0).Ok?
    ensures FromComponents(1900, 2, 29, 0, 0, 0, 0).Err?
    ensures FromComponents(2000, 2, 29, 0, 0, 0, 0).Ok?
    ensures FromComponents(2025, 12, 31, 23, 59, 59, 123456) == Ok(DateTime(2025, 12, 31, 23, 59, 59, 123456))
  {
  }

  /*
   * Order. `__lt__` compares the two datetimes, i.e. the component tuples
   * lexicographically; `functools.total_ordering` derives the other three from
   * `__lt__` and `__eq__` (`<=` is lt-or-eq, `>` is neither, `>=` is not-lt).
   */

  predicate Lt(a: Timestamp, b: Timestamp) {
    if a.year != b.year then a.year < b.year
    else if a.month != b.month then a.month < b.month
    else if a.day != b.day then a.day < b.day
    else if a.hour != b.hour then a.hour < b.hour
    else if a.minute != b.minute then a.minute < b.minute
    else if a.second != b.second then a.second < b.second
    else a.microsecond < b.microsecond
  }

  predicate Le(a: Timestamp, b: Timestamp) { Lt(a, b) || a == b }

  predicate Gt(a: Timestamp, b: Timestamp) { !Lt(a, b) && a != b }

  predicate Ge(a: Timestamp, b: Timestamp) { !Lt(a, b) }

  /** The derived operators form a total order, and `>`/`>=` are the converses of `<`/`<=`. */
  lemma TotalOrder(a: Timestamp, b: Timestamp, c: Timestamp)
    ensures Le(a, a)
    ensures Le(a, b) && Le(b, a) ==> a == b
    ensures Le(a, b) && Le(b, c) ==> Le(a, c)
    ensures Le(a, b) || Le(b, a)
    ensures Gt(a, b) <==> Lt(b, a)
    ensures Ge(a, b) <==> Le(b, a)
    ensures !(Lt(a, b) && Lt(b, a))
  {
  }

  /*
   * An independent chronological reading of a timestamp: microseconds elapsed since
   * 0001-01-01T00:00:00 in the proleptic Gregorian calendar.
   */

  function YearLength(year: int): int { if IsLeapYear(year) then 366 else 365 }

  function DaysBeforeYear(year: int): nat
    requires year >= 1
  {
    if year == 1 then 0 else DaysBeforeYear(year - 1) + YearLength(year - 1)
  }

  /** Days of the year that precede the first of `month`. */
  function DaysBeforeMonth(year: int, month: int): nat
    requires 1 <= month <= 12
  {
    var common :=
      if month == 1 then 0 else if month == 2 then 31 else if month == 3 then 59
      else if month == 4 then 90 else if month == 5 then 120 else if month == 6 then 151
      else if month == 7 then 181 else if month == 8 then 212 else if month == 9 then 243
      else if month == 10 then 273 else if month == 11 then 304 else 334;
    common + (if month > 2 && IsLeapYear(year) then 1 else 0)
  }

  function DayNumber(t: Timestamp): nat {
    DaysBeforeYear(t.year) + DaysBeforeMonth(t.year, t.month) + t.day - 1
  }

  const MicrosPerDay: int := 86400000000

  function TimeOfDay(t: Timestamp): (r: nat)
    ensures r < MicrosPerDay
  {
    ((t.hour * 60 + t.minute) * 60 + t.second) * 1000000 + t.microsecond
  }

  function Instant(t: Timestamp): nat {
    DayNumber(t) * MicrosPerDay + TimeOfDay(t)
  }

  lemma {:induction false} YearsAscend(y1: int, y2: int)
    requires 1 <= y1 < y2
    ensures DaysBeforeYear(y1) + YearLength(y1) <= DaysBeforeYear(y2)
    decreases y2
  {
    if y2 > y1 + 1 {
      YearsAscend(y1, y2 - 1);
    }
  }

  lemma MonthStep(year: int, month: int)
    requires 1 <= month < 12
    ensures DaysBeforeMonth(year, month) + DaysInMonth(year, month) == DaysBeforeMonth(year, month + 1)
  {
  }

  lemma {:induction false} MonthsAscend(year: int, m1: int, m2: int)
    requires 1 <= m1 < m2 <= 12
    ensures DaysBeforeMonth(year, m1) + DaysInMonth(year, m1) <= DaysBeforeMonth(year, m2)
    decreases m2
  {
    MonthStep(year, m2 - 1);
    if m2 > m1 + 1 {
      MonthsAscend(year, m1, m2 - 1);
    }
  }

  /** Every day of a year is numbered below the first day of the next. */
  lemma DayWithinYear(t: Timestamp)
    ensures DayNumber(t) < DaysBeforeYear(t.year) + YearLength(t.year)
  {
    if t.month < 12 {
      MonthsAscend(t.year, t.month, 12);
    }
  }

  lemma EarlierDay(a: Timestamp, b: Timestamp)
    requires DayNumber(a) < DayNumber(b)
    ensures Instant(a) < Instant(b)
  {
    assert DayNumber(a) * MicrosPerDay + MicrosPerDay <= DayNumber(b) * MicrosPerDay;
  }

  lemma LtIsEarlier(a: Timestamp, b: Timestamp)
    requires Lt(a, b)
    ensures Instant(a) < Instant(b)
  {
    if a.year != b.year {
      DayWithinYear(a);
      YearsAscend(a.year, b.year);
      EarlierDay(a, b);
    } else if a.month != b.month {
      MonthsAscend(a.year, a.month, b.month);
      EarlierDay(a, b);
    } else if a.day != b.day {
      EarlierDay(a, b);
    } else {
      assert DayNumber(a) == DayNumber(b);
    }
  }

  /** `<` is exactly chronological order. */
  lemma LtIsChronological(a: Timestamp, b: Timestamp)
    ensures Lt(a, b) <==> Instant(a) < Instant(b)
  {
    if Lt(a, b) {
      LtIsEarlier(a, b);
    } else if a != b {
      LtIsEarlier(b, a);
    }
  }

  /*
   * ISO 8601 extended format, as `datetime.isoformat()` prints it:
   * YYYY-MM-DDTHH:MM:SS, followed by .ffffff only when the microsecond is not zero.
   */

  function DateText(t: Timestamp): (r: string)
    ensures |r| == 10
    ensures r[0..4] == Padded(t.year, 4) && r[4] == '-' && r[5..7] == Padded(t.month, 2)
    ensures r[7] == '-' && r[8..10] == Padded(t.day, 2)
    ensures forall i :: 0 <= i < |r| ==> r[i] != 'T'
    ensures forall i :: 0 <= i < |r| ==> IsDigit(r[i]) || r[i] == '-'
  {
    Padded(t.year, 4) + "-" + Padded(t.month, 2) + "-" + Padded(t.day, 2)
  }

  function TimeText(t: Timestamp): (r: string)
    ensures |r| == 8
    ensures r[0..2] == Padded(t.hour, 2) && r[2] == ':' && r[3..5] == Padded(t.minute, 2)
    ensures r[5] == ':' && r[6..8] == Padded(t.second, 2)
  {
    Padded(t.hour, 2) + ":" + Padded(t.minute, 2) + ":" + Padded(t.second, 2)
  }

  /** `Timestamp.to_isoformat`. */
  function ToIsoFormat(t: Timestamp): (r: string)
    ensures |r| == (if t.microsecond == 0 then 19 else 26)
    ensures r[..10] == DateText(t) && r[10] == 'T' && r[11..19] == TimeText(t)
    ensures t.microsecond != 0 ==> r[19] == '.' && r[20..26] == Padded(t.microsecond, 6)
  {
    DateText(t) + "T" + TimeText(t) + (if t.microsecond != 0 then "." + Padded(t.microsecond, 6) else "")
  }

  predicate DateShape(s: string) {
    && |s| >= 10
    && AllDigits(s[0..4]) && s[4] == '-' && AllDigits(s[5..7]) && s[7] == '-' && AllDigits(s[8..10])
  }

  predicate TimeShape(s: string) {
    && |s| >= 19
    && s[10] == 'T' && AllDigits(s[11..13]) && s[13] == ':' && AllDigits(s[14..16])
    && s[16] == ':' && AllDigits(s[17..19])
  }

  predicate FractionShape(s: string) {
    |s| == 26 && s[19] == '.' && AllDigits(s[20..26])
  }

  /** Text laid out as YYYY-MM-DD, YYYY-MM-DDTHH:MM:SS or YYYY-MM-DDTHH:MM:SS.ffffff. */
  predicate IsoShape(s: string) {
    && (|s| == 10 || |s| == 19 || |s| == 26)
    && DateShape(s)
    && (|s| > 10 ==> TimeShape(s))
    && (|s| == 26 ==> FractionShape(s))
  }

  /** The components an ISO-shaped text spells out; an absent time part is midnight. */
  function IsoFields(s: string): DateTime
    requires IsoShape(s)
  {
    DateTime(DigitsValue(s[0..4]), DigitsValue(s[5..7]), DigitsValue(s[8..10]),
             if |s| > 10 then DigitsValue(s[11..13]) else 0,
             if |s| > 10 then DigitsValue(s[14..16]) else 0,
             if |s| > 10 then DigitsValue(s[17..19]) else 0,
             if |s| == 26 then DigitsValue(s[20..26]) else 0)
  }

  /**
   * `Timestamp.from_isoformat`: ValueError for text that is not ISO-shaped or that
   * names no real date and time.
   */
  function FromIsoFormat(s: string): (r: Result<Timestamp>)
    ensures r.Ok? <==> IsoShape(s) && ValidDateTime(IsoFields(s))
    ensures r.Ok? ==> r.value == IsoFields(s)
    ensures r.Err? ==> r.error == ValueError(InvalidIsoFormat)
  {
    if IsoShape(s) && ValidDateTime(IsoFields(s)) then Ok(IsoFields(s))
    else Err(ValueError(InvalidIsoFormat))
  }

  /** `from_isoformat(to_isoformat(t)) == t`. */
  lemma IsoRoundTrip(t: Timestamp)
    ensures FromIsoFormat(ToIsoFormat(t)) == Ok(t)
  {
    var s := ToIsoFormat(t);
    var d := DateText(t);
    var h := TimeText(t);
    assert s[0..4] == d[0..4] && s[5..7] == d[5..7] && s[8..10] == d[8..10] by {
      assert s[..10] == d;
    }
    assert s[11..13] == h[0..2] && s[14..16] == h[3..5] && s[17..19] == h[6..8] by {
      assert s[11..19] == h;
    }
    assert Pow10(2) == 100 && Pow10(4) == 10000 && Pow10(6) == 1000000;
    PaddedValue(t.year, 4);
    PaddedValue(t.month, 2);
    PaddedValue(t.day, 2);
    PaddedValue(t.hour, 2);
    PaddedValue(t.minute, 2);
    PaddedValue(t.second, 2);
    if t.microsecond != 0 {
      PaddedValue(t.microsecond, 6);
    }
    assert IsoShape(s);
    assert IsoFields(s) == t;
  }

  /** Text of another shape, or a date the calendar does not have, is a ValueError. */
  lemma IsoExamplesRejected()
    ensures FromIsoFormat("invalid-format") == Err(ValueError(InvalidIsoFormat))
    ensures FromIsoFormat("2021-02-29") == Err(ValueError(InvalidIsoFormat))
  {
    assert |"invalid-format"| == 14;
    var s := "2021-02-29";
    TwoDigits(s[5..7]);
    TwoDigits(s[8..10]);
  }
}
