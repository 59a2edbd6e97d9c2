/**
 Broken-down UTC time: `time_zone::to_utc_time`, `from_utc_time` and `fillHMS`
 (src/base/time_zone.cpp), mutual inverses for negative as well as positive seconds.
 */
module UtcTime {
  import opened Prelude
  import opened CivilDate

  /** `struct tm`, with the fields counted as C counts them. */
  datatype Tm = Tm(year: int, mon: int, mday: int, hour: int, min: int, sec: int,
                   wday: int, yday: int, isdst: bool, gmtoff: int)

  const SECONDS_PER_DAY: int := 24 * 60 * 60

  /** Hour, minute and second of a number of seconds. */
  function FillHMS(seconds: int): (int, int, int) {
    var minutes := CDiv(seconds, 60);
    (CDiv(minutes, 60), CMod(minutes, 60), CMod(seconds, 60))
  }

  /** Days and seconds of the day, corrected for C's remainder of a negative time. */
  function SplitSeconds(t: int): (r: (int, int))
    ensures t == r.0 * SECONDS_PER_DAY + r.1 && 0 <= r.1 < SECONDS_PER_DAY
  {
    var seconds, days := CMod(t, SECONDS_PER_DAY), CDiv(t, SECONDS_PER_DAY);
    if seconds < 0 then (days - 1, seconds + SECONDS_PER_DAY) else (days, seconds)
  }

  function ToUtcTime(t: int, yday: bool): Tm {
    var (days, seconds) := SplitSeconds(t);
    var (hour, min, sec) := FillHMS(seconds);
    var date := days + JULIAN_DAY_OF_1970_01_01;
    var ymd := GetYearMonthDay(date);
    Tm(ymd.year - 1900, ymd.month - 1, ymd.day, hour, min, sec, WeekDay(date),
       if yday then date - GetJulianDayNumber(ymd.year, 1, 1) else 0, false, 0)
  }

  function FromUtcFields(year: int, month: int, day: int, hour: int, minute: int, seconds: int): int {
    var secondsInDay := hour * 3600 + minute * 60 + seconds;
    var days := GetJulianDayNumber(year, month, day) - JULIAN_DAY_OF_1970_01_01;
    days * SECONDS_PER_DAY + secondsInDay
  }

  function FromUtcTime(utc: Tm): int {
    FromUtcFields(utc.year + 1900, utc.mon + 1, utc.mday, utc.hour, utc.min, utc.sec)
  }

  // ----- what the fields mean -----

  function DateOf(tm: Tm): YearMonthDay { YearMonthDay(tm.year + 1900, tm.mon + 1, tm.mday) }

  predicate ValidTm(tm: Tm) {
    InRange(DateOf(tm)) && 0 <= tm.hour < 24 && 0 <= tm.min < 60 && 0 <= tm.sec < 60
  }

  /** The fields that `from_utc_time` reads. */
  predicate SameInstant(a: Tm, b: Tm) {
    DateOf(a) == DateOf(b) && a.hour == b.hour && a.min == b.min && a.sec == b.sec
  }

  /** Midnight at the start of the era of CivilDate. */
  const FIRST_SECOND: int := (FIRST_DAY - 2440588) * SECONDS_PER_DAY

  lemma HmsBounds(s: int)
    requires 0 <= s < SECONDS_PER_DAY
    ensures var (h, m, x) := FillHMS(s);
            0 <= h < 24 && 0 <= m < 60 && 0 <= x < 60 && s == h * 3600 + m * 60 + x
  {
  }

  lemma HmsUnique(h: int, m: int, x: int)
    requires 0 <= h < 24 && 0 <= m < 60 && 0 <= x < 60
    ensures FillHMS(h * 3600 + m * 60 + x) == (h, m, x)
  {
    Sixtieths(h * 60 + m, x);
    Sixtieths(h, m);
    assert h * 3600 + m * 60 + x == 60 * (h * 60 + m) + x;
  }

  lemma Sixtieths(q: nat, r: nat)
    requires r < 60
    ensures (60 * q + r) / 60 == q && (60 * q + r) % 60 == r
  {
  }

  lemma SplitUnique(t: int, days: int, seconds: int)
    requires 0 <= seconds < SECONDS_PER_DAY && t == days * SECONDS_PER_DAY + seconds
    ensures SplitSeconds(t) == (days, seconds)
  {
    var (d, s) := SplitSeconds(t);
    assert (d - days) * SECONDS_PER_DAY == seconds - s;
  }

  /** `from_utc_time` undoes `to_utc_time` for every second of the era, before the epoch as after it. */
  lemma UtcRoundTrip(t: int, yday: bool)
    requires t >= FIRST_SECOND
    ensures ValidTm(ToUtcTime(t, yday)) && FromUtcTime(ToUtcTime(t, yday)) == t
  {
    hide GetYearMonthDay, GetJulianDayNumber, FillHMS, WeekDay, CDiv, CMod;
    var (days, seconds) := SplitSeconds(t);
    assert JULIAN_DAY_OF_1970_01_01 == 2440588 by { WeekDayExactlyFromDayMinusOne(0); }
    DayRoundTrip(days + JULIAN_DAY_OF_1970_01_01);
    HmsBounds(seconds);
  }

  /** `to_utc_time` undoes `from_utc_time` on every valid date and time of the era. */
  lemma TmRoundTrip(tm: Tm, yday: bool)
    requires ValidTm(tm)
    ensures FromUtcTime(tm) >= FIRST_SECOND && SameInstant(ToUtcTime(FromUtcTime(tm), yday), tm)
  {
    hide GetYearMonthDay, GetJulianDayNumber, FillHMS, WeekDay, CDiv, CMod;
    var seconds := tm.hour * 3600 + tm.min * 60 + tm.sec;
    var days := DayNumber(DateOf(tm)) - JULIAN_DAY_OF_1970_01_01;
    SplitUnique(FromUtcTime(tm), days, seconds);
    HmsUnique(tm.hour, tm.min, tm.sec);
    DateRoundTrip(DateOf(tm));
    assert JULIAN_DAY_OF_1970_01_01 == 2440588 by { WeekDayExactlyFromDayMinusOne(0); }
  }

  /** The clock that ticks over at 23:59:59 into the next date of the calendar. */
  function Tick(tm: Tm): (YearMonthDay, int, int, int) {
    if tm.sec < 59 then (DateOf(tm), tm.hour, tm.min, tm.sec + 1)
    else if tm.min < 59 then (DateOf(tm), tm.hour, tm.min + 1, 0)
    else if tm.hour < 23 then (DateOf(tm), tm.hour + 1, 0, 0)
    else (NextDay(DateOf(tm)), 0, 0, 0)
  }

  lemma NextSecond(t: int)
    requires t >= FIRST_SECOND
    ensures var next := ToUtcTime(t + 1, false);
            (DateOf(next), next.hour, next.min, next.sec) == Tick(ToUtcTime(t, false))
  {
    hide GetYearMonthDay, GetJulianDayNumber, FillHMS, WeekDay, CDiv, CMod;
    var (days, seconds) := SplitSeconds(t);
    var tm := ToUtcTime(t, false);
    HmsBounds(seconds);
    if seconds == SECONDS_PER_DAY - 1 {
      SplitUnique(t + 1, days + 1, 0);
      HmsUnique(0, 0, 0);
      HmsUnique(23, 59, 59);
      assert JULIAN_DAY_OF_1970_01_01 == 2440588 by { WeekDayExactlyFromDayMinusOne(0); }
      ConsecutiveDays(days + JULIAN_DAY_OF_1970_01_01);
    } else {
      SplitUnique(t + 1, days, seconds + 1);
      var next := Tick(tm);
      HmsUnique(next.1, next.2, next.3);
    }
  }

  lemma WeekDayField(t: int)
    requires t >= FIRST_SECOND
    ensures var day := SplitSeconds(t).0; day >= -2440589 ==> ToUtcTime(t, true).wday == (day + 4) % 7
  {
    hide GetYearMonthDay, GetJulianDayNumber, FillHMS, CDiv, CMod;
    WeekDayExactlyFromDayMinusOne(SplitSeconds(t).0 + 2440588);
  }

  lemma YearDayField(t: int)
    requires t >= FIRST_SECOND
    ensures var tm := ToUtcTime(t, true); InRange(DateOf(tm)) && tm.yday == DayNumber(DateOf(tm)) - DayNumber(YearMonthDay(tm.year + 1900, 1, 1))
  {
    hide GetYearMonthDay, GetJulianDayNumber, FillHMS, WeekDay, CDiv, CMod;
    assert JULIAN_DAY_OF_1970_01_01 == 2440588 by { WeekDayExactlyFromDayMinusOne(0); }
    DayRoundTrip(SplitSeconds(t).0 + JULIAN_DAY_OF_1970_01_01);
  }

  /** The weekday and the day of the year are those of the calendar. */
  lemma UtcDayFields(t: int)
    requires t >= FIRST_SECOND
    ensures var tm := ToUtcTime(t, true); var day := SplitSeconds(t).0;
            && InRange(DateOf(tm))
            && (day >= -2440589 ==> tm.wday == (day + 4) % 7)
            && (DateOf(tm).year > -4800 ==> tm.yday == DaysBefore(tm.year + 1900, tm.mon + 1) + tm.mday - 1)
  {
    hide GetYearMonthDay, GetJulianDayNumber, FillHMS, WeekDay, CDiv, CMod;
    WeekDayField(t);
    YearDayField(t);
    if DateOf(ToUtcTime(t, true)).year > -4800 { DayOfYear(DateOf(ToUtcTime(t, true))); }
  }
}
