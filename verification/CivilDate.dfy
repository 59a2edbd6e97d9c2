/**
 Julian day numbers and Gregorian dates (src/base/date_t.cpp, src/base/date_t.h).
 The two conversions are proved mutual inverses, and ordered as the calendar is.
 C++ `int` is unbounded here; `FitsInInt` bounds the days for which that makes no difference.
 */
module CivilDate {
  import opened Prelude

  datatype YearMonthDay = YearMonthDay(year: int, month: int, day: int)

  // ----- the source's arithmetic -----

  function GetJulianDayNumber(year: int, month: int, day: int): int {
    var a := CDiv(14 - month, 12);
    var y := year + 4800 - a;
    var m := month + 12 * a - 3;
    day + CDiv(153 * m + 2, 5) + y * 365 + CDiv(y, 4) - CDiv(y, 100) + CDiv(y, 400) - 32045
  }

  function GetYearMonthDay(julianDayNumber: int): YearMonthDay {
    var a := julianDayNumber + 32044;
    var b := CDiv(4 * a + 3, 146097);
    var c := a - CDiv(b * 146097, 4);
    var d := CDiv(4 * c + 3, 1461);
    var e := c - CDiv(1461 * d, 4);
    var m := CDiv(5 * e + 2, 153);
    YearMonthDay(b * 100 + d - 4800 + CDiv(m, 10), m + 3 - 12 * CDiv(m, 10), e - CDiv(153 * m + 2, 5) + 1)
  }

  const JULIAN_DAY_OF_1970_01_01: int := GetJulianDayNumber(1970, 1, 1)

  function WeekDay(julianDayNumber: int): int {
    CMod(julianDayNumber + 1, 7)
  }

  // ----- the calendar, defined on its own -----

  predicate IsLeap(year: int) {
    year % 4 == 0 && (year % 100 != 0 || year % 400 == 0)
  }

  function DaysInMonth(year: int, month: int): int {
    if month == 2 then if IsLeap(year) then 29 else 28
    else if month == 4 || month == 6 || month == 9 || month == 11 then 30
    else 31
  }

  predicate Valid(d: YearMonthDay) {
    1 <= d.month <= 12 && 1 <= d.day <= DaysInMonth(d.year, d.month)
  }

  function NextDay(d: YearMonthDay): YearMonthDay {
    if d.day < DaysInMonth(d.year, d.month) then d.(day := d.day + 1)
    else if d.month < 12 then YearMonthDay(d.year, d.month + 1, 1)
    else YearMonthDay(d.year + 1, 1, 1)
  }

  /** Days of the year before the first of `month`. */
  function DaysBefore(year: int, month: int): int
    requires 1 <= month <= 12
  {
    if month == 1 then 0 else DaysBefore(year, month - 1) + DaysInMonth(year, month - 1)
  }

  /** The dates from 1 March 4801 BC (year -4800) on: those whose March-based year is not negative. */
  predicate InRange(d: YearMonthDay) {
    Valid(d) && (d.year > -4800 || (d.year == -4800 && d.month >= 3))
  }

  const FIRST_DAY: int := -32044

  function DayNumber(d: YearMonthDay): int {
    GetJulianDayNumber(d.year, d.month, d.day)
  }

  // ----- years that begin in March -----

  /** A date as a year and month counted from March, and the day of the month. */
  function MarchYear(d: YearMonthDay): int { d.year + 4800 - (if d.month <= 2 then 1 else 0) }

  function MarchMonth(d: YearMonthDay): int { d.month + (if d.month <= 2 then 9 else -3) }

  /** Days of the March year before month `m`. */
  function MonthStart(m: int): int { (153 * m + 2) / 5 }

  /** Days of the March year before the date. */
  function DayOfMarchYear(d: YearMonthDay): int { MonthStart(MarchMonth(d)) + d.day - 1 }

  /** Days before March year `y`, counted from the first. */
  function YearStart(y: int): int { 365 * y + y / 4 - y / 100 + y / 400 }

  /** Whether March year `y` ends with 29 February. */
  predicate EndsInLeapDay(y: int) { (y + 1) % 4 == 0 && ((y + 1) % 100 != 0 || (y + 1) % 400 == 0) }

  lemma DayNumberByMarch(d: YearMonthDay)
    requires InRange(d)
    ensures 0 <= MarchYear(d) && 0 <= MarchMonth(d) <= 11
    ensures DayNumber(d) == YearStart(MarchYear(d)) + DayOfMarchYear(d) + FIRST_DAY
  {
  }

  lemma MonthSplit(e: int, m: int)
    requires 0 <= m <= 11 && 0 <= e
    ensures MonthStart(m) <= e < MonthStart(m + 1) <==> (5 * e + 2) / 153 == m
  {
    assert MonthStart(m) <= e <==> 153 * m <= 5 * e + 2;
    assert e < MonthStart(m + 1) <==> 5 * e + 2 < 153 * (m + 1);
  }

  lemma MonthLength(d: YearMonthDay)
    requires Valid(d) && d.month != 2
    ensures MonthStart(MarchMonth(d) + 1) - MonthStart(MarchMonth(d)) == DaysInMonth(d.year, d.month)
  {
    hide IsLeap;
    var m := MarchMonth(d);
    if m == 0 {} else if m == 1 {} else if m == 2 {} else if m == 3 {} else if m == 4 {} else if m == 5 {}
    else if m == 6 {} else if m == 7 {} else if m == 8 {} else if m == 9 {} else {}
  }

  lemma By4(q: int, r: int)
    requires 0 <= r < 4
    ensures (4 * q + r) / 4 == q && (4 * q + r) % 4 == r
  {
  }

  lemma By100(q: int, r: int)
    requires 0 <= r < 100
    ensures (100 * q + r) / 100 == q && (100 * q + r) % 100 == r
  {
  }

  lemma By400(q: int, r: int)
    requires 0 <= r < 400
    ensures (400 * q + r) / 400 == q && (400 * q + r) % 400 == r
  {
  }

  lemma Shift400(y: int)
    ensures IsLeap(y - 4800) <==> IsLeap(y)
  {
    assert (y - 4800) % 4 == y % 4 by {
      var q, r := y / 4, y % 4;
      By4(q - 1200, r);
      assert y - 4800 == 4 * (q - 1200) + r;
    }
    assert (y - 4800) % 100 == y % 100 by {
      var q, r := y / 100, y % 100;
      By100(q - 48, r);
      assert y - 4800 == 100 * (q - 48) + r;
    }
    assert (y - 4800) % 400 == y % 400 by {
      var q, r := y / 400, y % 400;
      By400(q - 12, r);
      assert y - 4800 == 400 * (q - 12) + r;
    }
  }

  lemma DayOfMarchYearBounds(d: YearMonthDay)
    requires InRange(d)
    ensures 0 <= DayOfMarchYear(d) <= 365
    ensures DayOfMarchYear(d) == 365 ==> EndsInLeapDay(MarchYear(d))
    ensures (5 * DayOfMarchYear(d) + 2) / 153 == MarchMonth(d)
  {
    hide IsLeap;
    var m := MarchMonth(d);
    if d.month == 2 {
      FebruaryLeap(d);
    } else {
      MonthLength(d);
      assert MonthStart(m) <= DayOfMarchYear(d) < MonthStart(m + 1);
      assert MonthStart(m + 1) <= 337;
      MonthSplit(DayOfMarchYear(d), m);
    }
  }

  lemma FebruaryLeap(d: YearMonthDay)
    requires d.month == 2
    ensures IsLeap(d.year) <==> EndsInLeapDay(MarchYear(d))
  {
    Shift400(d.year + 4800);
  }

  // ----- centuries -----

  /** March year `100 * b + d`, with `b` full centuries before it. */
  lemma YearStartByCentury(b: nat, d: nat)
    requires d < 100
    ensures YearStart(100 * b + d) == 36524 * b + b / 4 + 365 * d + d / 4
  {
    var y := 100 * b + d;
    assert y / 4 == 25 * b + d / 4 by { By4(25 * b + d / 4, d % 4); }
    assert y / 100 == b by { By100(b, d); }
    assert y / 400 == b / 4 by { By400(b / 4, 100 * (b % 4) + d); }
  }

  lemma LeapByCentury(b: nat, d: nat)
    requires d < 100
    ensures EndsInLeapDay(100 * b + d) <==> (d % 4 == 3 && (d == 99 ==> b % 4 == 3))
  {
    if d == 99 {
      assert 100 * b + d + 1 == 100 * (b + 1);
      CenturyLeap(b);
    } else {
      NotACentury(b, d);
    }
  }

  lemma CenturyLeap(b: nat)
    ensures (100 * (b + 1)) % 4 == 0 && (100 * (b + 1)) % 100 == 0
    ensures (100 * (b + 1)) % 400 == 0 <==> b % 4 == 3
  {
    var q, r := b / 4, b % 4;
    By4(25 * (b + 1), 0);
    By100(b + 1, 0);
    if r == 3 { By400(q + 1, 0); } else { By400(q, 100 * (r + 1)); }
    assert 100 * (b + 1) == if r == 3 then 400 * (q + 1) + 0 else 400 * q + 100 * (r + 1);
  }

  lemma NotACentury(b: nat, d: nat)
    requires d < 99
    ensures (100 * b + d + 1) % 100 != 0
    ensures (100 * b + d + 1) % 4 == 0 <==> d % 4 == 3
  {
    var q, r := (d + 1) / 4, (d + 1) % 4;
    By100(b, d + 1);
    By4(25 * b + q, r);
    assert 100 * b + d + 1 == 4 * (25 * b + q) + r;
  }

  /** A day of the era as a century, a year of the century and a day of the year. */
  function FromCentury(b: nat, d: nat, e: nat): nat { 36524 * b + b / 4 + 365 * d + d / 4 + e }

  predicate InCentury(b: nat, d: nat, e: nat) {
    d < 100 && e <= 365 && (e == 365 ==> d % 4 == 3 && (d == 99 ==> b % 4 == 3))
  }

  lemma CenturyFound(b: nat, d: nat, e: nat)
    requires InCentury(b, d, e)
    ensures var a := FromCentury(b, d, e);
            (4 * a + 3) / 146097 == b && a - (b * 146097) / 4 == 365 * d + d / 4 + e
  {
    var a := FromCentury(b, d, e);
    var c := 365 * d + d / 4 + e;
    assert (b * 146097) / 4 == 36524 * b + b / 4;
    assert 4 * (b / 4) == b - b % 4;
    assert 4 * a + 3 == 146097 * b + (4 * c + 3 - b % 4);
    assert 0 <= 4 * c + 3 - b % 4 < 146097;
  }

  lemma YearFound(d: nat, e: nat)
    requires d < 100 && e <= 365 && (e == 365 ==> d % 4 == 3)
    ensures var c := 365 * d + d / 4 + e;
            (4 * c + 3) / 1461 == d && c - (1461 * d) / 4 == e
  {
    var c := 365 * d + d / 4 + e;
    assert (1461 * d) / 4 == 365 * d + d / 4;
    assert 4 * (d / 4) == d - d % 4;
    assert 4 * c + 3 == 1461 * d + (4 * e + 3 - d % 4);
    assert 0 <= 4 * e + 3 - d % 4 < 1461;
  }

  /** The nested divisions of `get_year_month_day` split any day of the era into one century, year and day. */
  lemma CenturySplit(a: nat) returns (b: nat, d: nat, e: nat)
    ensures InCentury(b, d, e) && a == FromCentury(b, d, e)
  {
    b := (4 * a + 3) / 146097;
    var c := a - 36524 * b - b / 4;
    assert 4 * (b / 4) == b - b % 4;
    assert 146097 * b <= 4 * a + 3 < 146097 * b + 146097;
    assert 0 <= 4 * c + 3 - b % 4 < 146097;
    assert 0 <= c <= 36524 && (c == 36524 ==> b % 4 == 3);
    d, e := YearSplit(c);
  }

  lemma YearSplit(c: int) returns (d: nat, e: nat)
    requires 0 <= c <= 36524
    ensures d < 100 && e <= 365 && (e == 365 ==> d % 4 == 3) && (d == 99 && e == 365 ==> c == 36524)
    ensures c == 365 * d + d / 4 + e
  {
    d := (4 * c + 3) / 1461;
    assert 4 * (d / 4) == d - d % 4;
    assert 1461 * d <= 4 * c + 3 < 1461 * d + 1461;
    e := c - 365 * d - d / 4;
  }

  // ----- the round trips -----

  /** What `get_year_month_day` makes of a day whose parts are known. */
  lemma FieldsFound(b: nat, d: nat, e: nat, m: nat)
    requires InCentury(b, d, e) && m <= 11 && (5 * e + 2) / 153 == m
    ensures GetYearMonthDay(FIRST_DAY + FromCentury(b, d, e)) ==
            YearMonthDay(100 * b + d - 4800 + m / 10, m + 3 - 12 * (m / 10), e - MonthStart(m) + 1)
  {
    hide GetYearMonthDay, MonthStart;
    var a := FromCentury(b, d, e);
    var c := 365 * d + d / 4 + e;
    assert CDiv(4 * a + 3, 146097) == b && a - CDiv(b * 146097, 4) == c by { CenturyFound(b, d, e); }
    assert CDiv(4 * c + 3, 1461) == d && c - CDiv(1461 * d, 4) == e by { YearFound(d, e); }
    FieldsFromParts(a, b, c, d, e, m);
  }

  lemma FieldsFromParts(a: nat, b: nat, c: nat, d: nat, e: nat, m: nat)
    requires CDiv(4 * a + 3, 146097) == b && a - CDiv(b * 146097, 4) == c
    requires CDiv(4 * c + 3, 1461) == d && c - CDiv(1461 * d, 4) == e && (5 * e + 2) / 153 == m
    ensures GetYearMonthDay(FIRST_DAY + a) ==
            YearMonthDay(100 * b + d - 4800 + m / 10, m + 3 - 12 * (m / 10), e - MonthStart(m) + 1)
  {
    hide GetYearMonthDay;
    assert CDiv(5 * e + 2, 153) == m;
    assert CDiv(m, 10) == m / 10;
    assert CDiv(153 * m + 2, 5) == MonthStart(m);
    FieldsFromQuotients(FIRST_DAY + a, a, b, c, d, e, m);
  }

  lemma FieldsFromQuotients(j: int, a: int, b: int, c: int, d: int, e: int, m: int)
    requires j + 32044 == a && CDiv(4 * a + 3, 146097) == b && a - CDiv(b * 146097, 4) == c
    requires CDiv(4 * c + 3, 1461) == d && c - CDiv(1461 * d, 4) == e && CDiv(5 * e + 2, 153) == m
    ensures GetYearMonthDay(j) ==
            YearMonthDay(b * 100 + d - 4800 + CDiv(m, 10), m + 3 - 12 * CDiv(m, 10), e - CDiv(153 * m + 2, 5) + 1)
  {
    hide CDiv;
  }

  /** A date's day number as a day of a century. */
  lemma DayNumberByCentury(d: YearMonthDay) returns (b: nat, y: nat)
    requires InRange(d)
    ensures MarchYear(d) == 100 * b + y && DayOfMarchYear(d) >= 0 && InCentury(b, y, DayOfMarchYear(d))
    ensures DayNumber(d) == FIRST_DAY + FromCentury(b, y, DayOfMarchYear(d))
  {
    DayNumberByMarch(d);
    DayOfMarchYearBounds(d);
    b, y := MarchYear(d) / 100, MarchYear(d) % 100;
    assert MarchYear(d) == 100 * b + y;
    YearStartByCentury(b, y);
    LeapByCentury(b, y);
  }

  /** `get_year_month_day` undoes `get_julian_day_number` on every valid date of the era. */
  lemma DateRoundTrip(d: YearMonthDay)
    requires InRange(d)
    ensures DayNumber(d) >= FIRST_DAY && GetYearMonthDay(DayNumber(d)) == d
  {
    hide GetYearMonthDay, GetJulianDayNumber, MonthStart, DayOfMarchYear, MarchMonth, MarchYear, Valid, InCentury;
    var b, y := DayNumberByCentury(d);
    var e, m := DayOfMarchYear(d), MarchMonth(d);
    assert DayNumber(d) == FIRST_DAY + FromCentury(b, y, e);
    assert GetYearMonthDay(FIRST_DAY + FromCentury(b, y, e)) == d by {
      assert 0 <= m <= 11 && (5 * e + 2) / 153 == m by { DayOfMarchYearBounds(d); }
      FieldsFound(b, y, e, m);
      MarchFieldsBack(d);
    }
  }

  lemma MarchFieldsBack(d: YearMonthDay)
    requires InRange(d)
    ensures var m := MarchMonth(d);
            && d.year == MarchYear(d) - 4800 + m / 10 && d.month == m + 3 - 12 * (m / 10)
            && d.day == DayOfMarchYear(d) - MonthStart(m) + 1
  {
  }

  /** `get_julian_day_number` undoes `get_year_month_day` on every day of the era, which is a valid date. */
  lemma DayRoundTrip(j: int)
    requires j >= FIRST_DAY
    ensures InRange(GetYearMonthDay(j)) && DayNumber(GetYearMonthDay(j)) == j
  {
    var b, d, e := CenturySplit(j - FIRST_DAY);
    CenturyDay(b, d, e);
  }

  lemma CenturyDay(b: nat, d: nat, e: nat)
    requires InCentury(b, d, e)
    ensures var j := FIRST_DAY + FromCentury(b, d, e);
            InRange(GetYearMonthDay(j)) && DayNumber(GetYearMonthDay(j)) == j
  {
    var m := (5 * e + 2) / 153;
    MonthSplit(e, m);
    FieldsFound(b, d, e, m);
    FieldsAreADate(b, d, e, m);
    YearStartByCentury(b, d);
    DayNumberByMarch(GetYearMonthDay(FIRST_DAY + FromCentury(b, d, e)));
  }

  lemma FieldsAreADate(b: nat, d: nat, e: nat, m: nat)
    requires InCentury(b, d, e) && m <= 11 && MonthStart(m) <= e < MonthStart(m + 1)
    ensures var ymd := YearMonthDay(100 * b + d - 4800 + m / 10, m + 3 - 12 * (m / 10), e - MonthStart(m) + 1);
            && InRange(ymd) && MarchYear(ymd) == 100 * b + d && MarchMonth(ymd) == m && DayOfMarchYear(ymd) == e
  {
    hide YearStart, GetJulianDayNumber;
    if m == 11 {
      var year := 100 * b + d - 4800 + 1;
      LeapByCentury(b, d);
      assert IsLeap(year) <==> EndsInLeapDay(100 * b + d) by { Shift400(100 * b + d + 1); }
    } else {
      hide IsLeap;
      if m == 0 {} else if m == 1 {} else if m == 2 {} else if m == 3 {} else if m == 4 {} else if m == 5 {}
      else if m == 6 {} else if m == 7 {} else if m == 8 {} else if m == 9 {} else {}
    }
  }

  /** Consecutive day numbers are consecutive dates of the calendar. */
  lemma NextDayNumber(d: YearMonthDay)
    requires InRange(d)
    ensures InRange(NextDay(d)) && DayNumber(NextDay(d)) == DayNumber(d) + 1
  {
    hide GetJulianDayNumber, YearStart, MonthStart, IsLeap;
    DayNumberByMarch(d);
    if d.day < DaysInMonth(d.year, d.month) {
      DayNumberByMarch(NextDay(d));
    } else if d.month == 2 {
      MarchFollowsFebruary(d);
    } else {
      MonthLength(d);
      DayNumberByMarch(NextDay(d));
    }
  }

  lemma MarchFollowsFebruary(d: YearMonthDay)
    requires InRange(d) && d.month == 2 && d.day == DaysInMonth(d.year, 2)
    ensures InRange(NextDay(d)) && DayNumber(NextDay(d)) == DayNumber(d) + 1
  {
    var y := MarchYear(d);
    DayNumberByMarch(d);
    DayNumberByMarch(NextDay(d));
    YearStartNext(y);
    assert IsLeap(d.year) <==> EndsInLeapDay(y) by { Shift400(y + 1); }
    assert MarchYear(NextDay(d)) == y + 1 && DayOfMarchYear(NextDay(d)) == 0;
    assert DayOfMarchYear(d) == 336 + d.day;
  }

  lemma Next4(y: int)
    ensures (y + 1) / 4 == y / 4 + (if (y + 1) % 4 == 0 then 1 else 0)
  {
    var q, r := y / 4, y % 4;
    assert y + 1 == if r == 3 then 4 * (q + 1) + 0 else 4 * q + (r + 1);
    if r == 3 { By4(q + 1, 0); } else { By4(q, r + 1); }
  }

  lemma Next100(y: int)
    ensures (y + 1) / 100 == y / 100 + (if (y + 1) % 100 == 0 then 1 else 0)
  {
    var q, r := y / 100, y % 100;
    assert y + 1 == if r == 99 then 100 * (q + 1) + 0 else 100 * q + (r + 1);
    if r == 99 { By100(q + 1, 0); } else { By100(q, r + 1); }
  }

  lemma Next400(y: int)
    ensures (y + 1) / 400 == y / 400 + (if (y + 1) % 400 == 0 then 1 else 0)
  {
    var q, r := y / 400, y % 400;
    assert y + 1 == if r == 399 then 400 * (q + 1) + 0 else 400 * q + (r + 1);
    if r == 399 { By400(q + 1, 0); } else { By400(q, r + 1); }
  }

  lemma Multiples(z: int)
    ensures z % 400 == 0 ==> z % 100 == 0
    ensures z % 100 == 0 ==> z % 4 == 0
  {
    if z % 400 == 0 { By100(4 * (z / 400), 0); }
    if z % 100 == 0 { By4(25 * (z / 100), 0); }
  }

  lemma YearStartNext(y: nat)
    ensures YearStart(y + 1) == YearStart(y) + (if EndsInLeapDay(y) then 366 else 365)
  {
    Next4(y);
    Next100(y);
    Next400(y);
    Multiples(y + 1);
  }

  lemma ConsecutiveDates(j: int, d: YearMonthDay)
    requires InRange(d) && DayNumber(d) == j
    ensures GetYearMonthDay(j + 1) == NextDay(d)
  {
    assert InRange(NextDay(d)) && DayNumber(NextDay(d)) == j + 1 by { NextDayNumber(d); }
    DateRoundTrip(NextDay(d));
  }

  lemma ConsecutiveDays(j: int)
    requires j >= FIRST_DAY
    ensures GetYearMonthDay(j + 1) == NextDay(GetYearMonthDay(j))
  {
    DayRoundTrip(j);
    ConsecutiveDates(j, GetYearMonthDay(j));
  }

  // ----- exactly where the conversions work -----

  /** Truncating division leaves every earlier day with a day of the month below 1. */
  lemma BeforeTheEra(j: int)
    requires j < FIRST_DAY
    ensures GetYearMonthDay(j).day <= 0
  {
    var a := j + 32044;
    var b := CDiv(4 * a + 3, 146097);
    assert 4 * a + 3 <= b * 146097 <= 0;
    QuartersOff(a, b * 146097);
    var c := a - CDiv(b * 146097, 4);
    var d := CDiv(4 * c + 3, 1461);
    assert 4 * c + 3 <= 1461 * d <= 0;
    QuartersOff(c, 1461 * d);
    var e := c - CDiv(1461 * d, 4);
    assert e <= -1;
  }

  /** With truncation, taking the whole quarters off a negative number leaves something negative. */
  lemma QuartersOff(a: int, q: int)
    requires a < 0 && 4 * a + 3 <= q <= 0
    ensures a - CDiv(q, 4) <= -1
  {
  }

  lemma ValidExactlyInTheEra(j: int)
    ensures Valid(GetYearMonthDay(j)) <==> j >= FIRST_DAY
  {
    if j >= FIRST_DAY { DayRoundTrip(j); } else { BeforeTheEra(j); }
  }

  lemma DateRoundTripExactlyInRange(d: YearMonthDay)
    requires Valid(d)
    ensures GetYearMonthDay(DayNumber(d)) == d <==> InRange(d)
  {
    if InRange(d) {
      DateRoundTrip(d);
    } else {
      ValidExactlyInTheEra(DayNumber(d));
      if DayNumber(d) >= FIRST_DAY { DayRoundTrip(DayNumber(d)); }
    }
  }

  // ----- day of the week and of the year -----

  /** The weekday of the calendar: 1 January 1970 was a Thursday (4). */
  function CalendarWeekDay(j: int): int { (j - JULIAN_DAY_OF_1970_01_01 + 4) % 7 }

  lemma WeekDayExactlyFromDayMinusOne(j: int)
    ensures WeekDay(j) == CalendarWeekDay(j) <==> j >= -1 || (j + 1) % 7 == 0
    ensures JULIAN_DAY_OF_1970_01_01 == 2440588
  {
    assert JULIAN_DAY_OF_1970_01_01 == 2440588;
    assert CalendarWeekDay(j) == (j + 1) % 7;
    if j < -1 { assert WeekDay(j) == -((-(j + 1)) % 7); }
  }

  /** The day of the year is the distance from 1 January. */
  lemma {:induction false} DayOfYear(d: YearMonthDay)
    requires InRange(d) && d.year > -4800
    ensures DayNumber(d) - DayNumber(YearMonthDay(d.year, 1, 1)) == DaysBefore(d.year, d.month) + d.day - 1
    decreases d.month, d.day
  {
    if d.day > 1 {
      var p := d.(day := d.day - 1);
      DayOfYear(p);
      NextDayNumber(p);
    } else if d.month > 1 {
      var p := YearMonthDay(d.year, d.month - 1, DaysInMonth(d.year, d.month - 1));
      DayOfYear(p);
      NextDayNumber(p);
    }
  }

  // ----- int is wide enough -----

  predicate FitsInInt(x: int) { -0x8000_0000 <= x < 0x8000_0000 }

  /** Up to this day, some 1.4 million years ahead, no intermediate of `get_year_month_day` leaves `int`. */
  const LAST_DAY: int := 536838867

  lemma IntermediatesFitExactly(j: int)
    requires j >= FIRST_DAY
    ensures var a := j + 32044; var b := CDiv(4 * a + 3, 146097); var c := a - CDiv(b * 146097, 4);
            var d := CDiv(4 * c + 3, 1461); var e := c - CDiv(1461 * d, 4); var m := CDiv(5 * e + 2, 153);
            j <= LAST_DAY <==>
              FitsInInt(4 * a + 3) && FitsInInt(b * 146097) && FitsInInt(4 * c + 3) && FitsInInt(1461 * d)
              && FitsInInt(5 * e + 2) && FitsInInt(153 * m + 2) && FitsInInt(b * 100 + d)
  {
    var a := j - FIRST_DAY;
    var b, d, e := CenturySplit(a);
    CenturyFound(b, d, e);
    YearFound(d, e);
    var m := (5 * e + 2) / 153;
    assert 0 <= m <= 11;
    assert b * 146097 <= 4 * a + 3;
  }
}
