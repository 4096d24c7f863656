/**
 * The proleptic Gregorian calendar as the ECMAScript `Date` object uses it:
 * day numbers counted from 1 January 1970 (ECMA-262 DayFromYear, MakeDay,
 * WeekDay), `MakeFullYear`'s two-digit year rule, and the local calendar
 * date that `new Date(year, month, day, hours, minutes, seconds)` denotes,
 * including its roll-over of out-of-range months, days and times.
 * Months are 0-based (0 = January) as in `getMonth`.
 */
module JsDate {

  const SecondsPerDay: nat := 86400

  predicate IsLeapYear(y: int)
  {
    y % 4 == 0 && (y % 100 != 0 || y % 400 == 0)
  }

  function DaysInYear(y: int): int
  {
    if IsLeapYear(y) then 366 else 365
  }

  /** The length of month `m` (0-based) of year `y`: February has 29 days in leap years. */
  function DaysInMonth(y: int, m: int): (n: int)
    requires 0 <= m < 12
    ensures 28 <= n <= 31
    ensures m == 1 ==> (n == 29 <==> IsLeapYear(y))
  {
    if m == 1 then (if IsLeapYear(y) then 29 else 28)
    else if m == 3 || m == 5 || m == 8 || m == 10 then 30
    else 31
  }

  /** Days of year `y` before the first day of month `m`. */
  function DaysBeforeMonth(y: int, m: int): int
    requires 0 <= m < 12
  {
    var table := [0, 31, 59, 90, 120, 151, 181, 212, 243, 273, 304, 334];
    table[m] + (if m >= 2 && IsLeapYear(y) then 1 else 0)
  }

  /** ECMA-262 DayFromYear: the day number of 1 January of year `y`. */
  function DayFromYear(y: int): int
  {
    365 * (y - 1970) + (y - 1969) / 4 - (y - 1901) / 100 + (y - 1601) / 400
  }

  /** ECMA-262 MakeFullYear: years 0 to 99 stand for 1900 to 1999. */
  function MakeFullYear(y: int): (r: int)
    ensures 0 <= y <= 99 ==> r == 1900 + y
    ensures (y < 0 || y > 99) ==> r == y
  {
    if 0 <= y <= 99 then 1900 + y else y
  }

  /**
   * ECMA-262 MakeDay: the day number of day `date` of month `month` of `year`,
   * where the month may lie outside 0..11 (it carries into the year) and the
   * day may lie outside the month.
   */
  function MakeDay(year: int, month: int, date: int): int
  {
    var ym := year + month / 12;
    var mn := month % 12;
    DayFromYear(ym) + DaysBeforeMonth(ym, mn) + date - 1
  }

  /** ECMA-262 WeekDay: 0 = Sunday, 1 = Monday, ..., 6 = Saturday (1 January 1970 was a Thursday). */
  function WeekDay(dayNumber: int): (w: nat)
    ensures w < 7 && (w - dayNumber - 4) % 7 == 0
  {
    (dayNumber + 4) % 7
  }

  /** A calendar date: `month` is 0-based, `day` is 1-based. */
  datatype LocalDate = LocalDate(year: int, month: int, day: int)

  predicate IsValid(d: LocalDate)
  {
    0 <= d.month < 12 && 1 <= d.day <= DaysInMonth(d.year, d.month)
  }

  /** The day number of a calendar date. */
  function DayNumber(d: LocalDate): int
    requires 0 <= d.month < 12
  {
    DayFromYear(d.year) + DaysBeforeMonth(d.year, d.month) + d.day - 1
  }

  lemma DaysBeforeNextMonth(y: int, m: int)
    requires 0 <= m < 11
    ensures DaysBeforeMonth(y, m + 1) == DaysBeforeMonth(y, m) + DaysInMonth(y, m)
  {
  }

  lemma DaysBeforeYearEnd(y: int)
    ensures DaysBeforeMonth(y, 11) + DaysInMonth(y, 11) == DaysInYear(y)
  {
  }

  lemma FloorStep4(a: int)
    ensures (a + 1) / 4 - a / 4 == if (a + 1) % 4 == 0 then 1 else 0
  {
  }

  lemma FloorStep100(a: int)
    ensures (a + 1) / 100 - a / 100 == if (a + 1) % 100 == 0 then 1 else 0
  {
  }

  lemma FloorStep400(a: int)
    ensures (a + 1) / 400 - a / 400 == if (a + 1) % 400 == 0 then 1 else 0
  {
  }

  lemma ShiftedRemainder4(y: int)
    ensures (y - 1968) % 4 == y % 4
  {
    assert y - 1968 == (y / 4 - 492) * 4 + y % 4;
  }

  lemma ShiftedRemainder100(y: int)
    ensures (y - 1900) % 100 == y % 100
  {
    assert y - 1900 == (y / 100 - 19) * 100 + y % 100;
  }

  lemma ShiftedRemainder400(y: int)
    ensures (y - 1600) % 400 == y % 400
  {
    assert y - 1600 == (y / 400 - 4) * 400 + y % 400;
  }

  lemma Divides400(y: int)
    ensures y % 400 == 0 ==> y % 100 == 0
  {
    if y % 400 == 0 {
      var k := 4 * (y / 400);
      assert y == 100 * k;
    }
  }

  lemma Divides100(y: int)
    ensures y % 100 == 0 ==> y % 4 == 0
  {
    if y % 100 == 0 {
      var k := 25 * (y / 100);
      assert y == 4 * k;
    }
  }

  /** Consecutive years are `DaysInYear` apart: DayFromYear agrees with the leap-year rule. */
  lemma NextYear(y: int)
    ensures DayFromYear(y + 1) == DayFromYear(y) + DaysInYear(y)
  {
    FloorStep4(y - 1969);
    FloorStep100(y - 1901);
    FloorStep400(y - 1601);
    ShiftedRemainder4(y);
    ShiftedRemainder100(y);
    ShiftedRemainder400(y);
    Divides400(y);
    Divides100(y);
    var q4 := (y - 1968) / 4 - (y - 1969) / 4;
    var q100 := (y - 1900) / 100 - (y - 1901) / 100;
    var q400 := (y - 1600) / 400 - (y - 1601) / 400;
    assert DayFromYear(y + 1) == DayFromYear(y) + 365 + q4 - q100 + q400;
  }

  /**
   * Day `day` of month `m` of year `y`, where `day` may exceed the month's
   * length: the surplus carries into the following months and years.
   */
  function Forward(y: int, m: int, day: int): (d: LocalDate)
    requires 0 <= m < 12 && day >= 1
    ensures IsValid(d)
    ensures DayNumber(d) == DayFromYear(y) + DaysBeforeMonth(y, m) + day - 1
    decreases day
  {
    var n := DaysInMonth(y, m);
    if day <= n then LocalDate(y, m, day)
    else if m < 11 then
      DaysBeforeNextMonth(y, m);
      Forward(y, m + 1, day - n)
    else
      NextYear(y);
      DaysBeforeYearEnd(y);
      Forward(y + 1, 0, day - n)
  }

  /** The last day of the month before month `m` of year `y` ("day 0" of month `m`). */
  function DayBefore(y: int, m: int): (d: LocalDate)
    requires 0 <= m < 12
    ensures IsValid(d)
    ensures DayNumber(d) == DayFromYear(y) + DaysBeforeMonth(y, m) - 1
  {
    if m == 0 then
      NextYear(y - 1);
      LocalDate(y - 1, 11, 31)
    else
      DaysBeforeNextMonth(y, m - 1);
      LocalDate(y, m - 1, DaysInMonth(y, m - 1))
  }

  /**
   * The local calendar date of `new Date(year, month, date, h, mi, s)` once
   * `year` has gone through MakeFullYear, where `seconds` is h*3600 + mi*60 + s.
   * It is the valid date whose day number is MakeDay plus the whole days in the
   * time of day (see `LocalDateOfDayNumber` and `DayNumberInjective`).
   */
  function LocalDateOf(year: int, month: int, date: nat, seconds: nat): (d: LocalDate)
    ensures IsValid(d)
  {
    var ym := year + month / 12;
    var mn := month % 12;
    var day := date + seconds / SecondsPerDay;
    if day == 0 then DayBefore(ym, mn) else Forward(ym, mn, day)
  }

  /** `LocalDateOf` lands on the day ECMA-262 computes: MakeDay, plus the time's whole days. */
  lemma LocalDateOfDayNumber(year: int, month: int, date: nat, seconds: nat)
    ensures DayNumber(LocalDateOf(year, month, date, seconds))
         == MakeDay(year, month, date) + seconds / SecondsPerDay
  {
  }

  /** Components that already name a valid date and a time within that day are kept as they are. */
  lemma {:induction false} LocalDateOfInRange(year: int, month: int, date: nat, seconds: nat)
    requires 0 <= month < 12 && 1 <= date <= DaysInMonth(year, month) && seconds < SecondsPerDay
    ensures LocalDateOf(year, month, date, seconds) == LocalDate(year, month, date)
  {
    assert month / 12 == 0 && month % 12 == month;
    assert seconds / SecondsPerDay == 0;
  }

  lemma {:induction false} DayFromYearMonotone(a: int, b: int)
    requires a <= b
    ensures DayFromYear(a) <= DayFromYear(b)
    decreases b - a
  {
    if a < b {
      NextYear(a);
      DayFromYearMonotone(a + 1, b);
    }
  }

  lemma MonthsApart(y: int, m1: int, m2: int)
    requires 0 <= m1 < m2 < 12
    ensures DaysBeforeMonth(y, m1) + DaysInMonth(y, m1) <= DaysBeforeMonth(y, m2)
  {
  }

  /** A valid date's day number lies within its year. */
  lemma DayNumberInYear(d: LocalDate)
    requires IsValid(d)
    ensures DayFromYear(d.year) <= DayNumber(d) < DayFromYear(d.year + 1)
  {
    NextYear(d.year);
    if d.month < 11 {
      MonthsApart(d.year, d.month, 11);
    }
    DaysBeforeYearEnd(d.year);
  }

  /** A day number lies in one year only. */
  lemma SameYear(a: LocalDate, b: LocalDate)
    requires IsValid(a) && IsValid(b) && DayNumber(a) == DayNumber(b)
    ensures a.year == b.year
  {
    DayNumberInYear(a);
    DayNumberInYear(b);
    if a.year < b.year {
      DayFromYearMonotone(a.year + 1, b.year);
    } else if b.year < a.year {
      DayFromYearMonotone(b.year + 1, a.year);
    }
  }

  /** Within one year, a day number lies in one month only. */
  lemma SameMonth(a: LocalDate, b: LocalDate)
    requires IsValid(a) && IsValid(b) && a.year == b.year && DayNumber(a) == DayNumber(b)
    ensures a.month == b.month
  {
    if a.month < b.month {
      MonthsApart(a.year, a.month, b.month);
    } else if b.month < a.month {
      MonthsApart(a.year, b.month, a.month);
    }
  }

  /** Distinct valid dates have distinct day numbers, so a day number names exactly one date. */
  lemma DayNumberInjective(a: LocalDate, b: LocalDate)
    requires IsValid(a) && IsValid(b) && DayNumber(a) == DayNumber(b)
    ensures a == b
  {
    SameYear(a, b);
    SameMonth(a, b);
  }

  /** 1 January 1970 is day 0 and a Thursday; 16 March 2025 is a Sunday. */
  lemma Anchors()
    ensures DayNumber(LocalDate(1970, 0, 1)) == 0 && WeekDay(0) == 4
    ensures WeekDay(DayNumber(LocalDate(2025, 2, 16))) == 0
  {
    assert DayFromYear(2025) == 20089;
    assert DayNumber(LocalDate(2025, 2, 16)) == 20163;
    assert (20163 + 4) % 7 == 0;
  }
}
