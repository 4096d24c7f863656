/**
 * The date picker: month lengths and the Monday-based first weekday, month
 * and twelve-year navigation, the clicks that change the view, and the cells
 * of the day and year grids. Dates are local calendar dates; the bounds
 * `minDate` and `maxDate` are instants given as a day number and the
 * milliseconds into that day. Locale formatting enters as a parameter.
 */
module Calendar {
  import opened Wrappers
  import opened JsDate

  /** A point in local time: a day number and the milliseconds since its midnight. */
  datatype Instant = Instant(day: int, ms: nat)

  predicate Before(a: Instant, b: Instant)
  {
    a.day < b.day || (a.day == b.day && a.ms < b.ms)
  }

  /** Local midnight of a calendar date. */
  function Midnight(d: LocalDate): Instant
    requires 0 <= d.month < 12
  {
    Instant(DayNumber(d), 0)
  }

  /** `new Date(year, month, day)` for a calendar cell. */
  function DateAt(year: int, month: int, day: nat): (d: LocalDate)
    ensures IsValid(d)
  {
    LocalDateOf(MakeFullYear(year), month, day, 0)
  }

  /** `new Date(year, month + 1, 0).getDate()`. */
  function GetDaysInMonth(month: int, year: int): (n: int)
    ensures n >= 1
  {
    DateAt(year, month + 1, 0).day
  }

  /** Day 0 of the next month is the last day of this one: the month's Gregorian length. */
  lemma DaysInMonthIsLength(month: int, year: int)
    requires 0 <= month < 12
    ensures GetDaysInMonth(month, year) == DaysInMonth(MakeFullYear(year), month)
    ensures month == 1 ==> (GetDaysInMonth(month, year) == 29 <==> IsLeapYear(MakeFullYear(year)))
  {
    var y := MakeFullYear(year);
    if month == 11 {
      assert (month + 1) / 12 == 1 && (month + 1) % 12 == 0;
      assert DayBefore(y + 1, 0) == LocalDate(y, 11, 31);
    } else {
      assert (month + 1) / 12 == 0 && (month + 1) % 12 == month + 1;
      assert DayBefore(y, month + 1) == LocalDate(y, month, DaysInMonth(y, month));
    }
  }

  /** `getFirstDayOfMonth`: the weekday of the 1st with Monday = 0, ..., Sunday = 6. */
  function GetFirstDayOfMonth(month: int, year: int): (r: nat)
    ensures r < 7
    ensures var w := WeekDay(DayNumber(DateAt(year, month, 1))); (w == 0 ==> r == 6) && (w > 0 ==> r == w - 1)
  {
    var firstDay := WeekDay(DayNumber(DateAt(year, month, 1)));
    if firstDay == 0 then 6 else firstDay - 1
  }

  /** The offset is the weekday moved so that the week starts on Monday, and it is the weekday of the month's 1st. */
  lemma FirstDayIsMondayBased(month: int, year: int)
    requires 0 <= month < 12
    ensures GetFirstDayOfMonth(month, year) == (WeekDay(DayNumber(LocalDate(MakeFullYear(year), month, 1))) + 6) % 7
  {
    var d := LocalDate(MakeFullYear(year), month, 1);
    LocalDateOfInRange(MakeFullYear(year), month, 1, 0);
    assert DateAt(year, month, 1) == d;
    MondayShift(WeekDay(DayNumber(d)));
  }

  lemma MondayShift(w: nat)
    requires w < 7
    ensures (if w == 0 then 6 else w - 1) == (w + 6) % 7
  {
  }

  /** Days are disabled outside [minDate, maxDate]. */
  predicate IsDateDisabled(date: LocalDate, minDate: Instant, maxDate: Instant)
    requires 0 <= date.month < 12
  {
    Before(Midnight(date), minDate) || Before(maxDate, Midnight(date))
  }

  /** The default bounds: 1 January 1900 and 31 December 2040, both at midnight. */
  function DefaultMin(): Instant { Midnight(LocalDate(1900, 0, 1)) }
  function DefaultMax(): Instant { Midnight(LocalDate(2040, 11, 31)) }

  // ---------------------------------------------------------------------------
  // The picker's state and its handlers

  datatype ViewMode = Days | Months | Years

  /** What the picker holds: `null`, a `Date`, or a string. */
  datatype DateValue = NullValue | DateObject(date: LocalDate) | Text(text: string)

  datatype PickerState = PickerState(isOpen: bool, currentMonth: int, currentYear: int, viewMode: ViewMode,
                                     value: DateValue)

  predicate Valid(s: PickerState)
  {
    0 <= s.currentMonth < 12
  }

  datatype Direction = Prev | Next

  /** `navigateMonth`: one month back or forward, the year following across January and December. */
  function MonthNavigated(s: PickerState, direction: Direction): (r: PickerState)
    requires Valid(s)
    ensures Valid(r)
    ensures r == s.(currentMonth := r.currentMonth, currentYear := r.currentYear)
  {
    match direction
    case Prev =>
      if s.currentMonth == 0 then s.(currentMonth := 11, currentYear := s.currentYear - 1)
      else s.(currentMonth := s.currentMonth - 1)
    case Next =>
      if s.currentMonth == 11 then s.(currentMonth := 0, currentYear := s.currentYear + 1)
      else s.(currentMonth := s.currentMonth + 1)
  }

  /** Months counted from year 0. */
  function MonthIndex(s: PickerState): int
  {
    s.currentYear * 12 + s.currentMonth
  }

  /** "next" is one month later and "prev" one month earlier, so each undoes the other. */
  lemma NavigateMonthSteps(s: PickerState)
    requires Valid(s)
    ensures MonthIndex(MonthNavigated(s, Next)) == MonthIndex(s) + 1
    ensures MonthIndex(MonthNavigated(s, Prev)) == MonthIndex(s) - 1
    ensures MonthNavigated(MonthNavigated(s, Next), Prev) == s
    ensures MonthNavigated(MonthNavigated(s, Prev), Next) == s
  {
  }

  /** `navigateYears`: twelve years back or forward, only when that stays within 1900..2040. */
  function YearsNavigated(s: PickerState, direction: Direction): (r: PickerState)
    ensures r == s.(currentYear := r.currentYear)
    ensures var next := s.currentYear + (if direction == Prev then -12 else 12);
            if 1900 <= next <= 2040 then r.currentYear == next else r.currentYear == s.currentYear
  {
    var change := if direction == Prev then -12 else 12;
    var newYear := s.currentYear + change;
    if 1900 <= newYear <= 2040 then s.(currentYear := newYear) else s
  }

  /** A year inside the range stays inside it however the pages are turned. */
  lemma YearsStayInRange(s: PickerState, direction: Direction)
    requires 1900 <= s.currentYear <= 2040
    ensures 1900 <= YearsNavigated(s, direction).currentYear <= 2040
  {
  }

  /** `handleMonthClick`: pick the month and show its days. */
  function MonthClicked(s: PickerState, monthIndex: int): PickerState
  {
    s.(currentMonth := monthIndex, viewMode := Days)
  }

  /** `handleYearClick`: pick the year and show its months. */
  function YearClicked(s: PickerState, year: int): PickerState
  {
    s.(currentYear := year, viewMode := Months)
  }

  /**
   * A year click changes the year and opens the months view; a month click
   * (from one of the twelve month buttons) changes the month, keeps the state
   * valid and opens the days view. Nothing else changes.
   */
  lemma ClicksSwitchView(s: PickerState, monthIndex: int, year: int)
    ensures var r := YearClicked(s, year);
            r.viewMode == Months && r.currentYear == year && r.currentMonth == s.currentMonth &&
            r.isOpen == s.isOpen && r.value == s.value
    ensures var r := MonthClicked(s, monthIndex);
            r.viewMode == Days && r.currentMonth == monthIndex && r.currentYear == s.currentYear &&
            r.isOpen == s.isOpen && r.value == s.value
    ensures 0 <= monthIndex < 12 ==> Valid(MonthClicked(s, monthIndex))
  {
  }

  /**
   * `formatOutput`: the value keeps its kind. A `null` value stays `null`;
   * a string value becomes the date's `en-CA` text (`caText`).
   */
  function FormatOutput(value: DateValue, date: LocalDate, caText: LocalDate -> string): (r: DateValue)
    ensures value.NullValue? <==> r.NullValue?
    ensures value.Text? ==> r == Text(caText(date))
    ensures value.DateObject? ==> r == DateObject(date)
  {
    match value
    case NullValue => NullValue
    case Text(_) => Text(caText(date))
    case DateObject(_) => DateObject(date)
  }

  /** `handleDateClick(day)`: a day within the bounds becomes the value and closes the picker. */
  function DateClicked(s: PickerState, day: nat, minDate: Instant, maxDate: Instant, caText: LocalDate -> string)
    : (r: PickerState)
  {
    var newDate := DateAt(s.currentYear, s.currentMonth, day);
    if !IsDateDisabled(newDate, minDate, maxDate) then
      s.(value := FormatOutput(s.value, newDate, caText), isOpen := false)
    else s
  }

  /** A disabled day changes nothing; an enabled one sets the value of the clicked date and closes the picker. */
  lemma DateClickEffect(s: PickerState, day: nat, minDate: Instant, maxDate: Instant, caText: LocalDate -> string)
    ensures var d := DateAt(s.currentYear, s.currentMonth, day);
            var r := DateClicked(s, day, minDate, maxDate, caText);
            (IsDateDisabled(d, minDate, maxDate) ==> r == s) &&
            (!IsDateDisabled(d, minDate, maxDate) ==>
               (!r.isOpen && r == s.(value := r.value, isOpen := false) &&
                (s.value.DateObject? ==> r.value == DateObject(d))))
  {
  }

  /** A date picked from the month on show is that month's date when the month is in range and the day exists. */
  lemma ClickedDateInMonth(s: PickerState, day: nat)
    requires Valid(s) && 1 <= day <= DaysInMonth(MakeFullYear(s.currentYear), s.currentMonth)
    ensures DateAt(s.currentYear, s.currentMonth, day) == LocalDate(MakeFullYear(s.currentYear), s.currentMonth, day)
  {
    LocalDateOfInRange(MakeFullYear(s.currentYear), s.currentMonth, day, 0);
  }

  /** As written, clicking a day while the value is `null` sets `null` again: no date can ever be picked into an empty picker. */
  lemma EmptyPickerStaysEmpty(s: PickerState, day: nat, minDate: Instant, maxDate: Instant, caText: LocalDate -> string)
    requires s.value.NullValue?
    ensures DateClicked(s, day, minDate, maxDate, caText).value == NullValue
  {
  }

  datatype OutputFormat = DateFormat | StringFormat

  /**
   * The intended `formatOutput`: the declared `format` prop decides the kind
   * when there is no value to follow ("string" by default).
   */
  function FormatOutputFixed(value: DateValue, format: OutputFormat, date: LocalDate, caText: LocalDate -> string)
    : (r: DateValue)
    ensures !r.NullValue?
    ensures value.Text? || (value.NullValue? && format == StringFormat) ==> r == Text(caText(date))
    ensures value.DateObject? || (value.NullValue? && format == DateFormat) ==> r == DateObject(date)
  {
    match value
    case NullValue => if format == DateFormat then DateObject(date) else Text(caText(date))
    case Text(_) => Text(caText(date))
    case DateObject(_) => DateObject(date)
  }

  function DateClickedFixed(s: PickerState, format: OutputFormat, day: nat, minDate: Instant, maxDate: Instant,
                            caText: LocalDate -> string): PickerState
  {
    var newDate := DateAt(s.currentYear, s.currentMonth, day);
    if !IsDateDisabled(newDate, minDate, maxDate) then
      s.(value := FormatOutputFixed(s.value, format, newDate, caText), isOpen := false)
    else s
  }

  /** With the fix, an enabled click always leaves a value, and agrees with the original whenever there was one. */
  lemma FixedClickSetsValue(s: PickerState, format: OutputFormat, day: nat, minDate: Instant, maxDate: Instant,
                            caText: LocalDate -> string)
    requires !IsDateDisabled(DateAt(s.currentYear, s.currentMonth, day), minDate, maxDate)
    ensures !DateClickedFixed(s, format, day, minDate, maxDate, caText).value.NullValue?
    ensures !s.value.NullValue? ==>
              DateClickedFixed(s, format, day, minDate, maxDate, caText) == DateClicked(s, day, minDate, maxDate, caText)
  {
  }

  // ---------------------------------------------------------------------------
  // The grids

  /** A cell of the day grid: a blank before the 1st, or a button for one day. */
  datatype DayCell = Blank | DayButton(day: nat, disabled: bool, selected: bool, today: bool)

  /** The button for one day of the month on show. */
  function DayCellOf(year: int, month: int, day: nat, selected: Option<LocalDate>, today: LocalDate,
                     minDate: Instant, maxDate: Instant): DayCell
  {
    var date := DateAt(year, month, day);
    DayButton(day, IsDateDisabled(date, minDate, maxDate), selected == Some(date), date == today)
  }

  /** The buttons of one month, by day number. */
  function MonthCells(year: int, month: int, selected: Option<LocalDate>, today: LocalDate,
                      minDate: Instant, maxDate: Instant): nat -> DayCell
  {
    (day: nat) => DayCellOf(year, month, day, selected, today, minDate, maxDate)
  }

  /** A button of the year grid. */
  datatype YearCell = YearCell(year: int, disabled: bool, current: bool)

  function YearCellOf(year: int, currentYear: int, minDate: Instant, maxDate: Instant): YearCell
  {
    var d := DateAt(year, 0, 1);
    YearCell(year, Before(Midnight(d), minDate) || Before(maxDate, Midnight(d)), currentYear == year)
  }

  class Picker {
    var isOpen: bool
    var currentMonth: int
    var currentYear: int
    var viewMode: ViewMode
    var value: DateValue

    function Snapshot(): PickerState
      reads this
    {
      PickerState(isOpen, currentMonth, currentYear, viewMode, value)
    }

    /** The picker starts closed on the days of the month given by the clock. */
    constructor(month: int, year: int, value: DateValue)
      requires 0 <= month < 12
      ensures Snapshot() == PickerState(false, month, year, Days, value)
    {
      isOpen, currentMonth, currentYear, viewMode := false, month, year, Days;
      this.value := value;
    }

    method NavigateMonth(direction: Direction)
      requires Valid(Snapshot())
      modifies this
      ensures Snapshot() == MonthNavigated(old(Snapshot()), direction)
    {
      if direction == Prev {
        if currentMonth == 0 {
          currentMonth, currentYear := 11, currentYear - 1;
        } else {
          currentMonth := currentMonth - 1;
        }
      } else {
        if currentMonth == 11 {
          currentMonth, currentYear := 0, currentYear + 1;
        } else {
          currentMonth := currentMonth + 1;
        }
      }
    }

    method NavigateYears(direction: Direction)
      modifies this
      ensures Snapshot() == YearsNavigated(old(Snapshot()), direction)
    {
      var change := if direction == Prev then -12 else 12;
      var newYear := currentYear + change;
      if 1900 <= newYear <= 2040 {
        currentYear := newYear;
      }
    }

    method HandleMonthClick(monthIndex: int)
      modifies this
      ensures Snapshot() == MonthClicked(old(Snapshot()), monthIndex)
    {
      currentMonth := monthIndex;
      viewMode := Days;
    }

    method HandleYearClick(year: int)
      modifies this
      ensures Snapshot() == YearClicked(old(Snapshot()), year)
    {
      currentYear := year;
      viewMode := Months;
    }

    method HandleDateClick(day: nat, minDate: Instant, maxDate: Instant, caText: LocalDate -> string)
      modifies this
      ensures Snapshot() == DateClicked(old(Snapshot()), day, minDate, maxDate, caText)
    {
      var newDate := DateAt(currentYear, currentMonth, day);
      if !IsDateDisabled(newDate, minDate, maxDate) {
        value := FormatOutput(value, newDate, caText);
        isOpen := false;
      }
    }

    /**
     * `renderDays`: `firstDay` blanks, then one button per day 1..n of the
     * month on show. `selected` is the parsed value and `today` the clock's date.
     */
    method RenderDays(selected: Option<LocalDate>, today: LocalDate, minDate: Instant, maxDate: Instant)
      returns (days: seq<DayCell>)
      ensures var firstDay := GetFirstDayOfMonth(currentMonth, currentYear);
              var n := GetDaysInMonth(currentMonth, currentYear);
              |days| == firstDay + n &&
              (forall i :: 0 <= i < firstDay ==> days[i] == Blank) &&
              (forall i :: firstDay <= i < |days| ==>
                 days[i] == MonthCells(currentYear, currentMonth, selected, today, minDate, maxDate)(i - firstDay + 1))
    {
      var daysInMonth := GetDaysInMonth(currentMonth, currentYear);
      var firstDay := GetFirstDayOfMonth(currentMonth, currentYear);
      var year, month := currentYear, currentMonth;
      days := DayGrid(firstDay, daysInMonth, MonthCells(year, month, selected, today, minDate, maxDate));
    }

    /**
     * `renderYears`: the twelve-year page holding the current year, starting
     * at a multiple of 12, keeping only the years in 1900..2040.
     */
    method RenderYears(minDate: Instant, maxDate: Instant) returns (years: seq<YearCell>)
      ensures var start := currentYear / 12 * 12;
              var lo := if start < 1900 then 1900 else start;
              var hi := if start + 11 > 2040 then 2040 else start + 11;
              |years| == (if hi < lo then 0 else hi - lo + 1) &&
              forall i :: 0 <= i < |years| ==> years[i] == YearCellOf(lo + i, currentYear, minDate, maxDate)
      ensures |years| <= 12
      ensures forall i :: 0 <= i < |years| ==> 1900 <= years[i].year <= 2040
    {
      var current := currentYear;
      years := YearPage(current / 12 * 12, year => YearCellOf(year, current, minDate, maxDate));
    }
  }

  /** The two loops of `renderDays`: `firstDay` blanks, then `cell(1)` .. `cell(n)`. */
  method DayGrid(firstDay: nat, n: int, cell: nat -> DayCell) returns (days: seq<DayCell>)
    ensures |days| == firstDay + (if n < 0 then 0 else n)
    ensures forall i :: 0 <= i < firstDay ==> days[i] == Blank
    ensures forall i :: firstDay <= i < |days| ==> days[i] == cell(i - firstDay + 1)
  {
    days := [];
    var i := 0;
    while i < firstDay
      invariant 0 <= i <= firstDay
      invariant |days| == i && forall j :: 0 <= j < i ==> days[j] == Blank
    {
      days := days + [Blank];
      i := i + 1;
    }
    var day := 1;
    while day <= n
      invariant 1 <= day && (n >= 0 ==> day <= n + 1) && (n < 0 ==> day == 1)
      invariant |days| == firstDay + day - 1
      invariant forall j :: 0 <= j < firstDay ==> days[j] == Blank
      invariant forall j :: firstDay <= j < |days| ==> days[j] == cell(j - firstDay + 1)
    {
      days := days + [cell(day)];
      day := day + 1;
    }
  }

  /** The loop of `renderYears`: `cell(year)` for each of the twelve years from `start` within 1900..2040. */
  method YearPage(start: int, cell: int -> YearCell) returns (years: seq<YearCell>)
    ensures var lo := if start < 1900 then 1900 else start;
            var hi := if start + 11 > 2040 then 2040 else start + 11;
            |years| == (if hi < lo then 0 else hi - lo + 1) &&
            forall i :: 0 <= i < |years| ==> years[i] == cell(lo + i)
  {
    var lo := if start < 1900 then 1900 else start;
    years := [];
    var year := start;
    while year < start + 12
      invariant start <= year <= start + 12
      invariant var top := if year - 1 > 2040 then 2040 else year - 1;
                |years| == (if top < lo then 0 else top - lo + 1)
      invariant forall i :: 0 <= i < |years| ==> years[i] == cell(lo + i)
    {
      if 1900 <= year <= 2040 {
        years := years + [cell(year)];
      }
      year := year + 1;
    }
  }
}
