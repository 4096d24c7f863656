/**
 * The derived data of the dashboard page: its own inline copy of the monthly
 * income loop (which, unlike the hook, has no `try`), the twelve chart
 * entries, the weekday expense series (`dailyExpenses`, a `reduce` per weekday
 * label, Sunday = 0) and the pie-chart slices (`transFormedData`).
 */
module DashboardView {
  import opened Wrappers
  import opened Text
  import opened JsDate
  import opened Timestamp
  import opened DashboardRecords
  import opened Buckets
  import opened ChartDataHook

  // ---------------------------------------------------------------------------
  // The inline monthly loop

  /**
   * The inline callback on one record: an empty date is passed over; a date
   * without ", " makes `timePart.split` throw, and nothing catches it; an
   * invalid date has month NaN, and `monthlyIncomes[NaN] += price` writes a
   * property that is not one of the twelve slots; a valid date goes to its month.
   */
  function InlineStep(b: BalanceEntry): (s: Step)
    ensures s.Into? ==> s.k < 12
  {
    if b.date == "" then Skip
    else match ParseTimestamp(b.date)
      case MissingTimePart => Throw
      case Constructed(None) => Skip
      case Constructed(Some(args)) => Into(DateOf(args).month)
  }

  lemma InlineStepBounded()
    ensures StepBounded(InlineStep, 12)
  {
  }

  /** The inline `monthlyIncomes`, `None` when the render throws. */
  function InlineMonthlySums(history: seq<BalanceEntry>): (r: Option<seq<int>>)
    ensures r.Some? ==> |r.value| == 12
  {
    InlineStepBounded();
    BucketedOrThrow(history, InlineStep, PriceOf, 12)
  }

  /** The inline loop as the page runs it: zeros for an empty history, else the `forEach`. */
  method InlineMonthlyIncomes(history: seq<BalanceEntry>) returns (incomes: Option<seq<int>>)
    ensures incomes == InlineMonthlySums(history)
  {
    if |history| == 0 {
      return Some(Zeros(12));
    }
    InlineStepBounded();
    incomes := FillSlotsOrThrow(history, InlineStep, PriceOf, 12);
  }

  /** The callback throws exactly for a non-empty date without ", ". */
  lemma InlineThrowsIff(b: BalanceEntry)
    ensures InlineStep(b).Throw? <==> b.date != "" && IndexOf(b.date, ", ", 0).None?
  {
    MissingTimePartIff(b.date);
  }

  /** Where it does not throw, the inline callback places a record exactly as the hook does. */
  lemma InlineAgreesWithHook(b: BalanceEntry)
    ensures !InlineStep(b).Throw? ==> Agrees(InlineStep(b), MonthOf(b))
  {
  }

  /** The page fails to render exactly when some record has a non-empty date without ", ". */
  lemma InlineCrashIff(history: seq<BalanceEntry>)
    ensures InlineMonthlySums(history).None? <==>
              exists i :: 0 <= i < |history| && history[i].date != "" && IndexOf(history[i].date, ", ", 0).None?
  {
    InlineStepBounded();
    ThrowIff(history, InlineStep, PriceOf, 12);
    forall i | 0 <= i < |history|
      ensures InlineStep(history[i]).Throw? <==> history[i].date != "" && IndexOf(history[i].date, ", ", 0).None?
    {
      InlineThrowsIff(history[i]);
    }
  }

  /** Otherwise the inline loop computes the same twelve slots as the hook. */
  lemma InlineMatchesHook(history: seq<BalanceEntry>)
    requires forall i :: 0 <= i < |history| ==> !InlineStep(history[i]).Throw?
    ensures InlineMonthlySums(history) == Some(MonthlySums(history))
  {
    InlineStepBounded();
    MonthOfBounded();
    forall i | 0 <= i < |history| ensures Agrees(InlineStep(history[i]), MonthOf(history[i])) {
      InlineAgreesWithHook(history[i]);
    }
    NoThrowAgrees(history, InlineStep, MonthOf, PriceOf, 12);
  }

  /** One record dated without a time: the page throws, where the hook skips the record. */
  lemma InlineCrashExample()
    ensures InlineMonthlySums([BalanceEntry("a", 100, "15.03.2025")]).None?
    ensures MonthlySums([BalanceEntry("a", 100, "15.03.2025")]) == Zeros(12)
  {
    var b := BalanceEntry("a", 100, "15.03.2025");
    assert IndexOf(b.date, ", ", 0).None? by {
      IndexOfFirst(b.date, ", ", 0);
      NoCommaSpace(b.date);
    }
    InlineCrashIff([b]);
    assert [b][0] == b;
    MonthOfBounded();
    assert MonthOf(b).None? by {
      SkippedIff(b.date);
    }
    assert [b][..0] == [];
  }

  /** A string with no ',' has no ", " in it. */
  lemma NoCommaSpace(s: string)
    requires Lacks(s, ',')
    ensures IndexOf(s, ", ", 0).None?
  {
    SkipUnmatched(s, ", ", 0, |s|);
  }

  /**
   * The page's `chartData`, built from the corrected monthly slots: the
   * hook's placement, which skips a record that the inline loop would throw on.
   */
  function PageChartData(history: seq<BalanceEntry>, currentMonth: int): (r: seq<ChartEntry>)
    ensures |r| == 12
    ensures forall m :: 0 <= m < 12 ==>
              r[m] == ChartEntry(Months[m], Total(history, MonthOf, PriceOf, m), m == currentMonth)
  {
    var incomes := MonthlySums(history);
    MonthOfBounded();
    forall m | 0 <= m < 12 ensures incomes[m] == Total(history, MonthOf, PriceOf, m) {
      SlotIsTotal(history, MonthOf, PriceOf, 12, m);
    }
    ChartData(incomes, currentMonth)
  }

  // ---------------------------------------------------------------------------
  // Expenses per weekday

  /**
   * The weekday an expense's date falls on (`getDay`, Sunday = 0), `None` when
   * the `reduce` callback keeps the running sum: an empty date, a date without
   * ", " (the caught TypeError) and an invalid date (day NaN equals no index).
   */
  function WeekdaySlot(date: string): (r: Option<nat>)
    ensures r.Some? ==> r.value < 7
  {
    if date == "" then None
    else match ParseTimestamp(date)
      case MissingTimePart => None
      case Constructed(None) => None
      case Constructed(Some(args)) => Some(WeekDay(DayNumber(DateOf(args))))
  }

  function WeekdayOf(e: Expence): Option<nat>
  {
    WeekdaySlot(e.date)
  }

  function ExpencePrice(e: Expence): int
  {
    e.price
  }

  lemma WeekdayOfBounded()
    ensures Bounded(WeekdayOf, 7)
  {
    forall e: Expence | WeekdayOf(e).Some? ensures WeekdayOf(e).value < 7 {
      assert WeekdayOf(e) == WeekdaySlot(e.date);
    }
  }

  /** One point of the weekday chart. */
  datatype DayValue = DayValue(day: string, value: int)

  /**
   * `WEEK_DAYS.map((dayName, idx) => ...)`: for each label, the `reduce` over
   * the expenses that adds the prices of those dated on weekday `idx`.
   */
  function DailyExpenses(weekDays: seq<string>, expences: seq<Expence>): (r: seq<DayValue>)
    ensures |r| == |weekDays|
    ensures forall idx :: 0 <= idx < |r| ==> r[idx].day == weekDays[idx]
    ensures forall idx :: 0 <= idx < |r| ==> r[idx].value == Total(expences, WeekdayOf, ExpencePrice, idx)
  {
    seq(|weekDays|, idx requires 0 <= idx < |weekDays| =>
      DayValue(weekDays[idx], Total(expences, WeekdayOf, ExpencePrice, idx)))
  }

  function Values(points: seq<DayValue>): (r: seq<int>)
    ensures |r| == |points|
  {
    seq(|points|, i requires 0 <= i < |points| => points[i].value)
  }

  /** The seven weekday values add up to the total of the expenses with a valid date. */
  lemma WeekSumConserved(weekDays: seq<string>, expences: seq<Expence>)
    requires |weekDays| == 7
    ensures Sum(Values(DailyExpenses(weekDays, expences))) == Counted(expences, WeekdayOf, ExpencePrice)
  {
    WeekdayOfBounded();
    var slots := Bucketed(expences, WeekdayOf, ExpencePrice, 7);
    forall idx | 0 <= idx < 7 ensures Values(DailyExpenses(weekDays, expences))[idx] == slots[idx] {
      SlotIsTotal(expences, WeekdayOf, ExpencePrice, 7, idx);
    }
    assert Values(DailyExpenses(weekDays, expences)) == slots;
    SlotsAddUp(expences, WeekdayOf, ExpencePrice, 7);
  }

  /** An expense with an empty or malformed date changes no weekday value, wherever it stands. */
  lemma MalformedExpenseNeutral(weekDays: seq<string>, before: seq<Expence>, e: Expence, after: seq<Expence>)
    requires WeekdaySlot(e.date).None?
    ensures DailyExpenses(weekDays, before + [e] + after) == DailyExpenses(weekDays, before + after)
  {
    assert WeekdayOf(e).None?;
    forall idx | 0 <= idx < |weekDays|
      ensures Total(before + [e] + after, WeekdayOf, ExpencePrice, idx) == Total(before + after, WeekdayOf, ExpencePrice, idx)
    {
      SkippedTotal(before, e, after, WeekdayOf, ExpencePrice, idx);
    }
  }

  /** An expense dated on weekday `w` adds its price to the value at index `w` and to no other. */
  lemma ExpenseCountsOnItsWeekday(weekDays: seq<string>, expences: seq<Expence>, e: Expence, w: nat)
    requires WeekdaySlot(e.date) == Some(w)
    ensures var before := DailyExpenses(weekDays, expences);
            var after := DailyExpenses(weekDays, expences + [e]);
            |after| == |before| &&
            forall idx :: 0 <= idx < |after| ==>
              after[idx].value == before[idx].value + (if idx == w then e.price else 0)
  {
    var xs := expences + [e];
    assert xs[..|xs| - 1] == expences;
    assert WeekdayOf(e) == Some(w);
  }

  /** The expenses passed over are exactly those with an empty date, no ", ", or non-numeric parts. */
  lemma WeekdaySkippedIff(date: string)
    ensures WeekdaySlot(date).None? <==>
              date == "" || IndexOf(date, ", ", 0).None? || ParseTimestamp(date) == Constructed(None)
  {
    MissingTimePartIff(date);
  }

  /** A displayed timestamp naming a real date counts on that date's weekday. */
  lemma DisplayedWeekday(day: nat, month: nat, year: nat, hours: nat, minutes: nat, seconds: nat)
    requires 1 <= month <= 12 && 1 <= day <= DaysInMonth(MakeFullYear(year), month - 1)
    requires hours < 24 && minutes < 60 && seconds < 60
    ensures WeekdaySlot(DisplayTimestamp(day, month, year, hours, minutes, seconds))
         == Some(WeekDay(DayNumber(LocalDate(MakeFullYear(year), month - 1, day))))
  {
    ParseDisplayValid(day, month, year, hours, minutes, seconds);
    assert DisplayTimestamp(day, month, year, hours, minutes, seconds) != "" by {
      ParseDisplay(day, month, year, hours, minutes, seconds);
    }
  }

  // ---------------------------------------------------------------------------
  // Pie-chart slices

  /** One slice of the category pie chart. */
  datatype Slice = Slice(price: int, category: string)

  /** `expences.map(item => ({ price, category }))`. */
  function TransformedData(expences: seq<Expence>): (r: seq<Slice>)
    ensures |r| == |expences|
    ensures forall i :: 0 <= i < |r| ==> r[i].price == expences[i].price && r[i].category == expences[i].category
  {
    seq(|expences|, i requires 0 <= i < |expences| => Slice(expences[i].price, expences[i].category))
  }

  /** The slices of a concatenation are the concatenation of the slices: order is kept. */
  lemma TransformedConcat(a: seq<Expence>, b: seq<Expence>)
    ensures TransformedData(a + b) == TransformedData(a) + TransformedData(b)
  {
  }
}
