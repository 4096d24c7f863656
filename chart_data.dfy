/**
 * The `useChartData` hook: the balance history bucketed into twelve monthly
 * income slots (a records whose date does not parse is skipped), and the
 * twelve chart entries labelled with the month names, one of them flagged as
 * the current month.
 */
module ChartDataHook {
  import opened Wrappers
  import opened Text
  import opened JsDate
  import opened Timestamp
  import opened DashboardRecords
  import opened Buckets

  /** The `MONTHS` labels, January first. */
  const Months: seq<string> := ["Янв", "Фев", "Март", "Ап", "Май", "Июнь", "Июль", "Ав", "Сен", "Ок", "Но", "Дек"]

  /**
   * The slot a record's price goes to, `None` when the record is skipped: an
   * empty date fails `if (b.date)`, a date without ", " throws inside the
   * `try`, and an invalid date has month NaN, which the 0..11 guard rejects.
   */
  function MonthSlot(date: string): (r: Option<nat>)
    ensures r.Some? ==> r.value < 12
  {
    if date == "" then None
    else match ParseTimestamp(date)
      case MissingTimePart => None
      case Constructed(None) => None
      case Constructed(Some(args)) => Some(DateOf(args).month)
  }

  /** The slot of a balance record, by its date. */
  function MonthOf(b: BalanceEntry): Option<nat>
  {
    MonthSlot(b.date)
  }

  function PriceOf(b: BalanceEntry): int
  {
    b.price
  }

  lemma MonthOfBounded()
    ensures Bounded(MonthOf, 12)
  {
    forall b: BalanceEntry | MonthOf(b).Some? ensures MonthOf(b).value < 12 {
      assert MonthOf(b) == MonthSlot(b.date);
    }
  }

  /** The twelve slots after the `forEach` over the whole history, records taken in order. */
  function MonthlySums(history: seq<BalanceEntry>): (r: seq<int>)
    ensures |r| == 12
  {
    MonthOfBounded();
    Bucketed(history, MonthOf, PriceOf, 12)
  }

  /**
   * The records skipped are exactly those with an empty date, a date without
   * ", " (the caught TypeError) and a date whose components are not numbers.
   */
  lemma SkippedIff(date: string)
    ensures MonthSlot(date).None? <==>
              date == "" || IndexOf(date, ", ", 0).None? || ParseTimestamp(date) == Constructed(None)
  {
    MissingTimePartIff(date);
    if date == "" {
      assert IndexOf(date, ", ", 0).None?;
    }
  }

  /** A displayed timestamp naming a real date and time of day goes to slot `month - 1`. */
  lemma DisplayedSlot(day: nat, month: nat, year: nat, hours: nat, minutes: nat, seconds: nat)
    requires 1 <= month <= 12 && 1 <= day <= DaysInMonth(MakeFullYear(year), month - 1)
    requires hours < 24 && minutes < 60 && seconds < 60
    ensures MonthSlot(DisplayTimestamp(day, month, year, hours, minutes, seconds)) == Some(month - 1)
  {
    var text := DisplayTimestamp(day, month, year, hours, minutes, seconds);
    ParseDisplayValid(day, month, year, hours, minutes, seconds);
    assert text != "" by {
      ParseDisplay(day, month, year, hours, minutes, seconds);
    }
  }

  /** Appending a record that goes to slot `m` adds its price there and changes no other slot. */
  lemma DepositInto(history: seq<BalanceEntry>, b: BalanceEntry, m: nat)
    requires MonthSlot(b.date) == Some(m)
    ensures m < 12
    ensures MonthlySums(history + [b]) == MonthlySums(history)[m := MonthlySums(history)[m] + b.price]
  {
    MonthOfBounded();
    AppendNamed(history, b, MonthOf, PriceOf, 12, m);
  }

  /**
   * The `incomes` memo: twelve zero slots, returned as they are for an empty
   * history, otherwise filled by the `forEach` whose callback places each
   * record by its date.
   */
  method MonthlyIncomes(history: seq<BalanceEntry>) returns (incomes: seq<int>)
    ensures incomes == MonthlySums(history)
    ensures |history| == 0 ==> incomes == Zeros(12)
  {
    if |history| == 0 {
      return Zeros(12);
    }
    MonthOfBounded();
    incomes := FillSlots(history, MonthOf, PriceOf, 12);
  }

  /** One bar of the chart. */
  datatype ChartEntry = ChartEntry(month: string, income: int, isCurrent: bool)

  /** `MONTHS.map(...)`: the label, the slot's income, and whether it is the current month. */
  function ChartData(incomes: seq<int>, currentMonth: int): (r: seq<ChartEntry>)
    requires |incomes| == 12
    ensures |r| == |Months|
  {
    seq(12, i requires 0 <= i < 12 => ChartEntry(Months[i], incomes[i], i == currentMonth))
  }

  /** The number of entries flagged as current. */
  function CountCurrent(entries: seq<ChartEntry>): nat
  {
    if |entries| == 0 then 0
    else CountCurrent(entries[..|entries| - 1]) + (if entries[|entries| - 1].isCurrent then 1 else 0)
  }

  lemma {:induction false} CountFlagged(entries: seq<ChartEntry>, c: int)
    requires forall i :: 0 <= i < |entries| ==> (entries[i].isCurrent <==> i == c)
    ensures CountCurrent(entries) == if 0 <= c < |entries| then 1 else 0
  {
    if |entries| > 0 {
      CountFlagged(entries[..|entries| - 1], c);
    }
  }

  /** Exactly one entry is flagged current for a month index from `getMonth` (0..11). */
  lemma OneCurrent(incomes: seq<int>, currentMonth: int)
    requires |incomes| == 12
    ensures CountCurrent(ChartData(incomes, currentMonth)) == if 0 <= currentMonth < 12 then 1 else 0
  {
    CountFlagged(ChartData(incomes, currentMonth), currentMonth);
  }

  /** The hook's result: twelve entries in month order, each carrying that month's total. */
  method UseChartData(history: seq<BalanceEntry>, currentMonth: int) returns (chart: seq<ChartEntry>)
    ensures |chart| == 12
    ensures forall m :: 0 <= m < 12 ==>
              chart[m] == ChartEntry(Months[m], Total(history, MonthOf, PriceOf, m), m == currentMonth)
  {
    var incomes := MonthlyIncomes(history);
    chart := ChartData(incomes, currentMonth);
    MonthOfBounded();
    forall m | 0 <= m < 12 ensures chart[m].income == Total(history, MonthOf, PriceOf, m) {
      SlotIsTotal(history, MonthOf, PriceOf, 12, m);
    }
  }
}
