/**
 * Parsing of the display timestamps "DD.MM.YYYY, hh:mm:ss" exactly as the
 * dashboard code does it: split on ", ", split the date on "." and the time
 * on ":", convert each piece with `Number`, and build
 * `new Date(year, month - 1, day, hours, minutes, seconds)`.
 */
module Timestamp {
  import opened Wrappers
  import opened Text
  import opened JsDate

  /**
   * `Number(s)` for the strings modelled: `""` is 0, a run of ASCII digits is
   * its decimal value, anything else is NaN (`None`).
   */
  function ToNumber(s: string): (r: Option<nat>)
    ensures r.Some? <==> IsDigits(s)
    ensures s == "" ==> r == Some(0)
  {
    if IsDigits(s) then Some(DigitsValue(s)) else None
  }

  /** Element `k` of `parts.map(Number)` in a destructuring assignment: `undefined` (NaN) past the end. */
  function Component(parts: seq<string>, k: nat): (r: Option<nat>)
    ensures k >= |parts| ==> r.None?
  {
    if k < |parts| then ToNumber(parts[k]) else None
  }

  /**
   * The arguments of `new Date(year, month, day, hours, minutes, seconds)`,
   * the time of day merged into seconds; `DateOf` is the local date they denote.
   */
  datatype DateArgs = DateArgs(year: int, month: int, day: nat, seconds: nat)

  function DateOf(a: DateArgs): (d: LocalDate)
    ensures IsValid(d)
  {
    LocalDateOf(a.year, a.month, a.day, a.seconds)
  }

  /**
   * `new Date(year, month - 1, day, hours, minutes, seconds)` where a `None`
   * argument is NaN: the result is an invalid date (`None`) exactly when some
   * argument is NaN, otherwise the date built from the arguments, a two-digit
   * year read as 19xx.
   */
  function ConstructDate(day: Option<nat>, month: Option<nat>, year: Option<nat>,
                         hours: Option<nat>, minutes: Option<nat>, seconds: Option<nat>): (r: Option<DateArgs>)
    ensures r.Some? <==> day.Some? && month.Some? && year.Some? && hours.Some? && minutes.Some? && seconds.Some?
    ensures r.Some? ==> r.value.year == MakeFullYear(year.value) && r.value.month == month.value - 1
                        && r.value.day == day.value
  {
    if day.Some? && month.Some? && year.Some? && hours.Some? && minutes.Some? && seconds.Some? then
      Some(DateArgs(MakeFullYear(year.value), month.value - 1, day.value,
                    hours.value * 3600 + minutes.value * 60 + seconds.value))
    else None
  }

  /**
   * What the parsing code reaches: `MissingTimePart` when the string has no
   * ", " (then `timePart` is `undefined` and `timePart.split` throws a
   * TypeError), otherwise the constructed date, `None` being an invalid date.
   */
  datatype Parsed = MissingTimePart | Constructed(date: Option<DateArgs>)

  function ParseTimestamp(text: string): Parsed
  {
    var halves := Split(text, ", ");
    if |halves| < 2 then MissingTimePart
    else
      var dateParts := Split(halves[0], ".");
      var timeParts := Split(halves[1], ":");
      Constructed(ConstructDate(Component(dateParts, 0), Component(dateParts, 1), Component(dateParts, 2),
                                Component(timeParts, 0), Component(timeParts, 1), Component(timeParts, 2)))
  }

  /** Parsing throws exactly when the string contains no ", ". */
  lemma MissingTimePartIff(text: string)
    ensures ParseTimestamp(text) == MissingTimePart <==> IndexOf(text, ", ", 0).None?
  {
    var r := IndexOf(text, ", ", 0);
    if r.Some? {
      var rest := text[r.value + 2..];
      assert Split(text, ", ") == [text[..r.value]] + Split(rest, ", ");
    }
  }

  /** The display form of a timestamp, built from its six digit runs. */
  function Format(dd: string, mm: string, yyyy: string, hh: string, mi: string, ss: string): string
  {
    dd + "." + mm + "." + yyyy + ", " + hh + ":" + mi + ":" + ss
  }

  lemma DigitsLack(s: string)
    requires IsDigits(s)
    ensures Lacks(s, ',') && Lacks(s, '.') && Lacks(s, ':')
  {
    forall j | 0 <= j < |s| ensures s[j] != ',' && s[j] != '.' && s[j] != ':' {
      assert IsDigit(s[j]);
    }
  }

  lemma SplitTwo(a: string, b: string, sep: string)
    requires |sep| > 0 && Lacks(a, sep[0]) && Lacks(b, sep[0])
    ensures Split(a + sep + b, sep) == [a, b]
  {
    var parts := [a, b];
    assert parts[1..] == [b];
    assert Join(parts, sep) == a + sep + b;
    SplitJoin(parts, sep);
  }

  lemma SplitThree(a: string, b: string, c: string, sep: string)
    requires |sep| > 0 && Lacks(a, sep[0]) && Lacks(b, sep[0]) && Lacks(c, sep[0])
    ensures Split(a + sep + b + sep + c, sep) == [a, b, c]
  {
    var parts := [a, b, c];
    assert parts[1..] == [b, c];
    assert parts[1..][1..] == [c];
    assert Join(parts[1..], sep) == b + sep + c;
    assert Join(parts, sep) == a + sep + (b + sep + c);
    assert a + sep + (b + sep + c) == a + sep + b + sep + c;
    SplitJoin(parts, sep);
  }

  /** The string level of parsing a formatted timestamp: each digit run reaches its `Number` call. */
  lemma {:induction false} ParseFormatPieces(dd: string, mm: string, yyyy: string, hh: string, mi: string, ss: string)
    requires IsDigits(dd) && IsDigits(mm) && IsDigits(yyyy) && IsDigits(hh) && IsDigits(mi) && IsDigits(ss)
    ensures ParseTimestamp(Format(dd, mm, yyyy, hh, mi, ss))
         == Constructed(ConstructDate(ToNumber(dd), ToNumber(mm), ToNumber(yyyy), ToNumber(hh), ToNumber(mi), ToNumber(ss)))
  {
    var text := Format(dd, mm, yyyy, hh, mi, ss);
    var datePart := dd + "." + mm + "." + yyyy;
    var timePart := hh + ":" + mi + ":" + ss;
    assert text == datePart + ", " + timePart;
    DigitsLack(dd); DigitsLack(mm); DigitsLack(yyyy); DigitsLack(hh); DigitsLack(mi); DigitsLack(ss);
    LacksConcat5(dd, ".", mm, ".", yyyy, ',');
    LacksConcat5(hh, ":", mi, ":", ss, ',');
    SplitTwo(datePart, timePart, ", ");
    SplitThree(dd, mm, yyyy, ".");
    SplitThree(hh, mi, ss, ":");
  }

  lemma ConstructSome(day: nat, month: nat, year: nat, hours: nat, minutes: nat, seconds: nat)
    ensures ConstructDate(Some(day), Some(month), Some(year), Some(hours), Some(minutes), Some(seconds))
         == Some(DateArgs(MakeFullYear(year), month - 1, day, hours * 3600 + minutes * 60 + seconds))
  {
  }

  lemma LacksConcat5(a: string, b: string, c: string, d: string, e: string, x: char)
    requires Lacks(a, x) && Lacks(b, x) && Lacks(c, x) && Lacks(d, x) && Lacks(e, x)
    ensures Lacks(a + b + c + d + e, x)
  {
  }

  /**
   * The `ru-RU` display form of a local date and time, as `toLocaleString`
   * writes it: two-digit day, month, hours, minutes, seconds, four-digit year.
   */
  function DisplayTimestamp(day: nat, month: nat, year: nat, hours: nat, minutes: nat, seconds: nat): string
  {
    Format(Padded(day, 2), Padded(month, 2), Padded(year, 4), Padded(hours, 2), Padded(minutes, 2), Padded(seconds, 2))
  }

  lemma PaddedNumber(n: nat, width: nat)
    ensures ToNumber(Padded(n, width)) == Some(n)
  {
    PaddedValue(n, width);
  }

  /** A displayed timestamp parses back to the date `new Date(year, month - 1, day, …)` denotes. */
  lemma ParseDisplay(day: nat, month: nat, year: nat, hours: nat, minutes: nat, seconds: nat)
    ensures ParseTimestamp(DisplayTimestamp(day, month, year, hours, minutes, seconds))
         == Constructed(Some(DateArgs(MakeFullYear(year), month - 1, day, hours * 3600 + minutes * 60 + seconds)))
  {
    ParseFormatPieces(Padded(day, 2), Padded(month, 2), Padded(year, 4), Padded(hours, 2), Padded(minutes, 2), Padded(seconds, 2));
    PaddedNumber(day, 2); PaddedNumber(month, 2); PaddedNumber(year, 4);
    PaddedNumber(hours, 2); PaddedNumber(minutes, 2); PaddedNumber(seconds, 2);
    ConstructSome(day, month, year, hours, minutes, seconds);
  }

  /**
   * A displayed timestamp naming a real calendar date and a time of day
   * parses to exactly that date, month `month - 1`.
   */
  lemma ParseDisplayValid(day: nat, month: nat, year: nat, hours: nat, minutes: nat, seconds: nat)
    requires 1 <= month <= 12 && 1 <= day <= DaysInMonth(MakeFullYear(year), month - 1)
    requires hours < 24 && minutes < 60 && seconds < 60
    ensures var p := ParseTimestamp(DisplayTimestamp(day, month, year, hours, minutes, seconds));
            p.Constructed? && p.date.Some? && DateOf(p.date.value) == LocalDate(MakeFullYear(year), month - 1, day)
  {
    var args := DateArgs(MakeFullYear(year), month - 1, day, hours * 3600 + minutes * 60 + seconds);
    ParseDisplay(day, month, year, hours, minutes, seconds);
    LocalDateOfInRange(args.year, args.month, args.day, args.seconds);
  }
}
