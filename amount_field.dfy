/** The digit-only amount input shared by the income and expense modals. */
module AmountField {
  import opened Wrappers
  import opened Text

  /**
   * The new price for typed text `val`, or None when the text is rejected
   * (the regex `^\d*$` fails) and the state stays as it is. "" reads as 0.
   */
  function ParseAmount(val: string): (r: Option<nat>)
    ensures r.Some? <==> IsDigits(val)
    ensures val == "" ==> r == Some(0)
    ensures r.Some? ==> r.value == DigitsValue(val)
  {
    if !IsDigits(val) then None
    else if val == "" then Some(0)
    else Some(DigitsValue(val))
  }

  /** Typing the decimal notation of a number sets exactly that number. */
  lemma ParseDecimal(n: nat)
    ensures ParseAmount(DecimalString(n)) == Some(n)
  {
    DecimalRoundTrip(n);
  }

  /** Leading zeros are ignored, and a text with a non-digit is rejected with or without them. */
  lemma LeadingZerosIgnored(s: string)
    ensures ParseAmount("0" + s) == ParseAmount(s)
  {
    if IsDigits(s) {
      LeadingZero(s);
    } else {
      var i :| 0 <= i < |s| && !IsDigit(s[i]);
      assert ("0" + s)[i + 1] == s[i];
    }
  }
}
