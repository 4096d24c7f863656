/** The income modal's form state and its two input handlers. */
module IncomeModal {
  import opened Wrappers
  import opened AmountField

  /** The income being entered: its amount and its date input value. */
  datatype Balance = Balance(price: int, date: string)

  /** The amount input: accepted text replaces the price, rejected text changes nothing. */
  function PriceTyped(b: Balance, val: string): (r: Balance)
    ensures r.date == b.date
    ensures ParseAmount(val).None? ==> r == b
    ensures ParseAmount(val).Some? ==> r.price == ParseAmount(val).value
  {
    match ParseAmount(val)
    case None => b
    case Some(n) => b.(price := n)
  }

  /** The date input stores its value and keeps the price. */
  function DateTyped(b: Balance, val: string): (r: Balance)
    ensures r.price == b.price && r.date == val
  {
    b.(date := val)
  }

  /** The two handlers touch different fields, so their order does not matter. */
  lemma HandlersCommute(b: Balance, amount: string, date: string)
    ensures PriceTyped(DateTyped(b, date), amount) == DateTyped(PriceTyped(b, amount), date)
  {
  }

  /** Clearing the amount field sets 0, and retyping an accepted amount changes nothing more. */
  lemma PriceTypedIdempotent(b: Balance, val: string)
    ensures PriceTyped(PriceTyped(b, val), val) == PriceTyped(b, val)
    ensures PriceTyped(b, "").price == 0
  {
  }
}
