/** The expense modal's form state, its four input handlers and the goal select options. */
module ExpenceModal {
  import opened Wrappers
  import opened AmountField
  import opened DashboardRecords
  import opened Text

  /** The expense being entered; `goalID` is "" when no goal is selected. */
  datatype ExpenceForm = ExpenceForm(price: int, category: string, goalID: string, date: string)

  /** One option of the goal select. */
  datatype GoalOption = GoalOption(value: string, caption: string)

  /** One option per goal, in the goals' order, valued by id and captioned by name. */
  function GoalOptions(goals: seq<Goal>): (r: seq<GoalOption>)
    ensures |r| == |goals|
    ensures forall i :: 0 <= i < |goals| ==> r[i].value == goals[i].id && r[i].caption == goals[i].name
  {
    seq(|goals|, i requires 0 <= i < |goals| => GoalOption(goals[i].id, goals[i].name))
  }

  /** The amount input: accepted text replaces the price, rejected text changes nothing. */
  function PriceTyped(f: ExpenceForm, val: string): (r: ExpenceForm)
    ensures ParseAmount(val).None? ==> r == f
    ensures ParseAmount(val).Some? ==> r == f.(price := ParseAmount(val).value)
  {
    match ParseAmount(val)
    case None => f
    case Some(n) => f.(price := n)
  }

  function CategoryTyped(f: ExpenceForm, val: string): (r: ExpenceForm)
    ensures r.category == val && r.price == f.price && r.goalID == f.goalID && r.date == f.date
  {
    f.(category := val)
  }

  /** The goal select: the chosen option's value, or "" when the selection is cleared. */
  function GoalSelected(f: ExpenceForm, selected: Option<GoalOption>): (r: ExpenceForm)
    ensures r.goalID == (if selected.Some? then selected.value.value else "")
    ensures r.price == f.price && r.category == f.category && r.date == f.date
  {
    f.(goalID := if selected.Some? then selected.value.value else "")
  }

  function DateTyped(f: ExpenceForm, val: string): (r: ExpenceForm)
    ensures r.date == val && r.price == f.price && r.category == f.category && r.goalID == f.goalID
  {
    f.(date := val)
  }

  /** Choosing the option shown for a goal links the expense to that goal's id. */
  lemma SelectingGoalOption(f: ExpenceForm, goals: seq<Goal>, i: int)
    requires 0 <= i < |goals|
    ensures GoalSelected(f, Some(GoalOptions(goals)[i])).goalID == goals[i].id
  {
  }

  /** A rejected amount leaves the whole form as it was, and a digit text of n sets the price to n. */
  lemma PriceTypedOutcomes(f: ExpenceForm, val: string, n: nat)
    ensures !IsDigits(val) ==> PriceTyped(f, val) == f
    ensures PriceTyped(f, DecimalString(n)) == f.(price := n)
  {
    ParseDecimal(n);
  }
}
