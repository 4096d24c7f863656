/**
 * The dashboard store: totals, the current balance, the balance history,
 * goals and expenses, and its four actions. Each backend round trip is an
 * input (the rows it returned, or the error it raised), and so are the user
 * id read from the user store, generated ids and already formatted display
 * dates. A transition function on `State` says what each action does; the
 * `Dashboard` class performs it on its fields.
 */
module DashboardStore {
  import opened Wrappers
  import opened DashboardRecords

  const NotAuthenticated: string := "User not authenticated"
  const UnknownError: string := "Unknown error occurred"

  /** All fields of the store. */
  datatype State = State(totalProfit: int, totalExpence: int, currentBalance: CurrentBalance,
                         balanceHistory: seq<BalanceEntry>, goals: seq<Goal>, expences: seq<Expence>,
                         isLoading: bool, error: Option<string>)

  /** The store as created. */
  const Initial: State := State(0, 0, CurrentBalance(0, ""), [], [], [], false, None)

  /** The error text an action stores: the backend's message when it has a non-empty one, else the fixed fallback. */
  function ErrorMessage(message: Option<string>): (r: string)
    ensures r != ""
    ensures message.Some? && message.value != "" ==> r == message.value
    ensures message.None? || message.value == "" ==> r == UnknownError
  {
    if message.Some? && message.value != "" then message.value else UnknownError
  }

  /** The outcome of an insert: it succeeded, or raised an error with an optional message. */
  datatype Write = Written | Failed(message: Option<string>)

  /** The profile row: each total may be null; `balanceDate` is the display form of its date, "" when absent. */
  datatype Profile = Profile(totalProfit: Option<int>, totalExpense: Option<int>, currentBalance: Option<int>,
                             balanceDate: string)

  /** The four selects of `initialize`: the rows each returned (null data as `None`), or the first error. */
  datatype Fetched =
    | Fetched(profile: Option<Profile>, goals: Option<seq<Goal>>, expences: Option<seq<Expence>>,
              history: Option<seq<BalanceEntry>>)
    | FetchFailed(message: Option<string>)

  /** `x ?? 0` on a profile field, `profileData` itself possibly null. */
  function TotalOrZero(p: Option<Profile>, field: Profile -> Option<int>): int
  {
    if p.Some? then field(p.value).GetOr(0) else 0
  }

  function ProfitOf(p: Profile): Option<int> { p.totalProfit }
  function ExpenseOf(p: Profile): Option<int> { p.totalExpense }
  function BalanceOf(p: Profile): Option<int> { p.currentBalance }

  /** The state after `initialize`. */
  function Initialized(s: State, userId: string, fetched: Fetched): (r: State)
    ensures !r.isLoading
  {
    if userId == "" then s.(error := Some(NotAuthenticated), isLoading := false)
    else match fetched
      case FetchFailed(m) => s.(error := Some(ErrorMessage(m)), isLoading := false)
      case Fetched(p, g, e, h) =>
        State(TotalOrZero(p, ProfitOf), TotalOrZero(p, ExpenseOf),
              CurrentBalance(TotalOrZero(p, BalanceOf), if p.Some? then p.value.balanceDate else ""),
              h.GetOr([]), g.GetOr([]), e.GetOr([]), false, None)
  }

  /** The state after `addBalance(price, date)`; `displayDate` is the display form of the date used. */
  function BalanceAdded(s: State, userId: string, price: int, displayDate: string, historyId: string,
                        write: Write): (r: State)
  {
    if userId == "" then s.(error := Some(NotAuthenticated))
    else match write
      case Failed(m) => s.(error := Some(ErrorMessage(m)))
      case Written =>
        s.(currentBalance := CurrentBalance(s.currentBalance.price + price, displayDate),
           balanceHistory := s.balanceHistory + [BalanceEntry(historyId, price, displayDate)],
           totalProfit := s.totalProfit + price)
  }

  /** `Math.max(balance - price, 0)`: the balance after spending, floored at zero. */
  function ClampedBalance(balance: int, price: int): (r: int)
    ensures r >= 0 && r >= balance - price
    ensures r == 0 || r == balance - price
  {
    if balance - price > 0 then balance - price else 0
  }

  /** The goals with `price` added to the balance of every goal whose id is `goalId`. */
  function CreditGoal(goals: seq<Goal>, goalId: string, price: int): (r: seq<Goal>)
    ensures |r| == |goals|
    ensures forall i :: 0 <= i < |goals| ==> r[i].id == goals[i].id && r[i].name == goals[i].name && r[i].price == goals[i].price
    ensures forall i :: 0 <= i < |goals| && goals[i].id != goalId ==> r[i] == goals[i]
    ensures forall i :: 0 <= i < |goals| && goals[i].id == goalId ==> r[i].balance == goals[i].balance + price
  {
    seq(|goals|, i requires 0 <= i < |goals| =>
      if goals[i].id == goalId then goals[i].(balance := goals[i].balance + price) else goals[i])
  }

  /**
   * `goalData?.name || category`, the goal looked up (`goalName`) only when
   * the category is empty and a goal id is given.
   */
  function ExpenseCategory(category: string, goalId: string, goalName: Option<string>): (r: string)
  {
    if category == "" && goalId != "" && goalName.Some? && goalName.value != "" then goalName.value
    else category
  }

  /** The expense is filed under the goal's name exactly when the lookup ran and found a named goal. */
  lemma ExpenseCategoryIff(category: string, goalId: string, goalName: Option<string>)
    ensures goalName.Some? && goalName.value != "" && ExpenseCategory(category, goalId, goalName) == goalName.value
              <== category == "" && goalId != "" && goalName.Some? && goalName.value != ""
    ensures ExpenseCategory(category, goalId, goalName) == category
              <== !(category == "" && goalId != "" && goalName.Some?) || goalName.value == ""
    ensures ExpenseCategory(category, goalId, goalName) == category || ExpenseCategory(category, goalId, goalName) == goalName.value
  {
  }

  /**
   * The state after `addExpence(price, category, date, goalID)`: `expenseDate`
   * is the display form of the expense's date and `now` that of the current time.
   */
  function ExpenceAdded(s: State, userId: string, price: int, category: string, expenseDate: string,
                        now: string, goalId: string, goalName: Option<string>, newId: string,
                        write: Write): (r: State)
  {
    if userId == "" then s.(error := Some(NotAuthenticated))
    else match write
      case Failed(m) => s.(error := Some(ErrorMessage(m)))
      case Written =>
        s.(expences := s.expences + [Expence(price, ExpenseCategory(category, goalId, goalName), newId, expenseDate)],
           currentBalance := CurrentBalance(ClampedBalance(s.currentBalance.price, price), now),
           goals := if goalId != "" then CreditGoal(s.goals, goalId, price) else s.goals,
           totalExpence := s.totalExpence + price)
  }

  /** The state after `addGoal(price, name)`: a new goal with nothing saved yet. */
  function GoalAdded(s: State, userId: string, price: int, name: string, newId: string, write: Write): (r: State)
  {
    if userId == "" then s.(error := Some(NotAuthenticated))
    else match write
      case Failed(m) => s.(error := Some(ErrorMessage(m)))
      case Written => s.(goals := s.goals + [Goal(newId, name, price, 0)])
  }

  // ---------------------------------------------------------------------------
  // What the actions promise

  /** Without a user, each add action sets the error and changes nothing else. */
  lemma UnauthenticatedChangesOnlyError(s: State, price: int, category: string, expenseDate: string, now: string,
                                        goalId: string, goalName: Option<string>, name: string, id: string,
                                        write: Write)
    ensures BalanceAdded(s, "", price, expenseDate, id, write) == s.(error := Some(NotAuthenticated))
    ensures ExpenceAdded(s, "", price, category, expenseDate, now, goalId, goalName, id, write)
         == s.(error := Some(NotAuthenticated))
    ensures GoalAdded(s, "", price, name, id, write) == s.(error := Some(NotAuthenticated))
  {
  }

  /** A backend error in an add action sets only the error, to its message or the fallback. */
  lemma FailureChangesOnlyError(s: State, userId: string, price: int, category: string, expenseDate: string,
                                now: string, goalId: string, goalName: Option<string>, name: string, id: string,
                                m: Option<string>)
    requires userId != ""
    ensures BalanceAdded(s, userId, price, expenseDate, id, Failed(m)) == s.(error := Some(ErrorMessage(m)))
    ensures ExpenceAdded(s, userId, price, category, expenseDate, now, goalId, goalName, id, Failed(m))
         == s.(error := Some(ErrorMessage(m)))
    ensures GoalAdded(s, userId, price, name, id, Failed(m)) == s.(error := Some(ErrorMessage(m)))
  {
  }

  /** `initialize` without a user, or with a failing select, leaves the data as it was. */
  lemma InitializeFailureKeepsData(s: State, userId: string, fetched: Fetched)
    requires userId == "" || fetched.FetchFailed?
    ensures var r := Initialized(s, userId, fetched);
            r.error.Some? && r.error.value != "" && r == s.(error := r.error, isLoading := false)
    ensures userId == "" ==> Initialized(s, userId, fetched).error == Some(NotAuthenticated)
  {
  }

  /** A successful `initialize` clears the error and defaults every missing total to 0 and every missing list to []. */
  lemma InitializeSuccess(s: State, userId: string, p: Option<Profile>, g: Option<seq<Goal>>,
                          e: Option<seq<Expence>>, h: Option<seq<BalanceEntry>>)
    requires userId != ""
    ensures var r := Initialized(s, userId, Fetched(p, g, e, h));
            r.error.None? && !r.isLoading &&
            (p.None? ==> r.totalProfit == 0 && r.totalExpence == 0 && r.currentBalance == CurrentBalance(0, "")) &&
            (p.Some? ==> r.totalProfit == p.value.totalProfit.GetOr(0) &&
                         r.totalExpence == p.value.totalExpense.GetOr(0) &&
                         r.currentBalance == CurrentBalance(p.value.currentBalance.GetOr(0), p.value.balanceDate)) &&
            (g.None? ==> r.goals == []) && (g.Some? ==> r.goals == g.value) &&
            (e.None? ==> r.expences == []) && (e.Some? ==> r.expences == e.value) &&
            (h.None? ==> r.balanceHistory == []) && (h.Some? ==> r.balanceHistory == h.value)
  {
  }

  /** Total of the prices in the balance history. */
  function HistorySum(h: seq<BalanceEntry>): int
  {
    if |h| == 0 then 0 else HistorySum(h[..|h| - 1]) + h[|h| - 1].price
  }

  /** Total of the expense prices. */
  function ExpenceSum(e: seq<Expence>): int
  {
    if |e| == 0 then 0 else ExpenceSum(e[..|e| - 1]) + e[|e| - 1].price
  }

  /** Total saved over all goals. */
  function SavedSum(g: seq<Goal>): int
  {
    if |g| == 0 then 0 else SavedSum(g[..|g| - 1]) + g[|g| - 1].balance
  }

  /** How many goals have the id. */
  function CountId(g: seq<Goal>, goalId: string): nat
  {
    if |g| == 0 then 0 else CountId(g[..|g| - 1], goalId) + (if g[|g| - 1].id == goalId then 1 else 0)
  }

  /** A successful `addBalance` raises the balance and the profit by exactly `price` and records exactly that price. */
  lemma BalanceAddedSuccess(s: State, userId: string, price: int, displayDate: string, historyId: string)
    requires userId != ""
    ensures var r := BalanceAdded(s, userId, price, displayDate, historyId, Written);
            r.currentBalance == CurrentBalance(s.currentBalance.price + price, displayDate) &&
            r.totalProfit == s.totalProfit + price &&
            |r.balanceHistory| == |s.balanceHistory| + 1 &&
            r.balanceHistory[..|s.balanceHistory|] == s.balanceHistory &&
            r.balanceHistory[|s.balanceHistory|] == BalanceEntry(historyId, price, displayDate) &&
            HistorySum(r.balanceHistory) == HistorySum(s.balanceHistory) + price &&
            r.goals == s.goals && r.expences == s.expences && r.totalExpence == s.totalExpence &&
            r.isLoading == s.isLoading && r.error == s.error
  {
    var r := BalanceAdded(s, userId, price, displayDate, historyId, Written);
    assert r.balanceHistory[..|s.balanceHistory|] == s.balanceHistory;
  }

  /** Crediting a goal adds `price` once per goal carrying that id to the total saved. */
  lemma {:induction false} CreditGoalSaved(goals: seq<Goal>, goalId: string, price: int)
    ensures SavedSum(CreditGoal(goals, goalId, price)) == SavedSum(goals) + price * CountId(goals, goalId)
  {
    if |goals| > 0 {
      var init := goals[..|goals| - 1];
      CreditGoalSaved(init, goalId, price);
      assert CreditGoal(goals, goalId, price)[..|goals| - 1] == CreditGoal(init, goalId, price);
      if goals[|goals| - 1].id == goalId {
        assert price * (CountId(init, goalId) + 1) == price * CountId(init, goalId) + price;
      }
    }
  }

  /**
   * A successful `addExpence` files one expense, raises the expense total by
   * `price`, floors the balance at zero, credits only the named goal and
   * leaves the profit alone.
   */
  lemma ExpenceAddedSuccess(s: State, userId: string, price: int, category: string, expenseDate: string,
                            now: string, goalId: string, goalName: Option<string>, newId: string)
    requires userId != ""
    ensures var r := ExpenceAdded(s, userId, price, category, expenseDate, now, goalId, goalName, newId, Written);
            r.expences == s.expences + [Expence(price, ExpenseCategory(category, goalId, goalName), newId, expenseDate)] &&
            r.totalExpence == s.totalExpence + price &&
            ExpenceSum(r.expences) == ExpenceSum(s.expences) + price &&
            r.currentBalance.price >= 0 &&
            r.currentBalance.price == (if s.currentBalance.price - price > 0 then s.currentBalance.price - price else 0) &&
            r.currentBalance.date == now &&
            (goalId == "" ==> r.goals == s.goals) &&
            (goalId != "" ==> r.goals == CreditGoal(s.goals, goalId, price)) &&
            SavedSum(r.goals) == SavedSum(s.goals) + (if goalId == "" then 0 else price * CountId(s.goals, goalId)) &&
            r.totalProfit == s.totalProfit && r.balanceHistory == s.balanceHistory &&
            r.isLoading == s.isLoading && r.error == s.error
  {
    var r := ExpenceAdded(s, userId, price, category, expenseDate, now, goalId, goalName, newId, Written);
    assert r.expences[..|s.expences|] == s.expences;
    if goalId != "" {
      CreditGoalSaved(s.goals, goalId, price);
    }
  }

  /** A successful `addGoal` appends exactly one goal, with nothing saved, and changes nothing else. */
  lemma GoalAddedSuccess(s: State, userId: string, price: int, name: string, newId: string)
    requires userId != ""
    ensures var r := GoalAdded(s, userId, price, name, newId, Written);
            r.goals == s.goals + [Goal(newId, name, price, 0)] &&
            SavedSum(r.goals) == SavedSum(s.goals) &&
            r == s.(goals := r.goals)
  {
    var r := GoalAdded(s, userId, price, name, newId, Written);
    assert r.goals[..|s.goals|] == s.goals;
  }

  /**
   * The ledger: profit minus recorded income, and expense total minus recorded
   * expenses. Every add action keeps both differences as they were.
   */
  function Ledger(s: State): (int, int)
  {
    (s.totalProfit - HistorySum(s.balanceHistory), s.totalExpence - ExpenceSum(s.expences))
  }

  lemma LedgerKept(s: State, userId: string, price: int, category: string, expenseDate: string, now: string,
                   goalId: string, goalName: Option<string>, newId: string, write: Write)
    ensures Ledger(BalanceAdded(s, userId, price, expenseDate, newId, write)) == Ledger(s)
    ensures Ledger(ExpenceAdded(s, userId, price, category, expenseDate, now, goalId, goalName, newId, write)) == Ledger(s)
    ensures Ledger(GoalAdded(s, userId, price, category, newId, write)) == Ledger(s)
  {
    if userId != "" && write.Written? {
      BalanceAddedSuccess(s, userId, price, expenseDate, newId);
      ExpenceAddedSuccess(s, userId, price, category, expenseDate, now, goalId, goalName, newId);
    }
  }

  // ---------------------------------------------------------------------------
  // The store object

  class Dashboard {
    var totalProfit: int
    var totalExpence: int
    var currentBalance: CurrentBalance
    var balanceHistory: seq<BalanceEntry>
    var goals: seq<Goal>
    var expences: seq<Expence>
    var isLoading: bool
    var error: Option<string>

    function Snapshot(): State
      reads this
    {
      State(totalProfit, totalExpence, currentBalance, balanceHistory, goals, expences, isLoading, error)
    }

    constructor()
      ensures Snapshot() == Initial
    {
      totalProfit := 0;
      totalExpence := 0;
      currentBalance := CurrentBalance(0, "");
      balanceHistory := [];
      goals := [];
      expences := [];
      isLoading := false;
      error := None;
    }

    method Initialize(userId: string, fetched: Fetched)
      modifies this
      ensures Snapshot() == Initialized(old(Snapshot()), userId, fetched)
    {
      isLoading, error := true, None;
      if userId == "" {
        error, isLoading := Some(NotAuthenticated), false;
        return;
      }
      match fetched {
        case FetchFailed(m) =>
          error, isLoading := Some(ErrorMessage(m)), false;
        case Fetched(p, g, e, h) =>
          totalProfit := TotalOrZero(p, ProfitOf);
          totalExpence := TotalOrZero(p, ExpenseOf);
          currentBalance := CurrentBalance(TotalOrZero(p, BalanceOf), if p.Some? then p.value.balanceDate else "");
          goals := g.GetOr([]);
          expences := e.GetOr([]);
          balanceHistory := h.GetOr([]);
          isLoading, error := false, None;
      }
    }

    method AddBalance(userId: string, price: int, displayDate: string, historyId: string, write: Write)
      modifies this
      ensures Snapshot() == BalanceAdded(old(Snapshot()), userId, price, displayDate, historyId, write)
    {
      if userId == "" {
        error := Some(NotAuthenticated);
        return;
      }
      match write {
        case Failed(m) =>
          error := Some(ErrorMessage(m));
        case Written =>
          var newBalance := currentBalance.price + price;
          currentBalance := CurrentBalance(newBalance, displayDate);
          balanceHistory := balanceHistory + [BalanceEntry(historyId, price, displayDate)];
          totalProfit := totalProfit + price;
      }
    }

    method AddExpence(userId: string, price: int, category: string, expenseDate: string, now: string,
                      goalId: string, goalName: Option<string>, newId: string, write: Write)
      modifies this
      ensures Snapshot() == ExpenceAdded(old(Snapshot()), userId, price, category, expenseDate, now,
                                         goalId, goalName, newId, write)
    {
      if userId == "" {
        error := Some(NotAuthenticated);
        return;
      }
      var categoryName := ExpenseCategory(category, goalId, goalName);
      match write {
        case Failed(m) =>
          error := Some(ErrorMessage(m));
        case Written =>
          var newBalance := ClampedBalance(currentBalance.price, price);
          var updatedGoals := goals;
          if goalId != "" {
            updatedGoals := CreditGoal(goals, goalId, price);
          }
          expences := expences + [Expence(price, categoryName, newId, expenseDate)];
          currentBalance := CurrentBalance(newBalance, now);
          goals := updatedGoals;
          totalExpence := totalExpence + price;
      }
    }

    method AddGoal(userId: string, price: int, name: string, newId: string, write: Write)
      modifies this
      ensures Snapshot() == GoalAdded(old(Snapshot()), userId, price, name, newId, write)
    {
      if userId == "" {
        error := Some(NotAuthenticated);
        return;
      }
      match write {
        case Failed(m) =>
          error := Some(ErrorMessage(m));
        case Written =>
          goals := goals + [Goal(newId, name, price, 0)];
      }
    }
  }
}
