/**
 * The records the dashboard store keeps (the `IGoals`, `ICurrentBalance`,
 * `IExpence` and `IBalancehistory` interfaces). Amounts are integers: the
 * amount fields only ever receive digit strings read as numbers.
 */
module DashboardRecords {

  /** A savings goal: its target `price` and the `balance` saved towards it. */
  datatype Goal = Goal(id: string, name: string, price: int, balance: int)

  /** The current balance and the display time of its last change. */
  datatype CurrentBalance = CurrentBalance(price: int, date: string)

  /** One expense; `date` is a display timestamp "DD.MM.YYYY, hh:mm:ss" or "". */
  datatype Expence = Expence(price: int, category: string, id: string, date: string)

  /** One income record of the balance history; `date` as for expenses. */
  datatype BalanceEntry = BalanceEntry(id: string, price: int, date: string)
}
