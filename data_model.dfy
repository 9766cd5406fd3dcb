/**
 * The records of the `data.model` package: the expense category enumeration,
 * the persisted `Expense` row and the derived `DailyExpenseSummary`.
 * Money is held in integer cents (the app uses `Double` rupees), timestamps in
 * milliseconds since the epoch.
 */
module DataModel {
  import opened Wrappers

  const MIN_LONG: int := -0x8000_0000_0000_0000
  const MAX_LONG: int := 0x7FFF_FFFF_FFFF_FFFF

  /** Kotlin's `Long`, the type of the primary key. */
  type Long = x: int | MIN_LONG <= x <= MAX_LONG

  /** `enum class ExpenseCategory(val displayName: String)`. */
  datatype Category = Staff | Travel | Food | Utility {

    /** `Enum.name`: the constant's identifier. */
    function Name(): string {
      match this
      case Staff => "STAFF"
      case Travel => "TRAVEL"
      case Food => "FOOD"
      case Utility => "UTILITY"
    }

    function DisplayName(): string {
      match this
      case Staff => "Staff"
      case Travel => "Travel"
      case Food => "Food"
      case Utility => "Utility"
    }
  }

  /**
   * A row of the `expenses` table. `id` 0 means "not yet assigned": the store
   * generates the key on insert.
   */
  datatype Expense = Expense(
    id: Long,
    title: string,
    amount: int,
    category: Category,
    notes: string,
    receiptImagePath: Option<string>,
    date: int,
    createdAt: int)

  /**
   * One line of a report: a day (days since the epoch), the sum of that day's
   * amounts and the number of expenses on it. The app carries the day as a
   * "yyyy-MM-dd" string; the model keeps the day number it is formatted from.
   */
  datatype DailySummary = DailySummary(day: int, totalAmount: int, expenseCount: int)

  /** `summaries.sumOf { it.totalAmount }`. */
  function SumTotals(s: seq<DailySummary>): int {
    if s == [] then 0 else s[0].totalAmount + SumTotals(s[1..])
  }

  /** The sum of the `expenseCount` fields. */
  function SumCounts(s: seq<DailySummary>): int {
    if s == [] then 0 else s[0].expenseCount + SumCounts(s[1..])
  }
}
