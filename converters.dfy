/** Room's type converters between `ExpenseCategory` and its stored text. */
module Converters {
  import opened Wrappers
  import opened DataModel

  /** What `ExpenseCategory.valueOf` throws for a name that is not a constant. */
  function NoEnumConstant(name: string): Exception {
    Exception(Some("No enum constant com.metapointer.expensetrackerapp.data.model.ExpenseCategory." + name))
  }

  /** `fromExpenseCategory`: the constant's name, not its display name. */
  function FromExpenseCategory(category: Category): (name: string)
    ensures name in {"STAFF", "TRAVEL", "FOOD", "UTILITY"}
    ensures name != category.DisplayName()
  {
    category.Name()
  }

  /** `toExpenseCategory`: `ExpenseCategory.valueOf`, which throws on any other string. */
  function ToExpenseCategory(name: string): (r: Result<Category>)
    ensures r.Success? <==> name in {"STAFF", "TRAVEL", "FOOD", "UTILITY"}
    ensures r.Failure? ==> r.exception == NoEnumConstant(name)
  {
    if name == "STAFF" then Success(Staff)
    else if name == "TRAVEL" then Success(Travel)
    else if name == "FOOD" then Success(Food)
    else if name == "UTILITY" then Success(Utility)
    else Failure(NoEnumConstant(name))
  }

  /** Storing a category and reading it back gives the same category. */
  lemma CategoryRoundTrip(c: Category)
    ensures ToExpenseCategory(FromExpenseCategory(c)) == Success(c)
  {
    match c
    case Staff =>
    case Travel =>
    case Food =>
    case Utility =>
  }

  /** Every stored name that reads back as a category is written back unchanged. */
  lemma NameRoundTrip(name: string)
    requires ToExpenseCategory(name).Success?
    ensures FromExpenseCategory(ToExpenseCategory(name).value) == name
  {
  }

  /** Display names are not accepted as stored names. */
  lemma DisplayNamesRejected(c: Category)
    ensures ToExpenseCategory(c.DisplayName()).Failure?
  {
    match c
    case Staff =>
    case Travel =>
    case Food =>
    case Utility =>
  }
}
