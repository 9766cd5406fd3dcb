/** The destinations of the app's navigation graph and their route strings. */
module Navigation {
  import opened Wrappers

  /** `sealed class Screen(val route: String)`. */
  datatype Screen = ExpenseList | ExpenseEntry | ExpenseReport {

    function Route(): string {
      match this
      case ExpenseList => "expense_list"
      case ExpenseEntry => "expense_entry"
      case ExpenseReport => "expense_report"
    }
  }

  /** `Screen.fromRoute`: a null or unknown route falls back to the expense list. */
  function FromRoute(route: Option<string>): (s: Screen)
    ensures route == Some("expense_list") ==> s == ExpenseList
    ensures route == Some("expense_entry") ==> s == ExpenseEntry
    ensures route == Some("expense_report") ==> s == ExpenseReport
    ensures s != ExpenseList ==> route == Some(s.Route())
    ensures route.None? || route.value !in {"expense_list", "expense_entry", "expense_report"} ==> s == ExpenseList
  {
    if route == Some(ExpenseList.Route()) then ExpenseList
    else if route == Some(ExpenseEntry.Route()) then ExpenseEntry
    else if route == Some(ExpenseReport.Route()) then ExpenseReport
    else ExpenseList
  }

  /** Every screen is reached again from its own route. */
  lemma RouteRoundTrip(s: Screen)
    ensures FromRoute(Some(s.Route())) == s
  {
    match s
    case ExpenseList =>
    case ExpenseEntry =>
    case ExpenseReport =>
  }

  /** Distinct screens have distinct routes. */
  lemma RouteInjective(a: Screen, b: Screen)
    requires a.Route() == b.Route()
    ensures a == b
  {
    RouteRoundTrip(a);
    RouteRoundTrip(b);
  }
}
