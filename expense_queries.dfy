/**
 * The meaning of the `SELECT`s in `ExpenseDao`, as functions over the rows of
 * the `expenses` table: the `WHERE` filters, `ORDER BY date DESC`, `SUM(amount)`
 * and the `GROUP BY DATE(date/1000, 'unixepoch')` report.
 */
module ExpenseQueries {
  import opened Wrappers
  import opened DataModel

  /** The `WHERE` clauses the DAO uses. */
  datatype Criterion =
    | Everything
      /** `date >= :startOfDay AND date < :endOfDay` */
    | HalfOpenWindow(start: int, end: int)
      /** `date >= :startDate AND date <= :endDate` */
    | ClosedRange(start: int, end: int)
      /** `category = :category` */
    | OfCategory(category: Category)

  predicate Matches(c: Criterion, e: Expense) {
    match c
    case Everything => true
    case HalfOpenWindow(s, t) => s <= e.date < t
    case ClosedRange(s, t) => s <= e.date <= t
    case OfCategory(k) => e.category == k
  }

  /** The rows that satisfy `c`, in table order. */
  function Filter(rows: seq<Expense>, c: Criterion): (r: seq<Expense>)
    ensures |r| <= |rows|
    ensures forall x :: multiset(r)[x] == if Matches(c, x) then multiset(rows)[x] else 0
  {
    if rows == [] then []
    else
      assert rows == [rows[0]] + rows[1..];
      if Matches(c, rows[0]) then [rows[0]] + Filter(rows[1..], c)
      else Filter(rows[1..], c)
  }

  /** `ORDER BY date DESC`. */
  ghost predicate SortedByDateDesc(s: seq<Expense>) {
    forall i, j :: 0 <= i < j < |s| ==> s[i].date >= s[j].date
  }

  /** `SUM(amount)` over a list that is known to be non-empty, or 0 for none. */
  function SumAmounts(s: seq<Expense>): int {
    if s == [] then 0 else s[0].amount + SumAmounts(s[1..])
  }

  /** Filtering a table with one more row at the end adds that row, if it matches. */
  lemma {:induction false} FilterAppend(rows: seq<Expense>, x: Expense, c: Criterion)
    ensures Filter(rows + [x], c) == Filter(rows, c) + Kept(x, c)
  {
    if rows == [] {
      var extended := rows + [x];
      assert extended == [x] && extended[1..] == [];
    } else {
      var tail := rows[1..];
      FilterStep(rows, x, c);
      FilterAppend(tail, x, c);
      RegroupRows(Kept(rows[0], c), Filter(tail, c), Kept(x, c),
        Filter(rows + [x], c), Filter(rows, c), Filter(tail + [x], c));
    }
  }

  /** The row `x` if it satisfies `c`, and nothing otherwise. */
  function Kept(x: Expense, c: Criterion): seq<Expense> {
    if Matches(c, x) then [x] else []
  }

  /** One step of `Filter` on `rows` and on `rows + [x]`. */
  lemma FilterStep(rows: seq<Expense>, x: Expense, c: Criterion)
    requires rows != []
    ensures Filter(rows, c) == Kept(rows[0], c) + Filter(rows[1..], c)
    ensures Filter(rows + [x], c) == Kept(rows[0], c) + Filter(rows[1..] + [x], c)
  {
    var extended := rows + [x];
    assert extended[0] == rows[0] && extended[1..] == rows[1..] + [x];
  }

  /** Regrouping `head + (x + y)` as `(head + x) + y`. */
  lemma RegroupRows(head: seq<Expense>, x: seq<Expense>, y: seq<Expense>,
                    whole: seq<Expense>, left: seq<Expense>, joined: seq<Expense>)
    requires joined == x + y && whole == head + joined && left == head + x
    ensures whole == left + y
  {
  }

  /** `SUM(amount)` grows by the amount of a row added at the end. */
  lemma {:induction false} SumAmountsAppend(s: seq<Expense>, x: Expense)
    ensures SumAmounts(s + [x]) == SumAmounts(s) + x.amount
  {
    var extended := s + [x];
    if s == [] {
      assert extended == [x];
    } else {
      assert extended[0] == s[0] && extended[1..] == s[1..] + [x];
      SumAmountsAppend(s[1..], x);
    }
  }

  /** Inserts `e` into a date-descending list, ahead of the rows with the same date. */
  function InsertByDate(e: Expense, s: seq<Expense>): (r: seq<Expense>)
    requires SortedByDateDesc(s)
    ensures |r| == |s| + 1
    ensures r[0] == e || (s != [] && r[0] == s[0])
    ensures SortedByDateDesc(r)
    ensures multiset(r) == multiset(s) + multiset{e}
    ensures SumAmounts(r) == SumAmounts(s) + e.amount
  {
    if s == [] || e.date >= s[0].date then
      ConsSorted(e, s);
      [e] + s
    else
      assert s == [s[0]] + s[1..];
      var rest := InsertByDate(e, s[1..]);
      ConsSorted(s[0], rest);
      [s[0]] + rest
  }

  lemma ConsSorted(x: Expense, s: seq<Expense>)
    requires SortedByDateDesc(s) && (s == [] || x.date >= s[0].date)
    ensures SortedByDateDesc([x] + s)
  {
    var r := [x] + s;
    forall i, j | 0 <= i < j < |r| ensures r[i].date >= r[j].date {
      if i == 0 && j > 1 {
        assert r[j] == s[j - 1] && s[0].date >= s[j - 1].date;
      }
    }
  }

  /** A date-descending permutation; rows with equal dates keep their table order. */
  function SortByDateDesc(s: seq<Expense>): (r: seq<Expense>)
    ensures SortedByDateDesc(r)
    ensures multiset(r) == multiset(s)
    ensures SumAmounts(r) == SumAmounts(s)
  {
    if s == [] then []
    else
      assert s == [s[0]] + s[1..];
      InsertByDate(s[0], SortByDateDesc(s[1..]))
  }

  /** `SELECT * FROM expenses WHERE c ORDER BY date DESC`. */
  function Select(rows: seq<Expense>, c: Criterion): (r: seq<Expense>)
    ensures SortedByDateDesc(r)
    ensures forall x :: multiset(r)[x] == if Matches(c, x) then multiset(rows)[x] else 0
    ensures forall x :: x in r <==> x in rows && Matches(c, x)
    ensures SumAmounts(r) == SumAmounts(Filter(rows, c))
  {
    var r := SortByDateDesc(Filter(rows, c));
    assert forall x :: x in r <==> multiset(r)[x] > 0;
    r
  }

  /** `SELECT SUM(amount) FROM expenses WHERE c`: NULL when no row matches. */
  function SumWhere(rows: seq<Expense>, c: Criterion): (r: Option<int>)
    ensures r.None? <==> forall x :: x in rows ==> !Matches(c, x)
    ensures r.Some? ==> r.value == SumAmounts(Select(rows, c))
  {
    var matching := Filter(rows, c);
    assert matching == [] <==> forall x :: x in rows ==> !Matches(c, x) by {
      assert forall x :: x in matching <==> multiset(matching)[x] > 0;
    }
    if matching == [] then None else Some(SumAmounts(matching))
  }
  /** With NULL read as 0, `SUM(amount)` is the sum over the matching rows. */
  lemma SumWhereOrZero(rows: seq<Expense>, c: Criterion)
    ensures SumWhere(rows, c).GetOr(0) == SumAmounts(Filter(rows, c))
  {
    if SumWhere(rows, c).None? {
      assert Filter(rows, c) == [] by {
        assert forall x :: x in Filter(rows, c) <==> multiset(Filter(rows, c))[x] > 0;
      }
    }
  }

  /** One more row at the end changes the NULL-as-0 sum by its amount exactly when it matches. */
  lemma SumWhereAppend(rows: seq<Expense>, x: Expense, c: Criterion)
    ensures SumWhere(rows + [x], c).GetOr(0) == SumWhere(rows, c).GetOr(0) + (if Matches(c, x) then x.amount else 0)
  {
    SumWhereOrZero(rows, c);
    SumWhereOrZero(rows + [x], c);
    FilterAppend(rows, x, c);
    if Matches(c, x) {
      SumAmountsAppend(Filter(rows, c), x);
    } else {
      var kept := Filter(rows, c);
      assert kept + [] == kept;
    }
  }


  // ---------------------------------------------------------------- the daily report

  /** SQLite's integer `/`, which truncates toward zero. */
  function TruncDiv(a: int, b: int): int
    requires b > 0
  {
    if a >= 0 then a / b else -((-a) / b)
  }

  /**
   * `DATE(date/1000, 'unixepoch')` as a day number: the UTC day holding
   * second `date/1000`. Dafny's `/` by a positive divisor rounds down, as a
   * calendar day does.
   */
  function UtcDay(date: int): (d: int)
    ensures d * 86400 <= TruncDiv(date, 1000) < (d + 1) * 86400
  {
    TruncDiv(date, 1000) / 86400
  }

  /** Rows on UTC day `d`: `COUNT(*)` of that group. */
  function CountOnDay(rows: seq<Expense>, d: int): nat {
    if rows == [] then 0
    else (if UtcDay(rows[0].date) == d then 1 else 0) + CountOnDay(rows[1..], d)
  }

  /** `SUM(amount)` of the group of day `d`. */
  function SumOnDay(rows: seq<Expense>, d: int): int {
    if rows == [] then 0
    else (if UtcDay(rows[0].date) == d then rows[0].amount else 0) + SumOnDay(rows[1..], d)
  }

  /** Report lines are ordered by day, newest first, one line per day. */
  predicate DaysDescending(list: seq<DailySummary>) {
    forall i :: 0 <= i < |list| - 1 ==> list[i].day > list[i + 1].day
  }

  predicate PositiveCounts(list: seq<DailySummary>) {
    forall i :: 0 <= i < |list| ==> list[i].expenseCount >= 1
  }

  /** The count a report gives for day `d` (0 when it has no such line). */
  function ListCount(list: seq<DailySummary>, d: int): int {
    if list == [] then 0
    else (if list[0].day == d then list[0].expenseCount else 0) + ListCount(list[1..], d)
  }

  /** The total a report gives for day `d` (0 when it has no such line). */
  function ListTotal(list: seq<DailySummary>, d: int): int {
    if list == [] then 0
    else (if list[0].day == d then list[0].totalAmount else 0) + ListTotal(list[1..], d)
  }

  /** Adds one row to the group of its day, opening the group if it is new. */
  function AddToSummary(list: seq<DailySummary>, e: Expense): (r: seq<DailySummary>)
    requires DaysDescending(list) && PositiveCounts(list)
    ensures DaysDescending(r) && PositiveCounts(r)
    ensures r != [] && (r[0].day == UtcDay(e.date) || (list != [] && r[0].day == list[0].day))
    ensures forall d :: ListCount(r, d) == ListCount(list, d) + (if d == UtcDay(e.date) then 1 else 0)
    ensures forall d :: ListTotal(r, d) == ListTotal(list, d) + (if d == UtcDay(e.date) then e.amount else 0)
    ensures SumCounts(r) == SumCounts(list) + 1
    ensures SumTotals(r) == SumTotals(list) + e.amount
  {
    var k := UtcDay(e.date);
    if list == [] then [DailySummary(k, e.amount, 1)]
    else if list[0].day == k then
      [list[0].(totalAmount := list[0].totalAmount + e.amount, expenseCount := list[0].expenseCount + 1)] + list[1..]
    else if list[0].day < k then [DailySummary(k, e.amount, 1)] + list
    else [list[0]] + AddToSummary(list[1..], e)
  }

  /** The `GROUP BY` day of a set of rows, newest day first. */
  function Summarize(rows: seq<Expense>): (r: seq<DailySummary>)
    ensures DaysDescending(r) && PositiveCounts(r)
    ensures forall d :: ListCount(r, d) == CountOnDay(rows, d)
    ensures forall d :: ListTotal(r, d) == SumOnDay(rows, d)
    ensures SumCounts(r) == |rows|
    ensures SumTotals(r) == SumAmounts(rows)
  {
    if rows == [] then [] else AddToSummary(Summarize(rows[1..]), rows[0])
  }

  lemma {:induction false} DescendingPairwise(list: seq<DailySummary>, i: int, j: int)
    requires DaysDescending(list) && 0 <= i < j < |list|
    ensures list[i].day > list[j].day
    decreases j - i
  {
    if j > i + 1 {
      DescendingPairwise(list, i + 1, j);
    }
  }

  /** A day newer than the first line has no line. */
  lemma {:induction false} ListAbsent(list: seq<DailySummary>, d: int)
    requires DaysDescending(list) && (list == [] || list[0].day < d)
    ensures ListCount(list, d) == 0 && ListTotal(list, d) == 0
    decreases |list|
  {
    if list != [] {
      assert DaysDescending(list[1..]);
      ListAbsent(list[1..], d);
    }
  }

  /** In a day-descending report, the line for a day holds all of that day's count and total. */
  lemma {:induction false} ListEntry(list: seq<DailySummary>, i: int)
    requires DaysDescending(list) && 0 <= i < |list|
    ensures ListCount(list, list[i].day) == list[i].expenseCount
    ensures ListTotal(list, list[i].day) == list[i].totalAmount
    decreases i
  {
    assert DaysDescending(list[1..]);
    if i == 0 {
      ListAbsent(list[1..], list[0].day);
    } else {
      DescendingPairwise(list, 0, i);
      ListEntry(list[1..], i - 1);
    }
  }

  /** A day with a non-zero count has a line. */
  lemma {:induction false} ListCountHasLine(list: seq<DailySummary>, d: int)
    requires ListCount(list, d) != 0
    ensures exists i :: 0 <= i < |list| && list[i].day == d
    decreases |list|
  {
    if list[0].day != d {
      ListCountHasLine(list[1..], d);
      var i :| 0 <= i < |list[1..]| && list[1..][i].day == d;
      assert list[i + 1].day == d;
    }
  }

  /**
   * The report of a set of rows: one line per UTC day that has a row, holding
   * that day's total and count, newest day first.
   */
  lemma SummarizeLines(rows: seq<Expense>)
    ensures forall i :: 0 <= i < |Summarize(rows)| ==>
      Summarize(rows)[i].expenseCount == CountOnDay(rows, Summarize(rows)[i].day)
      && Summarize(rows)[i].totalAmount == SumOnDay(rows, Summarize(rows)[i].day)
    ensures forall d :: (exists i :: 0 <= i < |Summarize(rows)| && Summarize(rows)[i].day == d) <==> CountOnDay(rows, d) > 0
  {
    var r := Summarize(rows);
    forall i | 0 <= i < |r|
      ensures r[i].expenseCount == CountOnDay(rows, r[i].day) && r[i].totalAmount == SumOnDay(rows, r[i].day)
    {
      ListEntry(r, i);
    }
    forall d ensures (exists i :: 0 <= i < |r| && r[i].day == d) <==> CountOnDay(rows, d) > 0 {
      if CountOnDay(rows, d) > 0 {
        ListCountHasLine(r, d);
      }
    }
  }
}
