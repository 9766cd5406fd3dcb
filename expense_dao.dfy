/**
 * `ExpenseDao`: the `expenses` table as a stateful store. The rows and the
 * AUTOINCREMENT counter are the state; `@Insert`, `@Update`, `@Delete` and
 * `DELETE FROM expenses` change it; the `@Query` selects read it.
 *
 * `@PrimaryKey(autoGenerate = true)` makes Room bind `nullif(id, 0)`: a row
 * with id 0 gets the next generated key, any other id is stored as given and
 * an id already in the table aborts the insert. Update and delete match on the
 * primary key only.
 */
module Database {
  import opened Wrappers
  import opened DataModel
  import opened ExpenseQueries

  /** SQLite's message when the key is already taken. */
  const UniqueConstraintFailed: Exception := Exception(Some("UNIQUE constraint failed: expenses.id"))
  /** SQLite's message when AUTOINCREMENT has used up the largest key. */
  const DatabaseFull: Exception := Exception(Some("database or disk is full"))

  /** The table's contents: its rows, and one more than the largest key ever stored. */
  datatype Table = Table(rows: seq<Expense>, nextId: int)

  predicate HasId(rows: seq<Expense>, id: int) {
    exists i :: 0 <= i < |rows| && rows[i].id == id
  }

  /** Keys are unique and below the AUTOINCREMENT counter. */
  ghost predicate ValidTable(t: Table) {
    && 1 <= t.nextId <= MAX_LONG + 1
    && (forall i :: 0 <= i < |t.rows| ==> t.rows[i].id < t.nextId)
    && DistinctIds(t.rows)
  }

  ghost predicate DistinctIds(rows: seq<Expense>) {
    forall i, j :: 0 <= i < j < |rows| ==> rows[i].id != rows[j].id
  }

  /** `@Insert`: the new table and the key of the inserted row, or the exception thrown. */
  function InsertRow(t: Table, e: Expense, fault: Option<Exception>): (res: (Table, Result<Long>))
    requires ValidTable(t)
    ensures ValidTable(res.0)
    ensures res.1.Failure? ==> res.0 == t
    ensures res.1.Success? <==> fault.None? && (if e.id == 0 then t.nextId <= MAX_LONG else !HasId(t.rows, e.id))
    ensures res.1.Success? ==>
      && !HasId(t.rows, res.1.value)
      && res.0.rows == t.rows + [e.(id := res.1.value)]
      && (if e.id == 0 then res.1.value == t.nextId else res.1.value == e.id)
    ensures fault.Some? ==> res.1 == Failure(fault.value)
  {
    if fault.Some? then (t, Failure(fault.value))
    else if e.id == 0 then
      if t.nextId > MAX_LONG then (t, Failure(DatabaseFull))
      else (Table(t.rows + [e.(id := t.nextId)], t.nextId + 1), Success(t.nextId))
    else if HasId(t.rows, e.id) then (t, Failure(UniqueConstraintFailed))
    else
      (Table(t.rows + [e], if e.id + 1 > t.nextId then e.id + 1 else t.nextId), Success(e.id))
  }

  /** The rows with the row whose key is `e.id` (if any) replaced by `e`. */
  function ReplaceById(rows: seq<Expense>, e: Expense): (r: seq<Expense>)
    ensures |r| == |rows|
    ensures forall i :: 0 <= i < |rows| ==> r[i] == if rows[i].id == e.id then e else rows[i]
  {
    if rows == [] then []
    else [if rows[0].id == e.id then e else rows[0]] + ReplaceById(rows[1..], e)
  }

  /** The rows whose key is not `id`, in table order. */
  function RemoveById(rows: seq<Expense>, id: int): (r: seq<Expense>)
    ensures |r| <= |rows|
    ensures forall x :: x in r <==> x in rows && x.id != id
    ensures forall i :: 0 <= i < |r| ==> r[i] in rows
  {
    if rows == [] then []
    else if rows[0].id == id then RemoveById(rows[1..], id)
    else [rows[0]] + RemoveById(rows[1..], id)
  }

  /** `@Update`: `UPDATE expenses SET ... WHERE id = :id`; no matching row is a no-op. */
  function UpdateRow(t: Table, e: Expense, fault: Option<Exception>): (res: (Table, Option<Exception>))
    requires ValidTable(t)
    ensures ValidTable(res.0)
    ensures res.1 == fault
    ensures fault.Some? ==> res.0 == t
    ensures fault.None? ==> res.0.nextId == t.nextId && |res.0.rows| == |t.rows|
    ensures fault.None? ==> forall i :: 0 <= i < |t.rows| ==>
      res.0.rows[i] == if t.rows[i].id == e.id then e else t.rows[i]
  {
    if fault.Some? then (t, fault) else (Table(ReplaceById(t.rows, e), t.nextId), None)
  }

  /** `@Delete`: `DELETE FROM expenses WHERE id = :id`; no matching row is a no-op. */
  function DeleteRow(t: Table, e: Expense, fault: Option<Exception>): (res: (Table, Option<Exception>))
    requires ValidTable(t)
    ensures ValidTable(res.0)
    ensures res.1 == fault
    ensures fault.Some? ==> res.0 == t
    ensures fault.None? ==> res.0.nextId == t.nextId
    ensures fault.None? ==> forall x :: x in res.0.rows <==> x in t.rows && x.id != e.id
  {
    if fault.Some? then (t, fault)
    else
      var rows := RemoveById(t.rows, e.id);
      DistinctIdsKept(t.rows, e.id);
      (Table(rows, t.nextId), None)
  }

  /** `DELETE FROM expenses`: the counter is kept, so keys are not reused. */
  function DeleteAllRows(t: Table, fault: Option<Exception>): (res: (Table, Option<Exception>))
    requires ValidTable(t)
    ensures ValidTable(res.0)
    ensures res.1 == fault
    ensures fault.Some? ==> res.0 == t
    ensures fault.None? ==> res.0 == Table([], t.nextId)
  {
    if fault.Some? then (t, fault) else (Table([], t.nextId), None)
  }

  lemma {:induction false} DistinctIdsKept(rows: seq<Expense>, id: int)
    requires DistinctIds(rows)
    ensures DistinctIds(RemoveById(rows, id))
    decreases |rows|
  {
    if rows != [] {
      var tl := rows[1..];
      DistinctTail(rows);
      DistinctIdsKept(tl, id);
      var tail := RemoveById(tl, id);
      if rows[0].id != id {
        forall j | 0 <= j < |tail| ensures tail[j].id != rows[0].id {
          var k :| 0 <= k < |tl| && tl[k] == tail[j];
          assert rows[k + 1] == tl[k];
        }
        DistinctCons(rows[0], tail);
        assert RemoveById(rows, id) == [rows[0]] + tail;
      } else {
        assert RemoveById(rows, id) == tail;
      }
    }
  }

  lemma DistinctTail(rows: seq<Expense>)
    requires rows != [] && DistinctIds(rows)
    ensures DistinctIds(rows[1..])
  {
    var tl := rows[1..];
    forall i, j | 0 <= i < j < |tl| ensures tl[i].id != tl[j].id {
      assert tl[i] == rows[i + 1] && tl[j] == rows[j + 1];
    }
  }

  lemma DistinctCons(x: Expense, tail: seq<Expense>)
    requires DistinctIds(tail)
    requires forall j :: 0 <= j < |tail| ==> tail[j].id != x.id
    ensures DistinctIds([x] + tail)
  {
    var r := [x] + tail;
    forall i, j | 0 <= i < j < |r| ensures r[i].id != r[j].id {
      if i == 0 {
        assert r[j] == tail[j - 1];
      } else {
        assert r[i] == tail[i - 1] && r[j] == tail[j - 1];
      }
    }
  }

  /** Keys are never reused: a generated key is above every key in the table. */
  lemma GeneratedKeyIsFresh(t: Table, e: Expense)
    requires ValidTable(t) && e.id == 0
    requires InsertRow(t, e, None).1.Success?
    ensures forall i :: 0 <= i < |t.rows| ==> t.rows[i].id < InsertRow(t, e, None).1.value
    ensures InsertRow(t, e, None).0.nextId > InsertRow(t, e, None).1.value
  {
  }

  /** A deleted row is gone from every query and from every total. */
  lemma DeletedRowLeavesQueries(t: Table, e: Expense, c: Criterion, x: Expense)
    requires ValidTable(t) && x.id == e.id
    ensures x !in Select(DeleteRow(t, e, None).0.rows, c)
  {
  }

  /** The round trip of an insert: the new row is read back. */
  lemma InsertThenRead(t: Table, e: Expense)
    requires ValidTable(t)
    requires InsertRow(t, e, None).1.Success?
    ensures var (t', r) := InsertRow(t, e, None);
      e.(id := r.value) in Select(t'.rows, Everything)
  {
    var (t', r) := InsertRow(t, e, None);
    assert t'.rows[|t.rows|] == e.(id := r.value);
  }

  /** An insert dated after every stored row comes first in `getAllExpenses`. */
  lemma NewestInsertFirst(t: Table, e: Expense)
    requires ValidTable(t)
    requires InsertRow(t, e, None).1.Success?
    requires forall i :: 0 <= i < |t.rows| ==> t.rows[i].date < e.date
    ensures var (t', r) := InsertRow(t, e, None);
      Select(t'.rows, Everything)[0] == e.(id := r.value)
  {
    var (t', r) := InsertRow(t, e, None);
    AppendedLatestFirst(t.rows, e.(id := r.value));
  }

  lemma AppendedLatestFirst(rows: seq<Expense>, row: Expense)
    requires forall i :: 0 <= i < |rows| ==> rows[i].date < row.date
    ensures Select(rows + [row], Everything)[0] == row
  {
    var all := Select(rows + [row], Everything);
    assert (rows + [row])[|rows|] == row;
    forall y | y in all && y != row ensures y.date < row.date {
      assert y in rows;
    }
    LatestFirst(all, row);
  }

  /** In a newest-first list, a row dated strictly after every other row is first. */
  lemma LatestFirst(s: seq<Expense>, x: Expense)
    requires SortedByDateDesc(s) && x in s
    requires forall y :: y in s && y != x ==> y.date < x.date
    ensures s[0] == x
  {
    var j :| 0 <= j < |s| && s[j] == x;
    assert s[0].date >= s[j].date;
  }

  /**
   * The Room DAO over one table. The methods change `rows` and `nextId`
   * exactly as the table functions above say; the queries read them.
   */
  class ExpenseDao {
    var rows: seq<Expense>
    var nextId: int

    ghost predicate Valid()
      reads this
    {
      ValidTable(Table(rows, nextId))
    }

    function State(): Table
      reads this
    {
      Table(rows, nextId)
    }

    /** An empty table whose first generated key is 1. */
    constructor ()
      ensures Valid() && rows == [] && nextId == 1
    {
      rows := [];
      nextId := 1;
    }

    /** `getAllExpenses`: every row, newest first. */
    function AllExpenses(): (r: seq<Expense>)
      reads this
      ensures SortedByDateDesc(r)
      ensures multiset(r) == multiset(rows)
    {
      assert forall x :: multiset(Select(rows, Everything))[x] == multiset(rows)[x];
      Select(rows, Everything)
    }

    /** `getTodayExpenses`: the rows with `startOfDay <= date < endOfDay`, newest first. */
    function TodayExpenses(startOfDay: int, endOfDay: int): (r: seq<Expense>)
      reads this
      ensures SortedByDateDesc(r)
      ensures forall x :: x in r <==> x in rows && startOfDay <= x.date < endOfDay
      ensures forall x :: multiset(r)[x] == if startOfDay <= x.date < endOfDay then multiset(rows)[x] else 0
    {
      Select(rows, HalfOpenWindow(startOfDay, endOfDay))
    }

    /** `getTodayTotal`: the sum over the same half-open window, NULL when it is empty. */
    function TodayTotal(startOfDay: int, endOfDay: int): (r: Option<int>)
      reads this
      ensures r.None? <==> forall x :: x in rows ==> !(startOfDay <= x.date < endOfDay)
      ensures r.Some? ==> r.value == SumAmounts(TodayExpenses(startOfDay, endOfDay))
    {
      SumWhere(rows, HalfOpenWindow(startOfDay, endOfDay))
    }

    /** `getExpensesByCategory`: the rows of one category, newest first. */
    function ExpensesByCategory(category: Category): (r: seq<Expense>)
      reads this
      ensures SortedByDateDesc(r)
      ensures forall x :: x in r <==> x in rows && x.category == category
      ensures forall x :: multiset(r)[x] == if x.category == category then multiset(rows)[x] else 0
    {
      Select(rows, OfCategory(category))
    }

    /** `getExpensesByDateRange`: the rows with `startDate <= date <= endDate`, both ends included. */
    function ExpensesByDateRange(startDate: int, endDate: int): (r: seq<Expense>)
      reads this
      ensures SortedByDateDesc(r)
      ensures forall x :: x in r <==> x in rows && startDate <= x.date <= endDate
      ensures forall x :: multiset(r)[x] == if startDate <= x.date <= endDate then multiset(rows)[x] else 0
    {
      Select(rows, ClosedRange(startDate, endDate))
    }

    /**
     * `getDailyExpenseSummary`: one line per UTC day with a row in
     * `[startDate, endDate]`, holding that day's sum and count, newest day first.
     */
    function DailyExpenseSummary(startDate: int, endDate: int): (r: seq<DailySummary>)
      reads this
      ensures DaysDescending(r)
      ensures var inRange := Filter(rows, ClosedRange(startDate, endDate));
        && (forall i :: 0 <= i < |r| ==>
              r[i].expenseCount == CountOnDay(inRange, r[i].day) && r[i].totalAmount == SumOnDay(inRange, r[i].day))
        && (forall d :: (exists i :: 0 <= i < |r| && r[i].day == d) <==> CountOnDay(inRange, d) > 0)
        && SumCounts(r) == |inRange|
        && SumTotals(r) == SumAmounts(inRange)
    {
      var inRange := Filter(rows, ClosedRange(startDate, endDate));
      SummarizeLines(inRange);
      Summarize(inRange)
    }

    /** `insertExpense`: the generated (or given) key, or the exception thrown. */
    method InsertExpense(expense: Expense, fault: Option<Exception>) returns (r: Result<Long>)
      requires Valid()
      modifies this
      ensures Valid()
      ensures (State(), r) == InsertRow(old(State()), expense, fault)
    {
      var res := InsertRow(State(), expense, fault);
      rows, nextId := res.0.rows, res.0.nextId;
      r := res.1;
    }

    /** `updateExpense`. */
    method UpdateExpense(expense: Expense, fault: Option<Exception>) returns (thrown: Option<Exception>)
      requires Valid()
      modifies this
      ensures Valid()
      ensures (State(), thrown) == UpdateRow(old(State()), expense, fault)
    {
      var res := UpdateRow(State(), expense, fault);
      rows, nextId := res.0.rows, res.0.nextId;
      thrown := res.1;
    }

    /** `deleteExpense`. */
    method DeleteExpense(expense: Expense, fault: Option<Exception>) returns (thrown: Option<Exception>)
      requires Valid()
      modifies this
      ensures Valid()
      ensures (State(), thrown) == DeleteRow(old(State()), expense, fault)
    {
      var res := DeleteRow(State(), expense, fault);
      rows, nextId := res.0.rows, res.0.nextId;
      thrown := res.1;
    }

    /** `deleteAllExpenses`. */
    method DeleteAllExpenses(fault: Option<Exception>) returns (thrown: Option<Exception>)
      requires Valid()
      modifies this
      ensures Valid()
      ensures (State(), thrown) == DeleteAllRows(old(State()), fault)
    {
      var res := DeleteAllRows(State(), fault);
      rows, nextId := res.0.rows, res.0.nextId;
      thrown := res.1;
    }
  }
}
