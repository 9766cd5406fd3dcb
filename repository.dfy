/**
 * `ExpenseRepositoryImpl`: the DAO behind the domain interface, plus the
 * local-day window `[00:00:00.000, 23:59:59.999]` that today's queries use.
 *
 * `Calendar.getInstance()` reads the clock and the device time zone; here the
 * instant `now` and the zone's offset from UTC (in milliseconds) are parameters.
 */
module Repository {
  import opened Wrappers
  import opened DataModel
  import opened ExpenseQueries
  import opened Database

  const MILLIS_PER_SECOND: int := 1000
  const MILLIS_PER_MINUTE: int := 60_000
  const MILLIS_PER_HOUR: int := 3_600_000
  const MILLIS_PER_DAY: int := 86_400_000

  /** The instant of local midnight that starts the day holding `now`. */
  function LocalDayStart(now: int, zoneOffset: int): int {
    now - (now + zoneOffset) % MILLIS_PER_DAY
  }

  /** The instant of 23:59:59.999 local time on the day holding `now`. */
  function LocalDayEnd(now: int, zoneOffset: int): int {
    LocalDayStart(now, zoneOffset) + MILLIS_PER_DAY - 1
  }

  /**
   * The fields of a `java.util.Calendar` that the repository touches: the
   * local day and the time of day, in a zone with a fixed offset.
   */
  class Calendar {
    const zoneOffset: int
    var localDay: int
    var hourOfDay: int
    var minute: int
    var second: int
    var millisecond: int

    /** `calendar.timeInMillis`. */
    function TimeInMillis(): int
      reads this
    {
      localDay * MILLIS_PER_DAY + hourOfDay * MILLIS_PER_HOUR + minute * MILLIS_PER_MINUTE
        + second * MILLIS_PER_SECOND + millisecond - zoneOffset
    }

    /** `Calendar.getInstance()` at the instant `now`. */
    constructor (now: int, zoneOffset: int)
      ensures this.zoneOffset == zoneOffset
      ensures localDay == (now + zoneOffset) / MILLIS_PER_DAY
      ensures TimeInMillis() == now
    {
      var local := now + zoneOffset;
      var ofDay := local % MILLIS_PER_DAY;
      this.zoneOffset := zoneOffset;
      localDay := local / MILLIS_PER_DAY;
      hourOfDay := ofDay / MILLIS_PER_HOUR;
      minute := ofDay % MILLIS_PER_HOUR / MILLIS_PER_MINUTE;
      second := ofDay % MILLIS_PER_MINUTE / MILLIS_PER_SECOND;
      millisecond := ofDay % MILLIS_PER_SECOND;
      new;
      ClockFields(ofDay);
    }

    /** `calendar.set(Calendar.HOUR_OF_DAY, h)`. */
    method SetHourOfDay(h: int)
      modifies this`hourOfDay
      ensures hourOfDay == h
      ensures TimeInMillis() == old(TimeInMillis()) + (h - old(hourOfDay)) * MILLIS_PER_HOUR
    {
      hourOfDay := h;
    }

    /** `calendar.set(Calendar.MINUTE, m)`. */
    method SetMinute(m: int)
      modifies this`minute
      ensures minute == m
      ensures TimeInMillis() == old(TimeInMillis()) + (m - old(minute)) * MILLIS_PER_MINUTE
    {
      minute := m;
    }

    /** `calendar.set(Calendar.SECOND, s)`. */
    method SetSecond(s: int)
      modifies this`second
      ensures second == s
      ensures TimeInMillis() == old(TimeInMillis()) + (s - old(second)) * MILLIS_PER_SECOND
    {
      second := s;
    }

    /** `calendar.set(Calendar.MILLISECOND, ms)`. */
    method SetMillisecond(ms: int)
      modifies this`millisecond
      ensures millisecond == ms
      ensures TimeInMillis() == old(TimeInMillis()) + (ms - old(millisecond))
    {
      millisecond := ms;
    }
  }

  /** Splitting a time of day into hours, minutes, seconds and milliseconds loses nothing. */
  lemma ClockFields(ofDay: int)
    requires 0 <= ofDay
    ensures ofDay == ofDay / MILLIS_PER_HOUR * MILLIS_PER_HOUR
      + ofDay % MILLIS_PER_HOUR / MILLIS_PER_MINUTE * MILLIS_PER_MINUTE
      + ofDay % MILLIS_PER_MINUTE / MILLIS_PER_SECOND * MILLIS_PER_SECOND
      + ofDay % MILLIS_PER_SECOND
  {
    var h, r := ofDay / MILLIS_PER_HOUR, ofDay % MILLIS_PER_HOUR;
    var m, r' := r / MILLIS_PER_MINUTE, r % MILLIS_PER_MINUTE;
    var s, ms := r' / MILLIS_PER_SECOND, r' % MILLIS_PER_SECOND;
    assert ofDay == h * MILLIS_PER_HOUR + r;
    assert r == m * MILLIS_PER_MINUTE + r';
    assert r' == s * MILLIS_PER_SECOND + ms;
    assert ofDay % MILLIS_PER_MINUTE == r' by {
      assert ofDay == (h * 60 + m) * MILLIS_PER_MINUTE + r';
    }
    assert ofDay % MILLIS_PER_SECOND == ms by {
      assert ofDay == ((h * 60 + m) * 60 + s) * MILLIS_PER_SECOND + ms;
    }
  }

  /** `getTodayStartTime`: today at 00:00:00.000 local time. */
  method TodayStartTime(now: int, zoneOffset: int) returns (t: int)
    ensures t == LocalDayStart(now, zoneOffset)
  {
    var calendar := new Calendar(now, zoneOffset);
    calendar.SetHourOfDay(0);
    calendar.SetMinute(0);
    calendar.SetSecond(0);
    calendar.SetMillisecond(0);
    t := calendar.TimeInMillis();
  }

  /** `getTodayEndTime`: today at 23:59:59.999 local time. */
  method TodayEndTime(now: int, zoneOffset: int) returns (t: int)
    ensures t == LocalDayEnd(now, zoneOffset)
  {
    var calendar := new Calendar(now, zoneOffset);
    calendar.SetHourOfDay(23);
    calendar.SetMinute(59);
    calendar.SetSecond(59);
    calendar.SetMillisecond(999);
    t := calendar.TimeInMillis();
  }

  /**
   * The window starts at a local midnight, ends 86,399,999 ms later on the same
   * local day, and holds `now`.
   */
  lemma TodayWindow(now: int, zoneOffset: int)
    ensures LocalDayStart(now, zoneOffset) <= now <= LocalDayEnd(now, zoneOffset)
    ensures LocalDayStart(now, zoneOffset) < LocalDayEnd(now, zoneOffset)
    ensures (LocalDayStart(now, zoneOffset) + zoneOffset) % MILLIS_PER_DAY == 0
    ensures (LocalDayEnd(now, zoneOffset) + zoneOffset) / MILLIS_PER_DAY == (now + zoneOffset) / MILLIS_PER_DAY
    ensures (LocalDayStart(now, zoneOffset) + zoneOffset) / MILLIS_PER_DAY == (now + zoneOffset) / MILLIS_PER_DAY
  {
    var local := now + zoneOffset;
    var day := local / MILLIS_PER_DAY;
    assert LocalDayStart(now, zoneOffset) + zoneOffset == day * MILLIS_PER_DAY;
    assert LocalDayEnd(now, zoneOffset) + zoneOffset == day * MILLIS_PER_DAY + (MILLIS_PER_DAY - 1);
  }

  /**
   * Today's queries filter with `date < endOfDay`, so a row stamped exactly
   * 23:59:59.999 local time is in neither today's list nor today's total.
   */
  lemma LastMillisecondExcluded(rows: seq<Expense>, now: int, zoneOffset: int, x: Expense)
    requires x.date == LocalDayEnd(now, zoneOffset)
    ensures x !in Select(rows, HalfOpenWindow(LocalDayStart(now, zoneOffset), LocalDayEnd(now, zoneOffset)))
    ensures SumWhere(rows, HalfOpenWindow(LocalDayStart(now, zoneOffset), LocalDayEnd(now, zoneOffset)))
         == SumWhere(RemoveAll(rows, x), HalfOpenWindow(LocalDayStart(now, zoneOffset), LocalDayEnd(now, zoneOffset)))
  {
    var c := HalfOpenWindow(LocalDayStart(now, zoneOffset), LocalDayEnd(now, zoneOffset));
    FilterIgnores(rows, c, x);
  }

  /** The rows other than `x`. */
  function RemoveAll(rows: seq<Expense>, x: Expense): seq<Expense> {
    if rows == [] then [] else if rows[0] == x then RemoveAll(rows[1..], x) else [rows[0]] + RemoveAll(rows[1..], x)
  }

  lemma {:induction false} FilterIgnores(rows: seq<Expense>, c: Criterion, x: Expense)
    requires !Matches(c, x)
    ensures Filter(rows, c) == Filter(RemoveAll(rows, x), c)
    decreases |rows|
  {
    if rows != [] {
      FilterIgnores(rows[1..], c, x);
      if rows[0] != x {
        assert RemoveAll(rows, x) == [rows[0]] + RemoveAll(rows[1..], x);
        assert RemoveAll(rows, x)[1..] == RemoveAll(rows[1..], x);
      }
    }
  }

  /** `getTodayTotal` and `getTodayExpenses` read the same window, so the total is the list's sum. */
  lemma TodayTotalIsListSum(rows: seq<Expense>, start: int, end: int)
    ensures SumWhere(rows, HalfOpenWindow(start, end)).GetOr(0) == SumAmounts(Select(rows, HalfOpenWindow(start, end)))
  {
    var c := HalfOpenWindow(start, end);
    if SumWhere(rows, c).None? {
      assert Filter(rows, c) == [] by {
        assert forall x :: x in Filter(rows, c) <==> multiset(Filter(rows, c))[x] > 0;
      }
    }
  }

  /** The repository: a pass-through to one `ExpenseDao`. */
  class ExpenseRepositoryImpl {
    const dao: ExpenseDao

    constructor (dao: ExpenseDao)
      ensures this.dao == dao
    {
      this.dao := dao;
    }

    /** `getAllExpenses`. */
    function AllExpenses(): (r: seq<Expense>)
      reads dao
      ensures SortedByDateDesc(r) && multiset(r) == multiset(dao.rows)
    {
      dao.AllExpenses()
    }

    /** `getTodayExpenses`: the DAO's half-open query over today's local window. */
    method TodayExpenses(now: int, zoneOffset: int) returns (r: seq<Expense>)
      ensures r == dao.TodayExpenses(LocalDayStart(now, zoneOffset), LocalDayEnd(now, zoneOffset))
      ensures forall x :: x in r <==>
        x in dao.rows && LocalDayStart(now, zoneOffset) <= x.date < LocalDayEnd(now, zoneOffset)
    {
      var startOfDay := TodayStartTime(now, zoneOffset);
      var endOfDay := TodayEndTime(now, zoneOffset);
      r := dao.TodayExpenses(startOfDay, endOfDay);
    }

    /** `getTodayTotal`: the DAO's sum over today's window, with NULL read as 0. */
    method TodayTotal(now: int, zoneOffset: int) returns (total: int)
      ensures total == dao.TodayTotal(LocalDayStart(now, zoneOffset), LocalDayEnd(now, zoneOffset)).GetOr(0)
      ensures total == SumAmounts(dao.TodayExpenses(LocalDayStart(now, zoneOffset), LocalDayEnd(now, zoneOffset)))
      ensures (forall x :: x in dao.rows ==> !(LocalDayStart(now, zoneOffset) <= x.date < LocalDayEnd(now, zoneOffset)))
        ==> total == 0
    {
      var startOfDay := TodayStartTime(now, zoneOffset);
      var endOfDay := TodayEndTime(now, zoneOffset);
      TodayTotalIsListSum(dao.rows, startOfDay, endOfDay);
      total := dao.TodayTotal(startOfDay, endOfDay).GetOr(0);
    }

    /** `getExpensesByCategory`. */
    function ExpensesByCategory(category: Category): (r: seq<Expense>)
      reads dao
      ensures r == dao.ExpensesByCategory(category)
      ensures forall x :: x in r <==> x in dao.rows && x.category == category
    {
      dao.ExpensesByCategory(category)
    }

    /** `getExpensesByDateRange`: the bounds reach the DAO unchanged. */
    function ExpensesByDateRange(startDate: int, endDate: int): (r: seq<Expense>)
      reads dao
      ensures r == dao.ExpensesByDateRange(startDate, endDate)
      ensures forall x :: x in r <==> x in dao.rows && startDate <= x.date <= endDate
    {
      dao.ExpensesByDateRange(startDate, endDate)
    }

    /** `getDailyExpenseSummary`: the bounds reach the DAO unchanged. */
    function DailyExpenseSummary(startDate: int, endDate: int): (r: seq<DailySummary>)
      reads dao
      ensures r == dao.DailyExpenseSummary(startDate, endDate)
      ensures DaysDescending(r)
      ensures SumTotals(r) == SumAmounts(Filter(dao.rows, ClosedRange(startDate, endDate)))
    {
      dao.DailyExpenseSummary(startDate, endDate)
    }

    /** `insertExpense`: the DAO's insert, returning the DAO's key. */
    method InsertExpense(expense: Expense, fault: Option<Exception>) returns (r: Result<Long>)
      requires dao.Valid()
      modifies dao
      ensures dao.Valid()
      ensures (dao.State(), r) == InsertRow(old(dao.State()), expense, fault)
    {
      r := dao.InsertExpense(expense, fault);
    }

    /** `updateExpense`. */
    method UpdateExpense(expense: Expense, fault: Option<Exception>) returns (thrown: Option<Exception>)
      requires dao.Valid()
      modifies dao
      ensures dao.Valid()
      ensures (dao.State(), thrown) == UpdateRow(old(dao.State()), expense, fault)
    {
      thrown := dao.UpdateExpense(expense, fault);
    }

    /** `deleteExpense`. */
    method DeleteExpense(expense: Expense, fault: Option<Exception>) returns (thrown: Option<Exception>)
      requires dao.Valid()
      modifies dao
      ensures dao.Valid()
      ensures (dao.State(), thrown) == DeleteRow(old(dao.State()), expense, fault)
    {
      thrown := dao.DeleteExpense(expense, fault);
    }
  }
}
