/**
 * The weekly report screen's view model: the daily summary of the last seven
 * days (or of a chosen range) read from the repository, and a demo mode that
 * shows seven days of generated figures instead. Each coroutine the source
 * launches is modelled as running to completion inside the call.
 */
module ReportScreen {
  import opened Wrappers
  import opened DataModel
  import opened ExpenseQueries
  import opened Repository

  /** `ExpenseReportUiState`; the week's total is in cents. */
  datatype ReportUiState = ReportUiState(
    isLoading: bool,
    dailySummaries: seq<DailySummary>,
    totalWeekExpense: int,
    errorMessage: Option<string>,
    isDemoMode: bool)

  const InitialReportUiState: ReportUiState := ReportUiState(false, [], 0, None, false)

  const DEMO_DAYS: int := 7
  const REPORT_DAYS: int := 7

  /** The message shown when the store throws while the report loads. */
  function LoadFailedMessage(e: Exception): string {
    "Failed to load report: " + e.message.GetOr("null")
  }

  /**
   * `(first..last).random()`: `raw` is whatever the random source produced,
   * folded onto the range.
   */
  function RandomIn(first: int, last: int, raw: int): (v: int)
    requires first <= last
    ensures first <= v <= last
  {
    first + raw % (last - first + 1)
  }

  /**
   * The demo summaries, oldest day first: the line for `today - 6 + n` takes
   * the `2n`-th draw as its amount in whole rupees (100 to 800) and the
   * `2n+1`-th as its count (1 to 5).
   */
  function DemoData(today: int, rand: nat -> int): (d: seq<DailySummary>)
    ensures |d| == DEMO_DAYS
    ensures forall i :: 0 <= i < |d| ==> d[i].day == today - (DEMO_DAYS - 1) + i
    ensures forall i :: 0 <= i < |d| ==> 10_000 <= d[i].totalAmount <= 80_000 && 1 <= d[i].expenseCount <= 5
  {
    var d := seq(DEMO_DAYS, n requires 0 <= n < DEMO_DAYS =>
      DailySummary(today - (DEMO_DAYS - 1) + n,
                   RandomIn(100, 800, rand(2 * n)) * 100,
                   RandomIn(1, 5, rand(2 * n + 1))));
    assert forall i :: 0 <= i < |d| ==> 10_000 <= d[i].totalAmount <= 80_000 && 1 <= d[i].expenseCount <= 5 by {
      forall i | 0 <= i < |d| ensures 10_000 <= d[i].totalAmount <= 80_000 && 1 <= d[i].expenseCount <= 5 {
        var rupees := RandomIn(100, 800, rand(2 * i));
        assert d[i].totalAmount == rupees * 100;
        assert d[i].expenseCount == RandomIn(1, 5, rand(2 * i + 1));
      }
    }
    d
  }

  /** Every line lies between the bounds given, so the sum lies between their multiples. */
  lemma {:induction false} SumTotalsBetween(s: seq<DailySummary>, lo: int, hi: int)
    requires forall i :: 0 <= i < |s| ==> lo <= s[i].totalAmount <= hi
    ensures |s| * lo <= SumTotals(s) <= |s| * hi
  {
    if s != [] {
      SumTotalsBetween(s[1..], lo, hi);
    }
  }

  /**
   * The demo week: seven consecutive days ending today, oldest first, each
   * between 100 and 800 rupees over 1 to 5 expenses, so the week's total is
   * between 700 and 5600 rupees.
   */
  lemma DemoWeekShape(today: int, rand: nat -> int)
    ensures var d := DemoData(today, rand);
      && |d| == 7
      && d[6].day == today
      && (forall i :: 0 <= i < 6 ==> d[i + 1].day == d[i].day + 1)
      && (forall i :: 0 <= i < 7 ==> 10_000 <= d[i].totalAmount <= 80_000 && 1 <= d[i].expenseCount <= 5)
      && 70_000 <= SumTotals(d) <= 560_000
  {
    var d := DemoData(today, rand);
    SumTotalsBetween(d, 10_000, 80_000);
  }

  /** `generateDemoData`: the loop `for (i in 6 downTo 0)`, drawing two values per day. */
  method GenerateDemoData(today: int, rand: nat -> int) returns (data: seq<DailySummary>)
    ensures data == DemoData(today, rand)
  {
    data := [];
    var i := DEMO_DAYS - 1;
    while i >= 0
      invariant -1 <= i < DEMO_DAYS
      invariant |data| == DEMO_DAYS - 1 - i
      invariant forall n :: 0 <= n < |data| ==> data[n] == DemoData(today, rand)[n]
    {
      var n := DEMO_DAYS - 1 - i;
      var amount := RandomIn(100, 800, rand(2 * n)) * 100;
      var count := RandomIn(1, 5, rand(2 * n + 1));
      data := data + [DailySummary(today - i, amount, count)];
      i := i - 1;
    }
  }

  class ExpenseReportViewModel {
    const repository: ExpenseRepositoryImpl
    var uiState: ReportUiState

    /** The report starts in live mode and loads the last week. */
    constructor (repository: ExpenseRepositoryImpl, now: int, fault: Option<Exception>)
      ensures this.repository == repository
      ensures fault.None? ==> uiState == InitialReportUiState.(
        dailySummaries := repository.DailyExpenseSummary(now - REPORT_DAYS * MILLIS_PER_DAY, now),
        totalWeekExpense := SumTotals(repository.DailyExpenseSummary(now - REPORT_DAYS * MILLIS_PER_DAY, now)))
      ensures fault.Some? ==> uiState == InitialReportUiState.(errorMessage := Some(LoadFailedMessage(fault.value)))
    {
      this.repository := repository;
      uiState := InitialReportUiState;
      new;
      LoadLastWeekReport(now, fault);
    }

    /**
     * `toggleDemoMode`: switching on shows generated figures for the local
     * day of `now`; switching off reloads the last week from the store.
     */
    method ToggleDemoMode(now: int, zoneOffset: int, rand: nat -> int, fault: Option<Exception>)
      modifies this`uiState
      ensures !old(uiState).isDemoMode ==>
        uiState == old(uiState).(isLoading := false,
                                 dailySummaries := DemoData((now + zoneOffset) / MILLIS_PER_DAY, rand),
                                 totalWeekExpense := SumTotals(DemoData((now + zoneOffset) / MILLIS_PER_DAY, rand)),
                                 isDemoMode := true)
      ensures old(uiState).isDemoMode ==>
        uiState == ReportLoaded(old(uiState).(isDemoMode := false), now - REPORT_DAYS * MILLIS_PER_DAY, now, fault)
    {
      var currentDemoMode := uiState.isDemoMode;
      uiState := uiState.(isDemoMode := !currentDemoMode);
      if !currentDemoMode {
        LoadDemoData(now, zoneOffset, rand);
      } else {
        LoadLastWeekReport(now, fault);
      }
    }

    method LoadDemoData(now: int, zoneOffset: int, rand: nat -> int)
      modifies this`uiState
      ensures uiState == old(uiState).(isLoading := false,
                                       dailySummaries := DemoData((now + zoneOffset) / MILLIS_PER_DAY, rand),
                                       totalWeekExpense := SumTotals(DemoData((now + zoneOffset) / MILLIS_PER_DAY, rand)),
                                       isDemoMode := true)
    {
      var demoData := GenerateDemoData((now + zoneOffset) / MILLIS_PER_DAY, rand);
      var totalDemoExpense := SumTotals(demoData);
      uiState := uiState.(isLoading := false, dailySummaries := demoData,
                          totalWeekExpense := totalDemoExpense, isDemoMode := true);
    }

    /**
     * The state after a live load of `[startDate, endDate]`: the summaries and
     * their total, or the error message with the old figures kept.
     */
    ghost function ReportLoaded(s: ReportUiState, startDate: int, endDate: int, fault: Option<Exception>): (r: ReportUiState)
      reads repository.dao
      ensures !r.isLoading && r.isDemoMode == s.isDemoMode
      ensures fault.None? ==>
        && r.errorMessage == s.errorMessage
        && DaysDescending(r.dailySummaries)
        && r.totalWeekExpense == SumAmounts(Filter(repository.dao.rows, ClosedRange(startDate, endDate)))
      ensures fault.Some? ==>
        && r.errorMessage == Some(LoadFailedMessage(fault.value))
        && r.dailySummaries == s.dailySummaries
        && r.totalWeekExpense == s.totalWeekExpense
    {
      if fault.Some? then s.(isLoading := false, errorMessage := Some(LoadFailedMessage(fault.value)))
      else
        var summary := repository.DailyExpenseSummary(startDate, endDate);
        s.(isLoading := false, dailySummaries := summary, totalWeekExpense := SumTotals(summary))
    }

    /** `loadLastWeekReport`: the seven days up to `now`; nothing happens in demo mode. */
    method LoadLastWeekReport(now: int, fault: Option<Exception>)
      modifies this`uiState
      ensures old(uiState).isDemoMode ==> uiState == old(uiState)
      ensures !old(uiState).isDemoMode ==>
        uiState == ReportLoaded(old(uiState), now - REPORT_DAYS * MILLIS_PER_DAY, now, fault)
    {
      if uiState.isDemoMode {
        return;
      }
      var endDate := now;
      var startDate := endDate - REPORT_DAYS * MILLIS_PER_DAY;
      LoadRange(startDate, endDate, fault);
    }

    /** `loadCustomDateReport`; nothing happens in demo mode. */
    method LoadCustomDateReport(startDate: int, endDate: int, fault: Option<Exception>)
      modifies this`uiState
      ensures old(uiState).isDemoMode ==> uiState == old(uiState)
      ensures !old(uiState).isDemoMode ==> uiState == ReportLoaded(old(uiState), startDate, endDate, fault)
    {
      if uiState.isDemoMode {
        return;
      }
      LoadRange(startDate, endDate, fault);
    }

    /** The launched part of both live loads; `fault` is what the store may throw. */
    method LoadRange(startDate: int, endDate: int, fault: Option<Exception>)
      modifies this`uiState
      ensures uiState == ReportLoaded(old(uiState), startDate, endDate, fault)
    {
      uiState := uiState.(isLoading := true);
      if fault.Some? {
        uiState := uiState.(isLoading := false, errorMessage := Some(LoadFailedMessage(fault.value)));
      } else {
        var summary := repository.DailyExpenseSummary(startDate, endDate);
        var total := SumTotals(summary);
        uiState := uiState.(isLoading := false, dailySummaries := summary, totalWeekExpense := total);
      }
    }

    method ClearError()
      modifies this`uiState
      ensures uiState == old(uiState).(errorMessage := None)
    {
      uiState := uiState.(errorMessage := None);
    }
  }
}
