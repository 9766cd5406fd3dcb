/**
 * The domain use cases. `AddExpenseUseCase`: a minimal guard (title not blank, amount positive),
 * then one insert of the trimmed expense; whatever the store throws comes back
 * as a failure.
 */
module UseCases {
  import opened Wrappers
  import opened KotlinText
  import opened DataModel
  import opened Database
  import opened ExpenseQueries
  import opened Repository

  const TitleCannotBeEmpty: Exception := Exception(Some("Title cannot be empty"))
  const AmountMustBePositive: Exception := Exception(Some("Amount must be greater than 0"))

  /**
   * The row the use case hands to the store: id 0 (generated on insert),
   * trimmed title and notes, and `date` and `createdAt` both the current time.
   */
  function NewExpense(title: string, amount: int, category: Category, notes: string,
                      receiptImagePath: Option<string>, now: int): (e: Expense)
    ensures e.id == 0 && e.date == now && e.createdAt == now
    ensures e.amount == amount && e.category == category && e.receiptImagePath == receiptImagePath
    ensures e.title == [] <==> IsBlank(title)
    ensures e.title != [] ==> !IsWhitespace(e.title[0]) && !IsWhitespace(e.title[|e.title| - 1])
    ensures |e.notes| <= |notes|
  {
    Expense(0, Trim(title), amount, category, Trim(notes), receiptImagePath, now, now)
  }

  /** What `invoke` does to the table and what it returns, given the store's fault (if any). */
  function AddOutcome(t: Table, title: string, amount: int, category: Category, notes: string,
                      receiptImagePath: Option<string>, now: int, fault: Option<Exception>): (res: (Table, Result<Long>))
    requires ValidTable(t)
    ensures ValidTable(res.0)
    ensures res.1.Failure? ==> res.0 == t
    ensures res.1.Success? ==> |res.0.rows| == |t.rows| + 1 && res.0.rows[..|t.rows|] == t.rows
  {
    if IsBlank(title) then (t, Failure(TitleCannotBeEmpty))
    else if amount <= 0 then (t, Failure(AmountMustBePositive))
    else InsertRow(t, NewExpense(title, amount, category, notes, receiptImagePath, now), fault)
  }

  /** The guard: a blank title, and then a non-positive amount, fail without touching the store. */
  lemma GuardFailures(t: Table, title: string, amount: int, category: Category, notes: string,
                      receiptImagePath: Option<string>, now: int, fault: Option<Exception>)
    requires ValidTable(t)
    ensures IsBlank(title) ==>
      AddOutcome(t, title, amount, category, notes, receiptImagePath, now, fault) == (t, Failure(TitleCannotBeEmpty))
    ensures !IsBlank(title) && amount <= 0 ==>
      AddOutcome(t, title, amount, category, notes, receiptImagePath, now, fault) == (t, Failure(AmountMustBePositive))
    ensures AddOutcome(t, title, amount, category, notes, receiptImagePath, now, fault).1.Failure? ==>
      AddOutcome(t, title, amount, category, notes, receiptImagePath, now, fault).0 == t
  {
  }

  /**
   * On success exactly one row is added, with a fresh generated key, the
   * trimmed title and notes, the same amount, category and receipt path, and
   * a title that is not blank; the result is the store's key.
   */
  lemma SuccessAddsOneRow(t: Table, title: string, amount: int, category: Category, notes: string,
                          receiptImagePath: Option<string>, now: int, fault: Option<Exception>)
    requires ValidTable(t)
    requires AddOutcome(t, title, amount, category, notes, receiptImagePath, now, fault).1.Success?
    ensures var (t', r) := AddOutcome(t, title, amount, category, notes, receiptImagePath, now, fault);
      && !IsBlank(title) && amount > 0 && fault.None?
      && r.value == t.nextId
      && !HasId(t.rows, r.value)
      && t'.rows == t.rows + [Expense(r.value, Trim(title), amount, category, Trim(notes), receiptImagePath, now, now)]
      && !IsBlank(t'.rows[|t.rows|].title)
  {
    TrimNotBlank(title);
  }

  /** With a healthy store and room for another key, a guarded call always succeeds. */
  lemma SuccessWhenGuardPasses(t: Table, title: string, amount: int, category: Category, notes: string,
                               receiptImagePath: Option<string>, now: int)
    requires ValidTable(t) && t.nextId <= MAX_LONG
    requires !IsBlank(title) && amount > 0
    ensures AddOutcome(t, title, amount, category, notes, receiptImagePath, now, None) ==
      (Table(t.rows + [NewExpense(title, amount, category, notes, receiptImagePath, now).(id := t.nextId)], t.nextId + 1),
       Success(t.nextId))
  {
  }

  /** An exception from the store is returned as the failure, unchanged. */
  lemma StoreFaultPassedOn(t: Table, title: string, amount: int, category: Category, notes: string,
                           receiptImagePath: Option<string>, now: int, e: Exception)
    requires ValidTable(t)
    requires !IsBlank(title) && amount > 0
    ensures AddOutcome(t, title, amount, category, notes, receiptImagePath, now, Some(e)) == (t, Failure(e))
  {
  }

  /**
   * After a successful add, today's total (the half-open window the
   * repository queries) grows by exactly the new amount, because the row is
   * stamped `now`; the one exception is a call made at 23:59:59.999 local
   * time, whose row falls outside `date < endOfDay` and leaves the total as it was.
   */
  lemma AddRaisesTodayTotal(t: Table, title: string, amount: int, category: Category, notes: string,
                            receiptImagePath: Option<string>, now: int, zoneOffset: int, fault: Option<Exception>)
    requires ValidTable(t)
    requires AddOutcome(t, title, amount, category, notes, receiptImagePath, now, fault).1.Success?
    ensures var t' := AddOutcome(t, title, amount, category, notes, receiptImagePath, now, fault).0;
      var today := HalfOpenWindow(LocalDayStart(now, zoneOffset), LocalDayEnd(now, zoneOffset));
      now < LocalDayEnd(now, zoneOffset) ==>
        SumWhere(t'.rows, today).GetOr(0) == SumWhere(t.rows, today).GetOr(0) + amount
    ensures var t' := AddOutcome(t, title, amount, category, notes, receiptImagePath, now, fault).0;
      var today := HalfOpenWindow(LocalDayStart(now, zoneOffset), LocalDayEnd(now, zoneOffset));
      now == LocalDayEnd(now, zoneOffset) ==>
        SumWhere(t'.rows, today).GetOr(0) == SumWhere(t.rows, today).GetOr(0)
  {
    var t' := AddOutcome(t, title, amount, category, notes, receiptImagePath, now, fault).0;
    var today := HalfOpenWindow(LocalDayStart(now, zoneOffset), LocalDayEnd(now, zoneOffset));
    SuccessAddsOneRow(t, title, amount, category, notes, receiptImagePath, now, fault);
    var x := t'.rows[|t.rows|];
    assert t'.rows == t.rows + [x] && x.date == now;
    TodayWindow(now, zoneOffset);
    SumWhereAppend(t.rows, x, today);
  }

  class AddExpenseUseCase {
    const repository: ExpenseRepositoryImpl

    constructor (repository: ExpenseRepositoryImpl)
      ensures this.repository == repository
    {
      this.repository := repository;
    }

    /** `invoke`; `now` stands for the `System.currentTimeMillis()` defaults of `Expense`. */
    method Invoke(title: string, amount: int, category: Category, notes: string,
                  receiptImagePath: Option<string>, now: int, fault: Option<Exception>) returns (r: Result<Long>)
      requires repository.dao.Valid()
      modifies repository.dao
      ensures repository.dao.Valid()
      ensures (repository.dao.State(), r) ==
        AddOutcome(old(repository.dao.State()), title, amount, category, notes, receiptImagePath, now, fault)
    {
      if IsBlank(title) {
        r := Failure(TitleCannotBeEmpty);
      } else if amount <= 0 {
        r := Failure(AmountMustBePositive);
      } else {
        var expense := NewExpense(title, amount, category, notes, receiptImagePath, now);
        r := repository.InsertExpense(expense, fault);
      }
    }
  }

  /** `GetTodayTotalUseCase`: today's total as the repository reports it. */
  class GetTodayTotalUseCase {
    const repository: ExpenseRepositoryImpl

    constructor (repository: ExpenseRepositoryImpl)
      ensures this.repository == repository
    {
      this.repository := repository;
    }

    method Invoke(now: int, zoneOffset: int) returns (total: int)
      ensures total == SumAmounts(repository.dao.TodayExpenses(LocalDayStart(now, zoneOffset), LocalDayEnd(now, zoneOffset)))
    {
      total := repository.TodayTotal(now, zoneOffset);
    }
  }
}
