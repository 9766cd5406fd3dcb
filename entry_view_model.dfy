/**
 * The add-expense screen's view model: the form's state, the edits that
 * change it, the submission through `AddExpenseUseCase` and today's running
 * total. Each coroutine the source launches is modelled as running to
 * completion inside the call that launches it.
 */
module EntryScreen {
  import opened Wrappers
  import opened DataModel
  import opened Database
  import opened ExpenseQueries
  import opened Repository
  import opened UseCases
  import KotlinText

  /** `ExpenseEntryUiState`; the amount is the raw text typed by the user. */
  datatype EntryUiState = EntryUiState(
    title: string,
    amount: string,
    selectedCategory: Category,
    notes: string,
    receiptImagePath: Option<string>,
    isLoading: bool,
    isExpenseAdded: bool,
    errorMessage: Option<string>,
    successMessage: Option<string>)

  const InitialEntryUiState: EntryUiState := EntryUiState("", "", Food, "", None, false, false, None, None)

  /** Notes longer than this are not taken from the text field at all. */
  const MAX_TYPED_NOTES_LENGTH: int := 100

  const InvalidAmountMessage: string := "Please enter a valid amount"
  const AddedMessage: string := "Expense added successfully!"
  const AddFailedMessage: string := "Failed to add expense"

  /** The form's state once a submission has been answered by the use case. */
  function AnsweredState(s: EntryUiState, r: Result<Long>): (s': EntryUiState)
    ensures !s'.isLoading
    ensures s'.title == s.title && s'.amount == s.amount && s'.notes == s.notes
    ensures s'.selectedCategory == s.selectedCategory && s'.receiptImagePath == s.receiptImagePath
    ensures r.Success? ==> s'.isExpenseAdded && s'.successMessage == Some(AddedMessage) && s'.errorMessage == None
    ensures r.Failure? ==> s'.isExpenseAdded == s.isExpenseAdded && s'.successMessage == s.successMessage
    ensures r.Failure? ==> s'.errorMessage == Some(r.exception.message.GetOr(AddFailedMessage))
  {
    match r
    case Success(_) => s.(isLoading := false, errorMessage := None, isExpenseAdded := true, successMessage := Some(AddedMessage))
    case Failure(e) => s.(isLoading := false, errorMessage := Some(e.message.GetOr(AddFailedMessage)))
  }

  /** A blank title is answered with the use case's own message, and nothing is stored. */
  lemma BlankTitleShowsMessage(t: Table, s: EntryUiState, amount: int, now: int, fault: Option<Exception>)
    requires ValidTable(t)
    requires KotlinText.IsBlank(s.title)
    ensures var (t', r) := AddOutcome(t, s.title, amount, s.selectedCategory, s.notes, s.receiptImagePath, now, fault);
      && t' == t
      && AnsweredState(s, r).errorMessage == Some("Title cannot be empty")
      && AnsweredState(s, r).isExpenseAdded == s.isExpenseAdded
  {
  }

  class ExpenseEntryViewModel {
    const addExpenseUseCase: AddExpenseUseCase
    const getTodayTotalUseCase: GetTodayTotalUseCase
    var uiState: EntryUiState
    /** Today's total in cents, as last loaded. */
    var todayTotal: int

    /** The store both use cases work on. */
    function Dao(): ExpenseDao {
      addExpenseUseCase.repository.dao
    }

    ghost predicate Valid()
      reads Dao()
    {
      getTodayTotalUseCase.repository == addExpenseUseCase.repository && Dao().Valid()
    }

    /** Today's total as the store holds it now. */
    ghost function StoredTodayTotal(now: int, zoneOffset: int): int
      reads Dao()
    {
      SumAmounts(Dao().TodayExpenses(LocalDayStart(now, zoneOffset), LocalDayEnd(now, zoneOffset)))
    }

    /** The view model starts on an empty form and loads today's total. */
    constructor (addExpenseUseCase: AddExpenseUseCase, getTodayTotalUseCase: GetTodayTotalUseCase,
                 now: int, zoneOffset: int, readFault: Option<Exception>)
      requires getTodayTotalUseCase.repository == addExpenseUseCase.repository
      requires addExpenseUseCase.repository.dao.Valid()
      ensures this.addExpenseUseCase == addExpenseUseCase && this.getTodayTotalUseCase == getTodayTotalUseCase
      ensures Valid()
      ensures uiState == InitialEntryUiState
      ensures todayTotal == if readFault.Some? then 0 else StoredTodayTotal(now, zoneOffset)
    {
      this.addExpenseUseCase := addExpenseUseCase;
      this.getTodayTotalUseCase := getTodayTotalUseCase;
      uiState := InitialEntryUiState;
      todayTotal := 0;
      new;
      LoadTodayTotal(now, zoneOffset, readFault);
    }

    method OnTitleChanged(title: string)
      modifies this`uiState
      ensures uiState == old(uiState).(title := title)
    {
      uiState := uiState.(title := title);
    }

    method OnAmountChanged(amount: string)
      modifies this`uiState
      ensures uiState == old(uiState).(amount := amount)
    {
      uiState := uiState.(amount := amount);
    }

    method OnCategorySelected(category: Category)
      modifies this`uiState
      ensures uiState == old(uiState).(selectedCategory := category)
    {
      uiState := uiState.(selectedCategory := category);
    }

    /** Notes over 100 UTF-16 code units are ignored: the field keeps its previous text. */
    method OnNotesChanged(notes: string)
      modifies this`uiState
      ensures KotlinText.Utf16Length(notes) <= MAX_TYPED_NOTES_LENGTH ==> uiState == old(uiState).(notes := notes)
      ensures KotlinText.Utf16Length(notes) > MAX_TYPED_NOTES_LENGTH ==> uiState == old(uiState)
    {
      if KotlinText.Utf16Length(notes) <= MAX_TYPED_NOTES_LENGTH {
        uiState := uiState.(notes := notes);
      }
    }

    method OnReceiptImageSelected(imagePath: Option<string>)
      modifies this`uiState
      ensures uiState == old(uiState).(receiptImagePath := imagePath)
    {
      uiState := uiState.(receiptImagePath := imagePath);
    }

    /** The synchronous part of `addExpense`: the spinner comes on and an old error goes. */
    method BeginSubmission()
      modifies this`uiState
      ensures uiState == old(uiState).(isLoading := true, errorMessage := None)
    {
      uiState := uiState.(isLoading := true, errorMessage := None);
    }

    /**
     * `addExpense`. `parse` stands for `String.toDoubleOrNull` followed by
     * the conversion to cents; `fault` is what the store may throw on insert
     * and `readFault` what it may throw when today's total is reloaded.
     * The submitted values are the ones in the form when the call starts.
     */
    method AddExpense(parse: string -> Option<int>, now: int, zoneOffset: int,
                      fault: Option<Exception>, readFault: Option<Exception>)
      requires Valid()
      modifies this, Dao()
      ensures Valid()
      ensures parse(old(uiState).amount).None? ==>
        && uiState == old(uiState).(isLoading := false, errorMessage := Some(InvalidAmountMessage))
        && Dao().State() == old(Dao().State())
        && todayTotal == old(todayTotal)
      ensures parse(old(uiState).amount).Some? ==>
        var s := old(uiState);
        var (t', r) := AddOutcome(old(Dao().State()), s.title, parse(s.amount).value, s.selectedCategory,
                                  s.notes, s.receiptImagePath, now, fault);
        && Dao().State() == t'
        && uiState == AnsweredState(s, r)
        && todayTotal == if r.Success? && readFault.None? then StoredTodayTotal(now, zoneOffset) else old(todayTotal)
    {
      var submitted := uiState;
      BeginSubmission();
      var amount := parse(submitted.amount);
      if amount.None? {
        uiState := uiState.(isLoading := false, errorMessage := Some(InvalidAmountMessage));
        return;
      }
      var r := addExpenseUseCase.Invoke(submitted.title, amount.value, submitted.selectedCategory,
                                        submitted.notes, submitted.receiptImagePath, now, fault);
      match r {
        case Success(_) =>
          uiState := uiState.(isLoading := false, isExpenseAdded := true, successMessage := Some(AddedMessage));
          LoadTodayTotal(now, zoneOffset, readFault);
        case Failure(e) =>
          uiState := uiState.(isLoading := false, errorMessage := Some(e.message.GetOr(AddFailedMessage)));
      }
    }

    /** A fresh form that keeps the chosen category. */
    method ClearSuccessState()
      modifies this`uiState
      ensures uiState == InitialEntryUiState.(selectedCategory := old(uiState).selectedCategory)
    {
      uiState := InitialEntryUiState.(selectedCategory := uiState.selectedCategory);
    }

    method ClearError()
      modifies this`uiState
      ensures uiState == old(uiState).(errorMessage := None)
    {
      uiState := uiState.(errorMessage := None);
    }

    /** A read that fails is swallowed: the total shown stays what it was. */
    method LoadTodayTotal(now: int, zoneOffset: int, readFault: Option<Exception>)
      requires getTodayTotalUseCase.repository == addExpenseUseCase.repository
      modifies this`todayTotal
      ensures readFault.Some? ==> todayTotal == old(todayTotal)
      ensures readFault.None? ==> todayTotal == StoredTodayTotal(now, zoneOffset)
    {
      if readFault.None? {
        var total := getTodayTotalUseCase.Invoke(now, zoneOffset);
        todayTotal := total;
      }
    }
  }
}
