# Expense tracker core in Dafny

This project models the core of an Android expense tracker. The app records expenses, each with:

- a title, an amount and a category (Staff, Travel, Food or Utility);
- optional notes and an optional receipt image path;
- a date.

It keeps expenses in a Room/SQLite table. It shows today's running total on the entry screen and a per-day summary of the last seven days on the report screen.

The model covers these parts:

- **Text helpers** (`KotlinText`). Kotlin's `isBlank`, `trim`, `indexOf` and `length`, which counts UTF-16 code units.
- **Form validation** (`FormValidation`, `ValidationUtils`). `ExpenseFormValidator`, with its messages in the same order as the code. `ValidationUtils.sanitizeInput`, `isValidExpenseTitle` and `formatAmountForDisplay`.
- **Category converter** (`Converters`). The Room converter between a category and its stored name.
- **Navigation** (`Navigation`). Screen routes and `fromRoute`.
- **Queries** (`ExpenseQueries`). The SQL semantics of every DAO query:
  - `WHERE` filters and `ORDER BY date DESC`;
  - `SUM`, which is NULL when no row matches;
  - the `GROUP BY DATE(date/1000, 'unixepoch')` daily summary.
- **The table** (`Database`). `Database.Table` is a value: its rows and the AUTOINCREMENT counter.
  - `InsertRow`, `UpdateRow`, `DeleteRow` and `DeleteAllRows` are the Room operations on it, including the exceptions SQLite raises.
  - The class `Database.ExpenseDao` holds these as mutable fields. Its methods are proved to change them exactly as those functions say.
- **Repository** (`Repository`):
  - `ExpenseRepositoryImpl`, which delegates to the DAO;
  - the today window from `getTodayStartTime`/`getTodayEndTime`, computed through a `Calendar` object and its setters.
- **Use cases** (`UseCases`). `AddExpenseUseCase` (the guard, the trim and the insert) and `GetTodayTotalUseCase`.
- **Entry screen view model** (`EntryScreen`). `ExpenseEntryViewModel` as a class over `ExpenseEntryUiState`, with the form edits, the submission and the reload of today's total.
- **Report screen view model** (`ReportScreen`). `ExpenseReportViewModel` as a class over `ExpenseReportUiState`, with:
  - live loads of a date range;
  - demo mode, whose generator loop is kept as a `while` loop.

Conventions of the model:

- **Amounts** are whole cents (`int`). The source uses `Double` rupees.
- **Dates** are `int` milliseconds since the epoch.
- **Keys** are `Long` values, a subtype of `int` bounded to 64 bits.
- **Daily summary day.** A summary line's `day` is the day number since the epoch. For live loads it is the UTC day that SQLite's `DATE(date/1000, 'unixepoch')` names. `date/1000` truncates toward zero, like SQLite's integer division, and the day is then floored. For demo data it is the local day, as `Calendar.getInstance()` gives it.
- **Clock, zone and random draws** are parameters:
  - the current time is `now`;
  - the zone is a fixed offset, `zoneOffset`, in milliseconds;
  - the random source is `rand: nat -> int`, where the `k`-th draw is folded onto its range as `first + raw % (last - first + 1)`.
- **Exceptions.** A store operation that may throw takes `fault: Option<Exception>`. `Some(e)` means the operation throws `e` and changes nothing.
- **Coroutines.** A coroutine launched by a view model runs to completion inside the method that launches it.

On these points the model follows Room and SQLite:

- `@Update` and `@Delete` of a row whose key is not in the table are no-ops, as in Room. They do not raise an error.
- Inserting with key 0 takes the next AUTOINCREMENT value. When that value would exceed `Long.MAX_VALUE`, the insert fails with SQLite's "database or disk is full".
- Inserting with an explicit key that is already taken fails with "UNIQUE constraint failed: expenses.id".
- `DELETE FROM expenses` keeps the counter, so keys are never reused.
- The SQLite messages are abbreviated: Android appends a code, as in "UNIQUE constraint failed: expenses.id (code 1555 SQLITE_CONSTRAINT_PRIMARYKEY)", and the model keeps only the text before it.

## Model

| member | source | states |
|---|---|---|
| KotlinText.Trim | app/src/main/java/com/metapointer/expensetrackerapp/domain/usecase/AddExpenseUseCase.kt:27-30 | the result is the input with a blank prefix and a blank suffix cut off, so an unbroken slice of it; it is empty exactly when the input is blank, and otherwise starts and ends with a non-whitespace character |
| KotlinText.TrimStart | app/src/main/java/com/metapointer/expensetrackerapp/utils/ValidationUtils.kt:8 | the result is a suffix of the input, everything dropped is whitespace, and the result does not start with whitespace |
| KotlinText.TrimEnd | app/src/main/java/com/metapointer/expensetrackerapp/utils/ValidationUtils.kt:8 | the result is a prefix of the input, everything dropped is whitespace, and the result does not end with whitespace |
| KotlinText.IndexOf | app/src/main/java/com/metapointer/expensetrackerapp/ui/screens/entry/ExpenseFormValidator.kt:67 | -1 exactly when the character is absent; otherwise the position of its first occurrence |
| KotlinText.TrimNotBlank | app/src/main/java/com/metapointer/expensetrackerapp/domain/usecase/AddExpenseUseCase.kt:21-27 | trimming a title that is not blank leaves a title that is not blank |
| KotlinText.Utf16Length | app/src/main/java/com/metapointer/expensetrackerapp/ui/screens/entry/ExpenseFormValidator.kt:17 | `String.length` counts UTF-16 code units: one per character below U+10000 and two for each character above, so between the character count and twice it |
| KotlinText.Utf16LengthOfSupplementary | app/src/main/java/com/metapointer/expensetrackerapp/ui/screens/entry/ExpenseFormValidator.kt:53 | a string of characters above U+FFFF, such as emoji, has twice as many code units as characters |
| FormValidation.ValidateTitle | app/src/main/java/com/metapointer/expensetrackerapp/ui/screens/entry/ExpenseFormValidator.kt:14-23 | a title is valid iff it is not blank, has 3 to 50 UTF-16 code units and uses only letters, digits, whitespace and `-_.,()`; blank gives "Title is required", too short and too long their own messages, and a title of acceptable length with another character "Title contains invalid characters", tried in source order |
| FormValidation.TwoEmojiTitleHasInvalidCharacters | app/src/main/java/com/metapointer/expensetrackerapp/ui/screens/entry/ExpenseFormValidator.kt:17-20 | two emoji count as four code units, so they pass the length checks and fail the character class |
| FormValidation.ValidateAmount | app/src/main/java/com/metapointer/expensetrackerapp/ui/screens/entry/ExpenseFormValidator.kt:25-41 | a blank amount gives "Amount is required"; a non-blank amount not matching `^\d+(\.\d{1,2})?$` gives "Please enter a valid amount" |
| FormValidation.AmountValidIffInRange | app/src/main/java/com/metapointer/expensetrackerapp/ui/screens/entry/ExpenseFormValidator.kt:28-37 | a well-formed amount always parses; it is valid iff its value is between 0.01 and 999999.99; below and above give the two range messages |
| FormValidation.FormatValidNotBlank | app/src/main/java/com/metapointer/expensetrackerapp/ui/screens/entry/ExpenseFormValidator.kt:27-28 | every string that matches the amount pattern is non-blank |
| FormValidation.FormatValidParses | app/src/main/java/com/metapointer/expensetrackerapp/ui/screens/entry/ExpenseFormValidator.kt:61-73 | every string that matches the amount pattern parses and passes the decimal-places check |
| FormValidation.AmountFormatByFirstDot | app/src/main/java/com/metapointer/expensetrackerapp/ui/screens/entry/ExpenseFormValidator.kt:61-64 | the amount pattern holds iff the text is all digits, or has at least one digit, its first '.', and then one or two digits |
| FormValidation.DecimalPlacesBeforeLastThree | app/src/main/java/com/metapointer/expensetrackerapp/ui/screens/entry/ExpenseFormValidator.kt:66-73 | the decimal-places check passes iff no '.' comes before the last three characters |
| FormValidation.AmountMessages | app/src/main/java/com/metapointer/expensetrackerapp/ui/screens/entry/ExpenseFormValidator.kt:30-36 | "Invalid amount format" and "Amount can have at most 2 decimal places" are never produced: the format check already excludes them |
| FormValidation.RejectedAmountShapes | app/src/main/java/com/metapointer/expensetrackerapp/ui/screens/entry/ExpenseFormValidator.kt:61-64 | negative, exponent, grouped, bare-point and three-decimal amounts are rejected as invalid, and the empty amount as missing |
| FormValidation.ZeroTooSmall | app/src/main/java/com/metapointer/expensetrackerapp/ui/screens/entry/ExpenseFormValidator.kt:33 | "0" is below the minimum |
| FormValidation.OneCentValid | app/src/main/java/com/metapointer/expensetrackerapp/ui/screens/entry/ExpenseFormValidator.kt:11 | "0.01", the minimum, is accepted |
| FormValidation.LargestAmountValid | app/src/main/java/com/metapointer/expensetrackerapp/ui/screens/entry/ExpenseFormValidator.kt:12 | "999999.99", the maximum, is accepted |
| FormValidation.MillionTooLarge | app/src/main/java/com/metapointer/expensetrackerapp/ui/screens/entry/ExpenseFormValidator.kt:34 | "1000000" is above the maximum |
| FormValidation.ValidateCategory | app/src/main/java/com/metapointer/expensetrackerapp/ui/screens/entry/ExpenseFormValidator.kt:43-49 | valid iff a category is chosen, with "Please select a category" otherwise |
| FormValidation.ValidateNotes | app/src/main/java/com/metapointer/expensetrackerapp/ui/screens/entry/ExpenseFormValidator.kt:51-59 | valid iff at most 200 UTF-16 code units and none of `<>"'&`; over-long notes give "Notes must not exceed 200 characters" whatever they contain, and otherwise markup gives "Notes contain invalid characters" |
| FormValidation.EmojiNotesTooLong | app/src/main/java/com/metapointer/expensetrackerapp/ui/screens/entry/ExpenseFormValidator.kt:53-54 | 101 emoji, 202 code units, are rejected as too long |
| FormValidation.ValidateForm | app/src/main/java/com/metapointer/expensetrackerapp/ui/screens/entry/ExpenseFormValidator.kt:75-98 | each field's result is its own validator's, and the form is valid iff all four are |
| FormValidation.FormValidIff | app/src/main/java/com/metapointer/expensetrackerapp/ui/screens/entry/ExpenseFormValidator.kt:86-89 | the form is valid iff the title, amount, category and notes each meet their stated conditions, with lengths in UTF-16 code units |
| ValidationUtils.CollapseWhitespace | app/src/main/java/com/metapointer/expensetrackerapp/utils/ValidationUtils.kt:9 | every non-whitespace character is kept, in order; a leading whitespace run becomes one space; the result never has two whitespace characters in a row, and its only whitespace is plain spaces |
| ValidationUtils.CollapseBlankRun | app/src/main/java/com/metapointer/expensetrackerapp/utils/ValidationUtils.kt:9 | a non-empty run of whitespace on its own becomes exactly one space |
| ValidationUtils.CollapseSplits | app/src/main/java/com/metapointer/expensetrackerapp/utils/ValidationUtils.kt:9 | text cut where the two sides are not both whitespace collapses as its two parts do, so the replacement works run by run |
| ValidationUtils.CollapseRunBetween | app/src/main/java/com/metapointer/expensetrackerapp/utils/ValidationUtils.kt:9 | a maximal whitespace run between two other characters becomes exactly one space, and the text on each side is collapsed on its own |
| ValidationUtils.CollapseFixpoint | app/src/main/java/com/metapointer/expensetrackerapp/utils/ValidationUtils.kt:9 | text that already has single spaces only is left unchanged |
| ValidationUtils.Take | app/src/main/java/com/metapointer/expensetrackerapp/utils/ValidationUtils.kt:10 | the longest prefix of at most n UTF-16 code units: the whole input when it fits, and otherwise cut just before the character that would pass n |
| ValidationUtils.SanitizeInput | app/src/main/java/com/metapointer/expensetrackerapp/utils/ValidationUtils.kt:7-11 | sanitised input has at most 1000 UTF-16 code units, is a prefix of the trimmed, collapsed input, does not start with whitespace, has no run of whitespace and no whitespace but spaces |
| ValidationUtils.SanitizeIsPrefix | app/src/main/java/com/metapointer/expensetrackerapp/utils/ValidationUtils.kt:7-11 | sanitised input is a prefix of the trimmed, collapsed input, and equals it when that is at most 1000 code units long |
| ValidationUtils.SanitizeIdempotent | app/src/main/java/com/metapointer/expensetrackerapp/utils/ValidationUtils.kt:7-11 | sanitising twice is the same as sanitising once (when the text was not cut at 1000) |
| ValidationUtils.IsValidExpenseTitle | app/src/main/java/com/metapointer/expensetrackerapp/utils/ValidationUtils.kt:13-18 | a title is accepted iff it is not blank, has 3 to 50 UTF-16 code units, and holds a markup character only if it also holds a line break |
| ValidationUtils.MarkupPatternMeaning | app/src/main/java/com/metapointer/expensetrackerapp/utils/ValidationUtils.kt:17 | `.*[<>"'&].*` matches a whole title iff the title has a markup character and no line terminator |
| ValidationUtils.ValidTitleBounds | app/src/main/java/com/metapointer/expensetrackerapp/utils/ValidationUtils.kt:13-16 | an accepted title is not blank and has 3 to 50 code units |
| ValidationUtils.SingleLineMarkupRejected | app/src/main/java/com/metapointer/expensetrackerapp/utils/ValidationUtils.kt:17 | a title on one line that contains any of `<>"'&` is rejected |
| ValidationUtils.MultiLineMarkupAccepted | app/src/main/java/com/metapointer/expensetrackerapp/utils/ValidationUtils.kt:17 | the title "<b>" + line feed + "x" contains markup and is still accepted (see Findings) |
| ValidationUtils.CorrectedRejectsMarkup | app/src/main/java/com/metapointer/expensetrackerapp/utils/ValidationUtils.kt:13-18 | the corrected check never accepts a title containing `<>"'&`, and accepts only titles the original check accepts |
| ValidationUtils.FormTitleIsValidExpenseTitle | app/src/main/java/com/metapointer/expensetrackerapp/ui/screens/entry/ExpenseFormValidator.kt:14-23 | a title that passes the form validator also passes both the original and the corrected title check |
| ValidationUtils.FormatAmountForDisplay | app/src/main/java/com/metapointer/expensetrackerapp/utils/ValidationUtils.kt:20-22 | `"%.2f"` of a whole number of cents: digits, then '.', then exactly two digits |
| ValidationUtils.DisplayedAmountReadsBack | app/src/main/java/com/metapointer/expensetrackerapp/ui/screens/entry/ExpenseFormValidator.kt:30 | a displayed amount passes the amount pattern, and `toDoubleOrNull` (`DecimalCents`) reads it back as the same number of cents |
| Converters.FromExpenseCategory | app/src/main/java/com/metapointer/expensetrackerapp/data/database/Converters.kt:8-10 | the stored name is one of STAFF, TRAVEL, FOOD, UTILITY, never the display name |
| Converters.ToExpenseCategory | app/src/main/java/com/metapointer/expensetrackerapp/data/database/Converters.kt:13-15 | succeeds iff the name is one of the four constants; otherwise fails with "No enum constant ..." for that name |
| Converters.CategoryRoundTrip | app/src/main/java/com/metapointer/expensetrackerapp/data/database/Converters.kt:7-15 | reading back a stored category gives the category |
| Converters.NameRoundTrip | app/src/main/java/com/metapointer/expensetrackerapp/data/database/Converters.kt:13-15 | a name that reads back is stored again unchanged |
| Converters.DisplayNamesRejected | app/src/main/java/com/metapointer/expensetrackerapp/data/database/Converters.kt:13-15 | display names such as "Food" are not accepted as stored names |
| Navigation.FromRoute | app/src/main/java/com/metapointer/expensetrackerapp/ui/navigation/Screen.kt:9-16 | each of the three routes gives its screen; null or any other route gives the expense list |
| Navigation.RouteRoundTrip | app/src/main/java/com/metapointer/expensetrackerapp/ui/navigation/Screen.kt:9-16 | `fromRoute(screen.route)` is the screen |
| Navigation.RouteInjective | app/src/main/java/com/metapointer/expensetrackerapp/ui/navigation/Screen.kt:3-6 | no two screens share a route |
| ExpenseQueries.Filter | app/src/main/java/com/metapointer/expensetrackerapp/data/database/ExpenseDao.kt:18 | each row occurs in the result as often as in the table if it matches the `WHERE` clause, and not at all otherwise |
| ExpenseQueries.SortByDateDesc | app/src/main/java/com/metapointer/expensetrackerapp/data/database/ExpenseDao.kt:15 | newest first, a permutation of the input, with the same amount total |
| ExpenseQueries.Select | app/src/main/java/com/metapointer/expensetrackerapp/data/database/ExpenseDao.kt:15-28 | the result is newest first, holds each row as often as the table does if it matches and never otherwise, and a row is listed iff it is stored and matches |
| ExpenseQueries.SumWhere | app/src/main/java/com/metapointer/expensetrackerapp/data/database/ExpenseDao.kt:21-22 | NULL iff no row matches; otherwise the sum of the amounts of the rows the matching query lists |
| ExpenseQueries.SumWhereAppend | app/src/main/java/com/metapointer/expensetrackerapp/data/database/ExpenseDao.kt:21-22 | one more row changes the sum, with NULL read as 0, by exactly its amount when it matches the `WHERE` clause, and not at all otherwise |
| ExpenseQueries.AddToSummary | app/src/main/java/com/metapointer/expensetrackerapp/data/database/ExpenseDao.kt:43-53 | folding one row into a day-descending summary keeps it day-descending with positive counts and adds 1 and the amount to that row's UTC day only |
| ExpenseQueries.Summarize | app/src/main/java/com/metapointer/expensetrackerapp/data/database/ExpenseDao.kt:43-53 | the summary is day-descending; per day its count and total are the number and sum of rows on that UTC day; overall counts and totals add up to the rows |
| ExpenseQueries.SummarizeLines | app/src/main/java/com/metapointer/expensetrackerapp/data/database/ExpenseDao.kt:43-53 | every summary line holds the count and sum of its own day, and a day has a line iff some row falls on it |
| ExpenseQueries.UtcDay | app/src/main/java/com/metapointer/expensetrackerapp/data/database/ExpenseDao.kt:45 | the day number is the floor of the truncated second count divided by 86400: the UTC day that contains that second |
| Database.InsertRow | app/src/main/java/com/metapointer/expensetrackerapp/data/database/ExpenseDao.kt:30-31 | key 0 takes the next counter value and an explicit key must be unused; on success exactly the row with its key is appended and the key returned; any failure leaves the table unchanged; keys stay unique and below the counter |
| Database.UpdateRow | app/src/main/java/com/metapointer/expensetrackerapp/data/database/ExpenseDao.kt:33-34 | the row with the same key is replaced in place; no other row and not the counter change; keys stay unique |
| Database.DeleteRow | app/src/main/java/com/metapointer/expensetrackerapp/data/database/ExpenseDao.kt:36-37 | exactly the rows with that key disappear; the counter and key uniqueness are kept |
| Database.DeleteAllRows | app/src/main/java/com/metapointer/expensetrackerapp/data/database/ExpenseDao.kt:39-40 | the table becomes empty and the counter is kept |
| Database.ExpenseDao.constructor | app/src/main/java/com/metapointer/expensetrackerapp/data/database/ExpenseDatabase.kt:8-15 | a new database has a valid, empty table whose AUTOINCREMENT counter starts at 1 |
| Database.GeneratedKeyIsFresh | app/src/main/java/com/metapointer/expensetrackerapp/data/model/Expense.kt:8-9 | a generated key is above every key in the table and below the new counter |
| Database.DeletedRowLeavesQueries | app/src/main/java/com/metapointer/expensetrackerapp/data/database/ExpenseDao.kt:36-37 | after a delete no query lists a row with that key |
| Database.InsertThenRead | app/src/main/java/com/metapointer/expensetrackerapp/data/database/ExpenseDao.kt:30-31 | an inserted row, with its assigned key, is listed by `getAllExpenses` |
| Database.NewestInsertFirst | app/src/main/java/com/metapointer/expensetrackerapp/data/database/ExpenseDao.kt:15-16 | an inserted row dated after every stored row is the first row `getAllExpenses` lists |
| Database.ExpenseDao.AllExpenses | app/src/main/java/com/metapointer/expensetrackerapp/data/database/ExpenseDao.kt:15-16 | all rows, newest first, as a permutation of the table |
| Database.ExpenseDao.TodayExpenses | app/src/main/java/com/metapointer/expensetrackerapp/data/database/ExpenseDao.kt:18-19 | exactly the rows with `start <= date < end`, newest first |
| Database.ExpenseDao.TodayTotal | app/src/main/java/com/metapointer/expensetrackerapp/data/database/ExpenseDao.kt:21-22 | NULL iff no row lies in `[start, end)`, else the sum of those rows' amounts |
| Database.ExpenseDao.ExpensesByCategory | app/src/main/java/com/metapointer/expensetrackerapp/data/database/ExpenseDao.kt:24-25 | exactly the rows of that category, newest first |
| Database.ExpenseDao.ExpensesByDateRange | app/src/main/java/com/metapointer/expensetrackerapp/data/database/ExpenseDao.kt:27-28 | exactly the rows with `start <= date <= end`, newest first |
| Database.ExpenseDao.DailyExpenseSummary | app/src/main/java/com/metapointer/expensetrackerapp/data/database/ExpenseDao.kt:43-53 | one line per UTC day with rows in `[start, end]`, newest day first, each with that day's count and sum; the counts add up to the rows in range and the totals to their amounts |
| Database.ExpenseDao.InsertExpense | app/src/main/java/com/metapointer/expensetrackerapp/data/database/ExpenseDao.kt:30-31 | the table fields and the result are what `InsertRow` gives for the old table |
| Database.ExpenseDao.UpdateExpense | app/src/main/java/com/metapointer/expensetrackerapp/data/database/ExpenseDao.kt:33-34 | the table fields and the thrown exception are what `UpdateRow` gives |
| Database.ExpenseDao.DeleteExpense | app/src/main/java/com/metapointer/expensetrackerapp/data/database/ExpenseDao.kt:36-37 | the table fields and the thrown exception are what `DeleteRow` gives |
| Database.ExpenseDao.DeleteAllExpenses | app/src/main/java/com/metapointer/expensetrackerapp/data/database/ExpenseDao.kt:39-40 | the table fields and the thrown exception are what `DeleteAllRows` gives |
| Repository.Calendar.constructor | app/src/main/java/com/metapointer/expensetrackerapp/data/repository/ExpenseRepositoryImpl.kt:59 | `Calendar.getInstance()` holds the local day of `now`, and its time in milliseconds is `now` |
| Repository.Calendar.SetHourOfDay | app/src/main/java/com/metapointer/expensetrackerapp/data/repository/ExpenseRepositoryImpl.kt:60 | setting the hour moves the time by the change in hours and touches no other field |
| Repository.Calendar.SetMinute | app/src/main/java/com/metapointer/expensetrackerapp/data/repository/ExpenseRepositoryImpl.kt:61 | setting the minute moves the time by the change in minutes and touches no other field |
| Repository.Calendar.SetSecond | app/src/main/java/com/metapointer/expensetrackerapp/data/repository/ExpenseRepositoryImpl.kt:62 | setting the second moves the time by the change in seconds and touches no other field |
| Repository.Calendar.SetMillisecond | app/src/main/java/com/metapointer/expensetrackerapp/data/repository/ExpenseRepositoryImpl.kt:63 | setting the millisecond moves the time by that change and touches no other field |
| Repository.TodayStartTime | app/src/main/java/com/metapointer/expensetrackerapp/data/repository/ExpenseRepositoryImpl.kt:58-65 | setting the local clock fields to 00:00:00.000 gives the first millisecond of the local day of `now` |
| Repository.TodayEndTime | app/src/main/java/com/metapointer/expensetrackerapp/data/repository/ExpenseRepositoryImpl.kt:67-74 | setting them to 23:59:59.999 gives the last millisecond of that day |
| Repository.TodayWindow | app/src/main/java/com/metapointer/expensetrackerapp/data/repository/ExpenseRepositoryImpl.kt:58-74 | the window starts at a local midnight, contains `now`, and both ends lie on the local day of `now` |
| Repository.LastMillisecondExcluded | app/src/main/java/com/metapointer/expensetrackerapp/data/database/ExpenseDao.kt:18-22 | an expense stamped 23:59:59.999 local time is neither listed nor summed as today's, because the queries exclude the end |
| Repository.TodayTotalIsListSum | app/src/main/java/com/metapointer/expensetrackerapp/data/repository/ExpenseRepositoryImpl.kt:28-32 | today's total is the sum of the amounts of today's listed expenses, and 0 when there are none |
| Repository.ExpenseRepositoryImpl.AllExpenses | app/src/main/java/com/metapointer/expensetrackerapp/data/repository/ExpenseRepositoryImpl.kt:18-20 | the DAO's list, newest first and a permutation of the table |
| Repository.ExpenseRepositoryImpl.TodayExpenses | app/src/main/java/com/metapointer/expensetrackerapp/data/repository/ExpenseRepositoryImpl.kt:22-26 | the DAO's rows inside the local-day window of `now` |
| Repository.ExpenseRepositoryImpl.TodayTotal | app/src/main/java/com/metapointer/expensetrackerapp/data/repository/ExpenseRepositoryImpl.kt:28-32 | the DAO's sum for the local-day window, with NULL read as 0; equals the sum over today's expenses |
| Repository.ExpenseRepositoryImpl.ExpensesByCategory | app/src/main/java/com/metapointer/expensetrackerapp/data/repository/ExpenseRepositoryImpl.kt:34-36 | exactly the stored rows of that category |
| Repository.ExpenseRepositoryImpl.ExpensesByDateRange | app/src/main/java/com/metapointer/expensetrackerapp/data/repository/ExpenseRepositoryImpl.kt:38-40 | exactly the stored rows dated within the closed range |
| Repository.ExpenseRepositoryImpl.DailyExpenseSummary | app/src/main/java/com/metapointer/expensetrackerapp/data/repository/ExpenseRepositoryImpl.kt:54-56 | the DAO's summary: day-descending, with totals adding up to the amounts in range |
| Repository.ExpenseRepositoryImpl.InsertExpense | app/src/main/java/com/metapointer/expensetrackerapp/data/repository/ExpenseRepositoryImpl.kt:42-44 | the store changes, and the key is returned, as `InsertRow` says |
| Repository.ExpenseRepositoryImpl.UpdateExpense | app/src/main/java/com/metapointer/expensetrackerapp/data/repository/ExpenseRepositoryImpl.kt:46-48 | the store changes as `UpdateRow` says |
| Repository.ExpenseRepositoryImpl.DeleteExpense | app/src/main/java/com/metapointer/expensetrackerapp/data/repository/ExpenseRepositoryImpl.kt:50-52 | the store changes as `DeleteRow` says |
| UseCases.NewExpense | app/src/main/java/com/metapointer/expensetrackerapp/domain/usecase/AddExpenseUseCase.kt:26-32 | the new row has key 0 (to be generated), is dated `now` for both `date` and `createdAt`, keeps amount, category and receipt path, and has a title that is empty iff the input is blank and otherwise has no surrounding whitespace |
| UseCases.AddOutcome | app/src/main/java/com/metapointer/expensetrackerapp/domain/usecase/AddExpenseUseCase.kt:20-38 | the table stays valid; a failure leaves it unchanged; a success appends exactly one row after the old ones |
| UseCases.AddExpenseUseCase.Invoke | app/src/main/java/com/metapointer/expensetrackerapp/domain/usecase/AddExpenseUseCase.kt:13-39 | the store and the result are what `AddOutcome` gives: the guard, then one insert of the trimmed expense, with any store exception returned as the failure |
| UseCases.GuardFailures | app/src/main/java/com/metapointer/expensetrackerapp/domain/usecase/AddExpenseUseCase.kt:21-24 | a blank title fails with "Title cannot be empty", else a non-positive amount with "Amount must be greater than 0", and every failure leaves the store unchanged |
| UseCases.SuccessAddsOneRow | app/src/main/java/com/metapointer/expensetrackerapp/domain/usecase/AddExpenseUseCase.kt:25-34 | a success adds exactly one row, under a fresh generated key that is also the result, holding the trimmed title and notes and a non-blank title |
| UseCases.SuccessWhenGuardPasses | app/src/main/java/com/metapointer/expensetrackerapp/domain/usecase/AddExpenseUseCase.kt:25-34 | with a healthy store and a free key, a title that is not blank and a positive amount always lead to success |
| UseCases.StoreFaultPassedOn | app/src/main/java/com/metapointer/expensetrackerapp/domain/usecase/AddExpenseUseCase.kt:36-38 | an exception thrown by the store comes back unchanged as the failure |
| UseCases.AddRaisesTodayTotal | app/src/main/java/com/metapointer/expensetrackerapp/domain/usecase/AddExpenseUseCase.kt:26-34 | after a successful add, today's total, as the repository sums it, grows by exactly the new amount; if the call is made at 23:59:59.999 local time the new row is outside the half-open window and the total stays as it was |
| UseCases.GetTodayTotalUseCase.Invoke | app/src/main/java/com/metapointer/expensetrackerapp/domain/usecase/GetTodayTotalUseCase.kt:11-13 | the sum of the amounts of today's expenses |
| EntryScreen.AnsweredState | app/src/main/java/com/metapointer/expensetrackerapp/ui/screens/entry/ExpenseEntryViewModel.kt:75-94 | after an answer the spinner is off and the form fields are kept; success sets the added flag and message, failure shows the exception's message or "Failed to add expense" |
| EntryScreen.BlankTitleShowsMessage | app/src/main/java/com/metapointer/expensetrackerapp/ui/screens/entry/ExpenseEntryViewModel.kt:86-93 | submitting a blank title stores nothing and shows "Title cannot be empty" |
| EntryScreen.ExpenseEntryViewModel.constructor | app/src/main/java/com/metapointer/expensetrackerapp/ui/screens/entry/ExpenseEntryViewModel.kt:22-30 | the form starts empty with Food selected, and today's total is loaded |
| EntryScreen.ExpenseEntryViewModel.OnTitleChanged | app/src/main/java/com/metapointer/expensetrackerapp/ui/screens/entry/ExpenseEntryViewModel.kt:32-34 | only the title changes |
| EntryScreen.ExpenseEntryViewModel.OnAmountChanged | app/src/main/java/com/metapointer/expensetrackerapp/ui/screens/entry/ExpenseEntryViewModel.kt:36-38 | only the amount text changes |
| EntryScreen.ExpenseEntryViewModel.OnCategorySelected | app/src/main/java/com/metapointer/expensetrackerapp/ui/screens/entry/ExpenseEntryViewModel.kt:40-42 | only the category changes |
| EntryScreen.ExpenseEntryViewModel.OnNotesChanged | app/src/main/java/com/metapointer/expensetrackerapp/ui/screens/entry/ExpenseEntryViewModel.kt:44-48 | notes of at most 100 UTF-16 code units replace the old ones; longer notes leave the state unchanged |
| EntryScreen.ExpenseEntryViewModel.OnReceiptImageSelected | app/src/main/java/com/metapointer/expensetrackerapp/ui/screens/entry/ExpenseEntryViewModel.kt:50-52 | only the receipt path changes |
| EntryScreen.ExpenseEntryViewModel.BeginSubmission | app/src/main/java/com/metapointer/expensetrackerapp/ui/screens/entry/ExpenseEntryViewModel.kt:57 | the spinner comes on and any old error is cleared |
| EntryScreen.ExpenseEntryViewModel.AddExpense | app/src/main/java/com/metapointer/expensetrackerapp/ui/screens/entry/ExpenseEntryViewModel.kt:54-104 | an unparsable amount shows "Please enter a valid amount" and stores nothing; otherwise the store changes as the use case says, the form shows its answer, and today's total is reloaded after a success |
| EntryScreen.ExpenseEntryViewModel.ClearSuccessState | app/src/main/java/com/metapointer/expensetrackerapp/ui/screens/entry/ExpenseEntryViewModel.kt:106-110 | a fresh form that keeps the selected category |
| EntryScreen.ExpenseEntryViewModel.ClearError | app/src/main/java/com/metapointer/expensetrackerapp/ui/screens/entry/ExpenseEntryViewModel.kt:112-114 | only the error message is cleared |
| EntryScreen.ExpenseEntryViewModel.LoadTodayTotal | app/src/main/java/com/metapointer/expensetrackerapp/ui/screens/entry/ExpenseEntryViewModel.kt:116-125 | the total becomes today's stored sum, or stays as it was when the read throws |
| ReportScreen.RandomIn | app/src/main/java/com/metapointer/expensetrackerapp/ui/screens/report/ExpenseReportViewModel.kt:65-66 | a draw folded onto `first..last` lies in that range |
| ReportScreen.DemoData | app/src/main/java/com/metapointer/expensetrackerapp/ui/screens/report/ExpenseReportViewModel.kt:55-77 | seven lines for the consecutive days ending today, oldest first, each 100 to 800 rupees over 1 to 5 expenses |
| ReportScreen.GenerateDemoData | app/src/main/java/com/metapointer/expensetrackerapp/ui/screens/report/ExpenseReportViewModel.kt:55-78 | the loop over `6 downTo 0` builds exactly the demo week `DemoData` describes |
| ReportScreen.DemoWeekShape | app/src/main/java/com/metapointer/expensetrackerapp/ui/screens/report/ExpenseReportViewModel.kt:59-75 | the demo week is seven consecutive days ending today, oldest first, each 100 to 800 rupees over 1 to 5 expenses, totalling 700 to 5600 rupees |
| ReportScreen.ExpenseReportViewModel.constructor | app/src/main/java/com/metapointer/expensetrackerapp/ui/screens/report/ExpenseReportViewModel.kt:23-28 | the report starts in live mode with the last week loaded, or with the load's error message |
| ReportScreen.ExpenseReportViewModel.ToggleDemoMode | app/src/main/java/com/metapointer/expensetrackerapp/ui/screens/report/ExpenseReportViewModel.kt:30-39 | turning demo mode on shows the demo week and its total; turning it off reloads the live last week |
| ReportScreen.ExpenseReportViewModel.LoadDemoData | app/src/main/java/com/metapointer/expensetrackerapp/ui/screens/report/ExpenseReportViewModel.kt:41-53 | the summaries become the demo week, the total their sum, and demo mode is on |
| ReportScreen.ExpenseReportViewModel.ReportLoaded | app/src/main/java/com/metapointer/expensetrackerapp/ui/screens/report/ExpenseReportViewModel.kt:117-139 | a live load turns the spinner off and keeps the mode; on success the summaries are day-descending, their total is the sum of the amounts dated in the range, and the old error message stays; on failure the figures stay and the message is "Failed to load report: " with the exception's message |
| ReportScreen.ExpenseReportViewModel.LoadLastWeekReport | app/src/main/java/com/metapointer/expensetrackerapp/ui/screens/report/ExpenseReportViewModel.kt:80-112 | in demo mode nothing changes; otherwise the seven days up to `now` are loaded |
| ReportScreen.ExpenseReportViewModel.LoadCustomDateReport | app/src/main/java/com/metapointer/expensetrackerapp/ui/screens/report/ExpenseReportViewModel.kt:114-140 | in demo mode nothing changes; otherwise the given range is loaded |
| ReportScreen.ExpenseReportViewModel.LoadRange | app/src/main/java/com/metapointer/expensetrackerapp/ui/screens/report/ExpenseReportViewModel.kt:117-139 | the summaries and their total replace the old ones, or "Failed to load report: " and the exception's message is shown with the old figures kept |
| ReportScreen.ExpenseReportViewModel.ClearError | app/src/main/java/com/metapointer/expensetrackerapp/ui/screens/report/ExpenseReportViewModel.kt:142-144 | only the error message is cleared |

## Left out

- **Floating point.** Amounts are exact integer cents. The form validator compares the parsed `Double` with the `Double` constants 0.01 and 999999.99. For amounts with at most two decimals, that comparison gives the same answer as comparing cents.
- **Converting amounts to cents for submission.** `EntryScreen.ExpenseEntryViewModel.AddExpense` takes `parse`, which stands for `toDoubleOrNull` followed by the conversion to cents. The model does not capture a positive amount below one cent, which the source would accept.
- **Unicode whitespace.** Kotlin's `isBlank` and `trim` treat all Unicode whitespace as whitespace. The model uses the ASCII set of the regex `\s`: space, tab, line feed, vertical tab, form feed and carriage return.
- **Clock, time zone rules and randomness.** These are parameters. A zone is a fixed offset with no daylight-saving changes, so a day always has 24 hours.
- **Calendar arithmetic.** `calendar.add(DAY_OF_YEAR, -7)` is modelled as subtracting seven days of milliseconds.
- **Reactive delivery.** `Flow` queries are modelled as snapshots of the table when they are called; re-emission on change is not modelled. `StateFlow` updates are modelled as field assignments.
- **Concurrency.** The interleaving of launched coroutines is not modelled: each coroutine runs to completion at once.
- **Order of ties.** `ORDER BY date DESC` leaves the order of rows with equal dates to SQLite. The model fixes it, so only the newest-first order and the multiset of rows are stated.
- **Date labels.** The summary's `yyyy-MM-dd` string is modelled as its day number. Grouping by day number agrees with grouping by the string for the years 0000 to 9999.
- **Daily summary order.** Ordering lines by that string is modelled as ordering by day number. Within those years the two orders agree.
- **Overflow.** SQLite's 64-bit overflow of `SUM` and of `date/1000` arithmetic is not modelled.
- **`ValidationUtils.parseAmount`.** It is floating-point parsing, which the model does not cover.
- ValidationUtils.FormatAmountForDisplay: takes a non-negative whole number of cents. Negative amounts, amounts that are not whole cents and the locale's decimal separator (`String.format` uses the default locale, so some locales print ',') are not modelled.
- ValidationUtils.Take: when the 1000th code unit is the first half of a character above U+FFFF, Kotlin's `take` keeps that lone high surrogate. A Dafny `char` cannot hold half a character, so the model stops before the whole character, one code unit short.
- **One clock reading for several.** `now` stands for every `System.currentTimeMillis()` call in one operation:
  - `Expense`'s `date` and `createdAt` defaults are two separate calls (`data/model/Expense.kt:15-16`), and `UseCases.NewExpense` gives both the same `now`;
  - `generateDemoData` reads the clock again on each of its seven iterations (`ui/screens/report/ExpenseReportViewModel.kt:61`), while `ReportScreen.DemoData` and `ReportScreen.GenerateDemoData` use one `today`, so a run across midnight is not modelled.
- **`EntryScreen.ExpenseEntryViewModel.AddExpense`'s outer catch.** The fallback "An unexpected error occurred" is not modelled. In the model neither the parse nor the use case throws: the use case turns every store exception into a failure.
- **Other parts of the app.** The list screen's view model, the Compose screens and navigation graph, dependency injection and `FormatAmount` are not part of this model.

## Findings

| source | as written | input that shows it | evidently intended | confidence | as-written member | corrected member |
|---|---|---|---|---|---|---|
| app/src/main/java/com/metapointer/expensetrackerapp/utils/ValidationUtils.kt:17 | `!title.matches(Regex(".*[<>\"'&].*"))`. `.` does not match line terminators, so a title with a line break never matches the pattern and its markup characters pass | "<b>" + line feed + "x" (5 characters, not blank) is accepted | reject every title containing any of `<>"'&`, as `validateNotes` does with `contains` | not executed; high (the JVM regex `.` excludes line terminators unless DOTALL is set) | ValidationUtils.MultiLineMarkupAccepted | ValidationUtils.CorrectedRejectsMarkup |
