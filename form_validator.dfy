/**
 * `ExpenseFormValidator`: the field rules of the entry form, each giving a
 * `ValidationResult` whose message is the first rule that fails, and
 * `validateForm`, which runs all four.
 */
module FormValidation {
  import opened Wrappers
  import opened KotlinText
  import opened DataModel

  const MAX_TITLE_LENGTH: int := 50
  const MAX_NOTES_LENGTH: int := 200
  /** `MIN_AMOUNT = 0.01` and `MAX_AMOUNT = 999999.99`, in cents. */
  const MIN_AMOUNT_CENTS: int := 1
  const MAX_AMOUNT_CENTS: int := 99_999_999

  /** `data class ValidationResult(val isValid: Boolean, val errorMessage: String? = null)`. */
  datatype ValidationResult = ValidationResult(isValid: bool, errorMessage: Option<string>)

  const Valid: ValidationResult := ValidationResult(true, None)

  function Invalid(message: string): ValidationResult {
    ValidationResult(false, Some(message))
  }

  /** A result carries a message exactly when it is not valid. */
  predicate WellFormed(r: ValidationResult) {
    r.isValid <==> r.errorMessage.None?
  }

  /** The aggregate of the four field results. */
  datatype FormValidationState = FormValidationState(
    titleValidation: ValidationResult,
    amountValidation: ValidationResult,
    categoryValidation: ValidationResult,
    notesValidation: ValidationResult,
    isFormValid: bool)

  // ---------------------------------------------------------------- title

  /** The character class `[a-zA-Z0-9\s\-_.,()]`. */
  predicate IsTitleChar(c: char) {
    ('a' <= c <= 'z') || ('A' <= c <= 'Z') || IsDigit(c) || IsWhitespace(c)
    || c == '-' || c == '_' || c == '.' || c == ',' || c == '(' || c == ')'
  }

  /** `title.matches(Regex("^[a-zA-Z0-9\\s\\-_.,()]+$"))`. */
  predicate TitleCharsMatch(title: string) {
    |title| >= 1 && forall i :: 0 <= i < |title| ==> IsTitleChar(title[i])
  }

  /** `validateTitle`; `title.length` counts UTF-16 code units. */
  function ValidateTitle(title: string): (r: ValidationResult)
    ensures WellFormed(r)
    ensures r.isValid <==> !IsBlank(title) && 3 <= Utf16Length(title) <= MAX_TITLE_LENGTH && TitleCharsMatch(title)
    ensures IsBlank(title) ==> r == Invalid("Title is required")
    ensures !IsBlank(title) && Utf16Length(title) < 3 ==> r == Invalid("Title must be at least 3 characters")
    ensures !IsBlank(title) && Utf16Length(title) > MAX_TITLE_LENGTH ==> r == Invalid("Title must not exceed 50 characters")
    ensures !IsBlank(title) && 3 <= Utf16Length(title) <= MAX_TITLE_LENGTH && !TitleCharsMatch(title) ==>
      r == Invalid("Title contains invalid characters")
  {
    var length := Utf16Length(title);
    if IsBlank(title) then Invalid("Title is required")
    else if length < 3 then Invalid("Title must be at least 3 characters")
    else if length > MAX_TITLE_LENGTH then Invalid("Title must not exceed 50 characters")
    else if !TitleCharsMatch(title) then Invalid("Title contains invalid characters")
    else Valid
  }

  /** Two emoji make four code units: long enough, but outside the character class. */
  lemma TwoEmojiTitleHasInvalidCharacters()
    ensures ValidateTitle("\U{1F600}\U{1F600}") == Invalid("Title contains invalid characters")
  {
    var t := "\U{1F600}\U{1F600}";
    Utf16LengthOfSupplementary(t);
    assert !IsTitleChar(t[0]);
  }

  // ---------------------------------------------------------------- amount

  /**
   * `isValidAmountFormat`: the whole string matches `^\d+(\.\d{1,2})?$`,
   * that is one or more digits, optionally followed by '.' and one or two digits.
   */
  predicate IsValidAmountFormat(s: string) {
    || (|s| >= 1 && AllDigits(s))
    || (exists k :: 1 <= k < |s| - 1 && s[k] == '.' && AllDigits(s[..k]) && AllDigits(s[k + 1..]) && |s| - k - 1 <= 2)
  }

  /** `isValidDecimalPlaces`: at most two characters after the first '.'. */
  predicate IsValidDecimalPlaces(s: string) {
    var decimalIndex := IndexOf(s, '.');
    if decimalIndex == -1 then true else |s| - decimalIndex - 1 <= 2
  }

  function DigitValue(c: char): int
    requires IsDigit(c)
  {
    c as int - '0' as int
  }

  /** The value of a string of decimal digits ("" is 0). */
  function DigitsValue(s: string): (n: nat)
    requires AllDigits(s)
  {
    if s == [] then 0 else DigitsValue(s[..|s| - 1]) * 10 + DigitValue(s[|s| - 1])
  }

  /** Cents of a fraction part of at most two digits: "5" is 50, "05" is 5. */
  function FractionCents(f: string): nat
    requires AllDigits(f) && |f| <= 2
  {
    if |f| == 0 then 0
    else if |f| == 1 then DigitValue(f[0]) * 10
    else DigitValue(f[0]) * 10 + DigitValue(f[1])
  }

  /**
   * `amountString.toDoubleOrNull()`, in cents, on the strings where the
   * decimal value fits cents exactly: an unsigned plain decimal with at most
   * two fractional digits and at least one digit. Every other string gives None.
   */
  function DecimalCents(s: string): Option<nat> {
    var i := IndexOf(s, '.');
    if i == -1 then
      if |s| >= 1 && AllDigits(s) then Some(DigitsValue(s) * 100) else None
    else
      var whole, fraction := s[..i], s[i + 1..];
      if AllDigits(whole) && AllDigits(fraction) && |fraction| <= 2 && |whole| + |fraction| >= 1
      then Some(DigitsValue(whole) * 100 + FractionCents(fraction))
      else None
  }

  function ValidateAmount(amountString: string): (r: ValidationResult)
    ensures WellFormed(r)
    ensures IsBlank(amountString) ==> r == Invalid("Amount is required")
    ensures !IsBlank(amountString) && !IsValidAmountFormat(amountString) ==> r == Invalid("Please enter a valid amount")
  {
    if IsBlank(amountString) then Invalid("Amount is required")
    else if !IsValidAmountFormat(amountString) then Invalid("Please enter a valid amount")
    else
      match DecimalCents(amountString)
      case None => Invalid("Invalid amount format")
      case Some(amount) =>
        if amount < MIN_AMOUNT_CENTS then Invalid("Amount must be at least \U{20B9}0.01")
        else if amount > MAX_AMOUNT_CENTS then Invalid("Amount cannot exceed \U{20B9}999999.99")
        else if !IsValidDecimalPlaces(amountString) then Invalid("Amount can have at most 2 decimal places")
        else Valid
  }

  /** A string that passes the format check is not blank: it starts with a digit. */
  lemma FormatValidNotBlank(s: string)
    requires IsValidAmountFormat(s)
    ensures !IsBlank(s)
  {
    if |s| >= 1 && AllDigits(s) {
      assert IsDigit(s[0]);
    } else {
      var k :| 1 <= k < |s| - 1 && s[k] == '.' && AllDigits(s[..k]) && AllDigits(s[k + 1..]) && |s| - k - 1 <= 2;
      assert s[..k][0] == s[0];
    }
  }

  /**
   * Every string that passes the format check parses, and has at most two
   * digits after its '.', so the "Invalid amount format" and "at most 2
   * decimal places" branches of `validateAmount` cannot be taken.
   */
  lemma FormatValidParses(s: string)
    requires IsValidAmountFormat(s)
    ensures DecimalCents(s).Some?
    ensures IsValidDecimalPlaces(s)
  {
    if |s| >= 1 && AllDigits(s) {
      assert forall j :: 0 <= j < |s| ==> s[j] != '.';
    } else {
      var k :| 1 <= k < |s| - 1 && s[k] == '.' && AllDigits(s[..k]) && AllDigits(s[k + 1..]) && |s| - k - 1 <= 2;
      FirstDot(s, k);
    }
  }

  /** In a string whose prefix before `k` is all digits, a '.' at `k` is the first one. */
  lemma FirstDot(s: string, k: int)
    requires 0 <= k < |s| && s[k] == '.' && AllDigits(s[..k])
    ensures IndexOf(s, '.') == k
  {
    assert forall i :: 0 <= i < k ==> s[..k][i] == s[i];
    IndexOfFirst(s, '.', k);
  }

  /**
   * The amount pattern read through the first '.': digits only, or at least
   * one digit, the first '.', and then one or two digits.
   */
  lemma AmountFormatByFirstDot(s: string)
    ensures IsValidAmountFormat(s) <==>
      var i := IndexOf(s, '.');
      if i == -1 then |s| >= 1 && AllDigits(s)
      else 1 <= i && AllDigits(s[..i]) && AllDigits(s[i + 1..]) && 1 <= |s| - i - 1 <= 2
  {
    var i := IndexOf(s, '.');
    if IsValidAmountFormat(s) && !(|s| >= 1 && AllDigits(s)) {
      var k :| 1 <= k < |s| - 1 && s[k] == '.' && AllDigits(s[..k]) && AllDigits(s[k + 1..]) && |s| - k - 1 <= 2;
      FirstDot(s, k);
    }
    if |s| >= 1 && AllDigits(s) {
      assert forall j :: 0 <= j < |s| ==> s[j] != '.';
    }
  }

  /** The decimal-places check passes exactly when no '.' comes before the last three characters. */
  lemma DecimalPlacesBeforeLastThree(s: string)
    ensures IsValidDecimalPlaces(s) <==> forall j :: 0 <= j < |s| - 3 ==> s[j] != '.'
  {
    var i := IndexOf(s, '.');
    if i != -1 && |s| - i - 1 > 2 {
      assert s[i] == '.' && i < |s| - 3;
    }
    if i != -1 && |s| - i - 1 <= 2 {
      assert forall j :: 0 <= j < |s| - 3 ==> s[j] != '.' by {
        forall j | 0 <= j < |s| - 3 ensures s[j] != '.' {
          assert j < i && s[..i][j] == s[j];
        }
      }
    }
  }

  /** The ordered messages: "Invalid amount format" and the decimal-places message never surface. */
  lemma AmountMessages(s: string)
    ensures ValidateAmount(s).errorMessage != Some("Invalid amount format")
    ensures ValidateAmount(s).errorMessage != Some("Amount can have at most 2 decimal places")
  {
    if !IsBlank(s) && IsValidAmountFormat(s) {
      FormatValidParses(s);
    }
  }

  /** A format-valid amount is valid exactly when it is 0.01 to 999999.99. */
  lemma AmountValidIffInRange(s: string)
    requires IsValidAmountFormat(s)
    ensures DecimalCents(s).Some?
    ensures ValidateAmount(s).isValid <==> MIN_AMOUNT_CENTS <= DecimalCents(s).value <= MAX_AMOUNT_CENTS
    ensures DecimalCents(s).value < MIN_AMOUNT_CENTS ==> ValidateAmount(s) == Invalid("Amount must be at least \U{20B9}0.01")
    ensures DecimalCents(s).value > MAX_AMOUNT_CENTS ==> ValidateAmount(s) == Invalid("Amount cannot exceed \U{20B9}999999.99")
  {
    FormatValidNotBlank(s);
    FormatValidParses(s);
  }

  /** Signs, exponents, separators and bare leading or trailing points are format errors. */
  lemma RejectedAmountShapes()
    ensures ValidateAmount("-1") == Invalid("Please enter a valid amount")
    ensures ValidateAmount("1e3") == Invalid("Please enter a valid amount")
    ensures ValidateAmount("1,000") == Invalid("Please enter a valid amount")
    ensures ValidateAmount(".5") == Invalid("Please enter a valid amount")
    ensures ValidateAmount("5.") == Invalid("Please enter a valid amount")
    ensures ValidateAmount("12.345") == Invalid("Please enter a valid amount")
    ensures ValidateAmount("") == Invalid("Amount is required")
  {
    assert !IsDigit("-1"[0]) && !IsBlank("-1");
    assert !IsDigit("1e3"[1]) && !IsBlank("1e3");
    assert !IsDigit("1,000"[1]) && !IsBlank("1,000");
    assert !IsDigit(".5"[0]) && !IsBlank(".5");
    assert !IsDigit("5."[1]) && !IsBlank("5.");
    assert !IsDigit("12.345"[2]) && !IsBlank("12.345");
    assert !IsValidAmountFormat("12.345") by {
      forall k | 1 <= k < 5 && "12.345"[k] == '.' ensures |"12.345"| - k - 1 > 2 {
      }
    }
  }

  /** "0" is below the minimum amount. */
  lemma ZeroTooSmall()
    ensures ValidateAmount("0") == Invalid("Amount must be at least \U{20B9}0.01")
  {
    assert DigitsValue("0") == 0;
    assert IsDigit("0"[0]);
  }

  /** "0.01", one cent, is the smallest valid amount. */
  lemma OneCentValid()
    ensures ValidateAmount("0.01").isValid
  {
    var s := "0.01";
    assert s[..1] == "0" && s[2..] == "01";
    assert IsValidAmountFormat(s);
    FirstDot(s, 1);
    assert DecimalCents(s) == Some(1);
    AmountValidIffInRange(s);
  }

  /** "999999.99" is the largest valid amount. */
  lemma LargestAmountValid()
    ensures ValidateAmount("999999.99").isValid
  {
    var s := "999999.99";
    var whole, fraction := s[..6], s[7..];
    assert whole == "999999" && fraction == "99";
    assert AllDigits(whole) && AllDigits(fraction);
    assert 1 <= 6 < |s| - 1 && s[6] == '.' && |s| - 6 - 1 <= 2;
    assert IsValidAmountFormat(s);
    FirstDot(s, 6);
    DigitsOfNines();
    assert FractionCents(fraction) == 99;
    assert DecimalCents(s) == Some(99_999_999);
    AmountValidIffInRange(s);
  }

  /** "1000000" is above the maximum amount. */
  lemma MillionTooLarge()
    ensures ValidateAmount("1000000") == Invalid("Amount cannot exceed \U{20B9}999999.99")
  {
    var s := "1000000";
    assert forall i :: 0 <= i < 7 ==> s[i] != '.';
    assert AllDigits(s);
    assert DigitsValue(s) == 1000000 by {
      assert s[..6] == "100000";
      assert "100000"[..5] == "10000";
      assert "10000"[..4] == "1000";
      assert "1000"[..3] == "100";
      assert "100"[..2] == "10";
      assert "10"[..1] == "1";
    }
    assert !IsBlank(s) by { assert !IsWhitespace(s[0]); }
  }

  lemma DigitsOfNines()
    ensures DigitsValue("999999") == 999999
  {
    assert "999999"[..5] == "99999";
    assert "99999"[..4] == "9999";
    assert "9999"[..3] == "999";
    assert "999"[..2] == "99";
    assert "99"[..1] == "9";
  }

  // ---------------------------------------------------------------- category and notes

  function ValidateCategory(category: Option<Category>): (r: ValidationResult)
    ensures WellFormed(r)
    ensures r.isValid <==> category.Some?
    ensures category.None? ==> r == Invalid("Please select a category")
  {
    if category.None? then Invalid("Please select a category") else Valid
  }

  /** The character class `[<>"'&]`. */
  predicate IsMarkupChar(c: char) {
    c == '<' || c == '>' || c == '"' || c == '\'' || c == '&'
  }

  /** `notes.contains(Regex("[<>\"'&]"))`. */
  predicate ContainsMarkup(s: string) {
    exists i :: 0 <= i < |s| && IsMarkupChar(s[i])
  }

  function ValidateNotes(notes: string): (r: ValidationResult)
    ensures WellFormed(r)
    ensures r.isValid <==> Utf16Length(notes) <= MAX_NOTES_LENGTH && !ContainsMarkup(notes)
    ensures Utf16Length(notes) > MAX_NOTES_LENGTH ==> r == Invalid("Notes must not exceed 200 characters")
    ensures Utf16Length(notes) <= MAX_NOTES_LENGTH && ContainsMarkup(notes) ==> r == Invalid("Notes contain invalid characters")
  {
    if Utf16Length(notes) > MAX_NOTES_LENGTH then Invalid("Notes must not exceed 200 characters")
    else if ContainsMarkup(notes) then Invalid("Notes contain invalid characters")
    else Valid
  }

  /** 101 emoji are 202 code units, over the 200 limit. */
  lemma EmojiNotesTooLong()
    ensures ValidateNotes(seq(101, _ => '\U{1F600}')) == Invalid("Notes must not exceed 200 characters")
  {
    Utf16LengthOfSupplementary(seq(101, _ => '\U{1F600}'));
  }

  // ---------------------------------------------------------------- form

  function ValidateForm(title: string, amount: string, category: Option<Category>, notes: string): (f: FormValidationState)
    ensures f.titleValidation == ValidateTitle(title)
    ensures f.amountValidation == ValidateAmount(amount)
    ensures f.categoryValidation == ValidateCategory(category)
    ensures f.notesValidation == ValidateNotes(notes)
    ensures f.isFormValid <==>
      f.titleValidation.isValid && f.amountValidation.isValid && f.categoryValidation.isValid && f.notesValidation.isValid
  {
    var titleValidation := ValidateTitle(title);
    var amountValidation := ValidateAmount(amount);
    var categoryValidation := ValidateCategory(category);
    var notesValidation := ValidateNotes(notes);
    FormValidationState(
      titleValidation, amountValidation, categoryValidation, notesValidation,
      titleValidation.isValid && amountValidation.isValid && categoryValidation.isValid && notesValidation.isValid)
  }

  /** The form is valid exactly when every field rule is met. */
  lemma FormValidIff(title: string, amount: string, category: Option<Category>, notes: string)
    ensures ValidateForm(title, amount, category, notes).isFormValid <==>
      && !IsBlank(title) && 3 <= Utf16Length(title) <= MAX_TITLE_LENGTH && TitleCharsMatch(title)
      && IsValidAmountFormat(amount) && MIN_AMOUNT_CENTS <= DecimalCents(amount).GetOr(0) <= MAX_AMOUNT_CENTS
      && category.Some?
      && Utf16Length(notes) <= MAX_NOTES_LENGTH && !ContainsMarkup(notes)
  {
    if IsValidAmountFormat(amount) {
      AmountValidIffInRange(amount);
    }
  }
}
