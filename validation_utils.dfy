/** `ValidationUtils`: the input sanitiser and the standalone title check. */
module ValidationUtils {
  import opened Wrappers
  import opened KotlinText
  import FormValidation

  const MAX_INPUT_LENGTH: int := 1000

  /** No two adjacent characters are both whitespace. */
  predicate NoDoubleWhitespace(s: string) {
    forall i :: 0 <= i < |s| - 1 ==> !(IsWhitespace(s[i]) && IsWhitespace(s[i + 1]))
  }

  /** The only whitespace character left is the plain space. */
  predicate OnlySpaces(s: string) {
    forall i :: 0 <= i < |s| ==> IsWhitespace(s[i]) ==> s[i] == ' '
  }

  /** The non-whitespace characters of `s`, in order. */
  function NonWhitespace(s: string): string {
    if s == [] then [] else (if IsWhitespace(s[0]) then [] else [s[0]]) + NonWhitespace(s[1..])
  }

  /**
   * `replace(Regex("\\s+"), " ")`: every maximal run of whitespace becomes one
   * space, and every other character is kept, in order.
   */
  function CollapseWhitespace(s: string): (r: string)
    ensures |r| <= |s|
    ensures NonWhitespace(r) == NonWhitespace(s)
    ensures s != [] ==> r != [] && (if IsWhitespace(s[0]) then r[0] == ' ' else r[0] == s[0])
    ensures NoDoubleWhitespace(r) && OnlySpaces(r)
    decreases |s|
  {
    if s == [] then []
    else if IsWhitespace(s[0]) then
      var rest := TrimStart(s);
      assert rest == [] || !IsWhitespace(rest[0]);
      var r := [' '] + CollapseWhitespace(rest);
      NonWhitespaceOfTrimStart(s);
      assert r[0] == ' ' && r[1..] == CollapseWhitespace(rest);
      r
    else
      var r := [s[0]] + CollapseWhitespace(s[1..]);
      assert r[0] == s[0] && r[1..] == CollapseWhitespace(s[1..]);
      r
  }

  /** Dropping leading whitespace keeps the non-whitespace characters. */
  lemma {:induction false} NonWhitespaceOfTrimStart(s: string)
    ensures NonWhitespace(TrimStart(s)) == NonWhitespace(s)
  {
    if s != [] && IsWhitespace(s[0]) {
      NonWhitespaceOfTrimStart(s[1..]);
    }
  }

  /** A non-empty run of whitespace becomes a single space. */
  lemma CollapseBlankRun(w: string)
    requires w != [] && IsBlank(w)
    ensures CollapseWhitespace(w) == " "
  {
    assert TrimStart(w) == [];
  }

  /**
   * Collapsing works run by run: a string cut where the two sides are not
   * both whitespace collapses as its two halves do.
   */
  lemma {:induction false} CollapseSplits(a: string, b: string)
    requires a == [] || b == [] || !(IsWhitespace(a[|a| - 1]) && IsWhitespace(b[0]))
    ensures CollapseWhitespace(a + b) == CollapseWhitespace(a) + CollapseWhitespace(b)
    decreases |a|, 1
  {
    if a == [] {
      assert a + b == b;
    } else if IsWhitespace(a[0]) {
      CollapseSplitsAtRun(a, b);
    } else {
      CollapseSplitsAtWord(a, b);
    }
  }

  /** `CollapseSplits` when `a` starts with whitespace. */
  lemma {:induction false} CollapseSplitsAtRun(a: string, b: string)
    requires a != [] && IsWhitespace(a[0])
    requires b == [] || !(IsWhitespace(a[|a| - 1]) && IsWhitespace(b[0]))
    ensures CollapseWhitespace(a + b) == CollapseWhitespace(a) + CollapseWhitespace(b)
    decreases |a|, 0
  {
    var tail := TrimStart(a);
    SplitTail(a, b, tail);
    if tail != [] {
      CollapseSplits(tail, b);
    } else {
      assert tail + b == b;
    }
    CollapseHeadRun(a, b);
    Regroup([' '], CollapseWhitespace(tail), CollapseWhitespace(b),
      CollapseWhitespace(a + b), CollapseWhitespace(a), CollapseWhitespace(tail + b));
  }

  /** `CollapseSplits` when `a` starts with a kept character. */
  lemma {:induction false} CollapseSplitsAtWord(a: string, b: string)
    requires a != [] && !IsWhitespace(a[0])
    requires b == [] || !(IsWhitespace(a[|a| - 1]) && IsWhitespace(b[0]))
    ensures CollapseWhitespace(a + b) == CollapseWhitespace(a) + CollapseWhitespace(b)
    decreases |a|, 0
  {
    var tail := a[1..];
    SplitTail(a, b, tail);
    CollapseSplits(tail, b);
    CollapseHeadWord(a, b);
    Regroup([a[0]], CollapseWhitespace(tail), CollapseWhitespace(b),
      CollapseWhitespace(a + b), CollapseWhitespace(a), CollapseWhitespace(tail + b));
  }

  /** What is left of `a` after one collapsing step still does not meet `b` in whitespace. */
  lemma SplitTail(a: string, b: string, tail: string)
    requires a != [] && (b == [] || !(IsWhitespace(a[|a| - 1]) && IsWhitespace(b[0])))
    requires tail == if IsWhitespace(a[0]) then TrimStart(a) else a[1..]
    ensures |tail| < |a|
    ensures tail == [] || b == [] || !(IsWhitespace(tail[|tail| - 1]) && IsWhitespace(b[0]))
  {
    if tail != [] {
      assert tail[|tail| - 1] == a[|a| - 1];
    }
  }

  /** One step of collapsing, when `a` starts with a kept character. */
  lemma CollapseHeadWord(a: string, b: string)
    requires a != [] && !IsWhitespace(a[0])
    ensures CollapseWhitespace(a) == [a[0]] + CollapseWhitespace(a[1..])
    ensures CollapseWhitespace(a + b) == [a[0]] + CollapseWhitespace(a[1..] + b)
  {
    var ab := a + b;
    assert ab[0] == a[0] && ab[1..] == a[1..] + b;
  }

  /** One step of collapsing, when `a` starts with whitespace that `b` does not continue. */
  lemma CollapseHeadRun(a: string, b: string)
    requires a != [] && IsWhitespace(a[0])
    requires b == [] || !(IsWhitespace(a[|a| - 1]) && IsWhitespace(b[0]))
    ensures CollapseWhitespace(a) == [' '] + CollapseWhitespace(TrimStart(a))
    ensures CollapseWhitespace(a + b) == [' '] + CollapseWhitespace(TrimStart(a) + b)
  {
    var ab := a + b;
    assert ab[0] == a[0];
    TrimStartSplits(a, b);
    if TrimStart(a) == [] {
      assert TrimStart(a) + b == b;
    }
  }

  /** Regrouping `head + (x + y)` as `(head + x) + y`. */
  lemma Regroup(head: string, x: string, y: string, whole: string, left: string, joined: string)
    requires joined == x + y && whole == head + joined && left == head + x
    ensures whole == left + y
  {
  }

  /**
   * A maximal whitespace run between two other characters becomes exactly
   * one space, and the text on either side collapses on its own.
   */
  lemma CollapseRunBetween(u: string, w: string, v: string)
    requires u != [] && !IsWhitespace(u[|u| - 1])
    requires w != [] && IsBlank(w)
    requires v != [] && !IsWhitespace(v[0])
    ensures CollapseWhitespace(u + w + v) == CollapseWhitespace(u) + " " + CollapseWhitespace(v)
  {
    var wv := w + v;
    GroupRight(u, w, v, wv);
    CollapseSplits(w, v);
    CollapseBlankRun(w);
    CollapseSplits(u, wv);
    Regroup(CollapseWhitespace(u), " ", CollapseWhitespace(v),
      CollapseWhitespace(u + wv), CollapseWhitespace(u) + " ", CollapseWhitespace(wv));
  }

  lemma GroupRight(u: string, w: string, v: string, wv: string)
    requires wv == w + v
    ensures u + w + v == u + wv && wv[0..|w|] == w
  {
  }

  /** Leading whitespace of `a + b` is that of `a`, and of `b` too when `a` is all whitespace. */
  lemma {:induction false} TrimStartConcat(a: string, b: string)
    ensures TrimStart(a) != [] ==> TrimStart(a + b) == TrimStart(a) + b
    ensures TrimStart(a) == [] ==> TrimStart(a + b) == TrimStart(b)
  {
    if a == [] {
      assert a + b == b;
    } else {
      var ab := a + b;
      assert ab[0] == a[0] && ab[1..] == a[1..] + b;
      if IsWhitespace(a[0]) {
        TrimStartConcat(a[1..], b);
      }
    }
  }

  /** Leading whitespace of `a + b` is that of `a`, unless `a` is all whitespace. */
  lemma TrimStartSplits(a: string, b: string)
    requires a == [] || b == [] || !(IsWhitespace(a[|a| - 1]) && IsWhitespace(b[0]))
    ensures TrimStart(a) != [] ==> TrimStart(a + b) == TrimStart(a) + b
    ensures a != [] && TrimStart(a) == [] ==> TrimStart(a + b) == b
  {
    TrimStartConcat(a, b);
    if a != [] && TrimStart(a) == [] {
      assert IsWhitespace(a[|a| - 1]);
    }
  }

  /**
   * `String.take(n)`: the longest prefix of at most `n` UTF-16 code units,
   * cut between whole characters.
   */
  function Take(s: string, n: nat): (r: string)
    ensures r <= s && Utf16Length(r) <= n
    ensures Utf16Length(s) <= n ==> r == s
    ensures |r| < |s| ==> Utf16Length(r) + Utf16Units(s[|r|]) > n
  {
    if s == [] || Utf16Units(s[0]) > n then []
    else
      var rest := Take(s[1..], n - Utf16Units(s[0]));
      var r := [s[0]] + rest;
      assert r[0] == s[0] && r[1..] == rest;
      r
  }

  /** `sanitizeInput`: trim, collapse whitespace runs, keep at most 1000 code units. */
  function SanitizeInput(input: string): (r: string)
    ensures Utf16Length(r) <= MAX_INPUT_LENGTH
    ensures r <= CollapseWhitespace(Trim(input))
    ensures r == [] || !IsWhitespace(r[0])
    ensures NoDoubleWhitespace(r) && OnlySpaces(r)
  {
    var c := CollapseWhitespace(Trim(input));
    var r := Take(c, MAX_INPUT_LENGTH);
    assert r == c[..|r|];
    assert forall i :: 0 <= i < |r| ==> r[i] == c[i];
    r
  }

  /** Collapsing keeps a non-whitespace last character at the end. */
  lemma {:induction false} CollapseKeepsLast(s: string)
    requires s != [] && !IsWhitespace(s[|s| - 1])
    ensures !IsWhitespace(CollapseWhitespace(s)[|CollapseWhitespace(s)| - 1])
    decreases |s|
  {
    if IsWhitespace(s[0]) {
      var rest := TrimStart(s);
      assert rest != [] && rest[|rest| - 1] == s[|s| - 1];
      CollapseKeepsLast(rest);
    } else if |s| > 1 {
      CollapseKeepsLast(s[1..]);
    }
  }

  /** A string already in collapsed form is left unchanged by collapsing. */
  lemma {:induction false} CollapseFixpoint(s: string)
    requires NoDoubleWhitespace(s) && OnlySpaces(s)
    ensures CollapseWhitespace(s) == s
    decreases |s|
  {
    if s != [] {
      assert NoDoubleWhitespace(s[1..]) && OnlySpaces(s[1..]);
      if IsWhitespace(s[0]) {
        assert |s| == 1 || !IsWhitespace(s[1]);
        assert TrimStart(s) == s[1..];
      }
      CollapseFixpoint(s[1..]);
    }
  }

  /** The output is a prefix of the trimmed, collapsed input, and all of it when that fits. */
  lemma SanitizeIsPrefix(input: string)
    ensures SanitizeInput(input) <= CollapseWhitespace(Trim(input))
    ensures Utf16Length(CollapseWhitespace(Trim(input))) <= MAX_INPUT_LENGTH ==>
      SanitizeInput(input) == CollapseWhitespace(Trim(input))
  {
  }

  /** Sanitising twice is sanitising once, when nothing was cut off. */
  lemma SanitizeIdempotent(input: string)
    requires Utf16Length(CollapseWhitespace(Trim(input))) <= MAX_INPUT_LENGTH
    ensures SanitizeInput(SanitizeInput(input)) == SanitizeInput(input)
  {
    var t := Trim(input);
    var c := CollapseWhitespace(t);
    assert SanitizeInput(input) == c;
    if t != [] {
      CollapseKeepsLast(t);
      assert !IsWhitespace(c[0]);
      assert TrimStart(c) == c;
      assert TrimEnd(c) == c;
    }
    assert Trim(c) == c;
    CollapseFixpoint(c);
  }

  // ---------------------------------------------------------------- titles

  /**
   * `title.matches(Regex(".*[<>\"'&].*"))`: the whole title is some
   * characters, one markup character, some more characters, where `.` matches
   * any character except a line terminator.
   */
  predicate MatchesMarkupPattern(title: string) {
    exists i :: 0 <= i < |title| && FormValidation.IsMarkupChar(title[i])
      && (forall j :: 0 <= j < i ==> !IsLineTerminator(title[j]))
      && (forall j :: i < j < |title| ==> !IsLineTerminator(title[j]))
  }

  predicate HasLineTerminator(s: string) {
    exists j :: 0 <= j < |s| && IsLineTerminator(s[j])
  }

  /** The markup pattern matches exactly the single-line titles holding a markup character. */
  lemma MarkupPatternMeaning(title: string)
    ensures MatchesMarkupPattern(title) <==> FormValidation.ContainsMarkup(title) && !HasLineTerminator(title)
  {
    if FormValidation.ContainsMarkup(title) && !HasLineTerminator(title) {
      var i :| 0 <= i < |title| && FormValidation.IsMarkupChar(title[i]);
      assert MatchesMarkupPattern(title);
    }
    if MatchesMarkupPattern(title) {
      var i :| 0 <= i < |title| && FormValidation.IsMarkupChar(title[i])
        && (forall j :: 0 <= j < i ==> !IsLineTerminator(title[j]))
        && (forall j :: i < j < |title| ==> !IsLineTerminator(title[j]));
      assert !IsLineTerminator(title[i]);
    }
  }

  /**
   * `isValidExpenseTitle`, with the length in UTF-16 code units: a title is
   * accepted iff it is not blank, has 3 to 50 code units, and holds a markup
   * character only if it also holds a line break.
   */
  predicate IsValidExpenseTitle(title: string): (ok: bool)
    ensures ok <==>
      && !IsBlank(title)
      && 3 <= Utf16Length(title) <= 50
      && (FormValidation.ContainsMarkup(title) ==> HasLineTerminator(title))
  {
    MarkupPatternMeaning(title);
    !IsBlank(title) && Utf16Length(title) >= 3 && Utf16Length(title) <= 50 && !MatchesMarkupPattern(title)
  }

  /** An accepted title is non-blank, with 3 to 50 code units. */
  lemma ValidTitleBounds(title: string)
    requires IsValidExpenseTitle(title)
    ensures !IsBlank(title) && 3 <= Utf16Length(title) <= 50
  {
  }

  /** On a single-line title every markup character is rejected. */
  lemma SingleLineMarkupRejected(title: string)
    requires forall j :: 0 <= j < |title| ==> !IsLineTerminator(title[j])
    requires FormValidation.ContainsMarkup(title)
    ensures !IsValidExpenseTitle(title)
  {
    var i :| 0 <= i < |title| && FormValidation.IsMarkupChar(title[i]);
    assert MatchesMarkupPattern(title);
  }

  /** As written, a markup character is accepted once the title holds a line break. */
  lemma MultiLineMarkupAccepted()
    ensures IsValidExpenseTitle("<b>\nx")
    ensures FormValidation.ContainsMarkup("<b>\nx")
  {
    var t := "<b>\nx";
    Utf16LengthOfBmp(t);
    assert IsLineTerminator(t[3]);
    assert !IsBlank(t) by { assert !IsWhitespace(t[0]); }
    assert FormValidation.IsMarkupChar(t[0]);
  }

  /** The title rule with the markup class looked for anywhere in the title, as `containsMatchIn` would. */
  predicate IsValidExpenseTitleCorrected(title: string) {
    !IsBlank(title) && Utf16Length(title) >= 3 && Utf16Length(title) <= 50 && !FormValidation.ContainsMarkup(title)
  }

  /** The corrected check rejects every title with a markup character, on any number of lines. */
  lemma CorrectedRejectsMarkup(title: string)
    ensures IsValidExpenseTitleCorrected(title) ==> !FormValidation.ContainsMarkup(title)
    ensures IsValidExpenseTitleCorrected(title) ==> IsValidExpenseTitle(title)
  {
  }

  /** Every title the form accepts is accepted here too. */
  lemma FormTitleIsValidExpenseTitle(title: string)
    requires FormValidation.ValidateTitle(title).isValid
    ensures IsValidExpenseTitle(title)
    ensures IsValidExpenseTitleCorrected(title)
  {
    assert forall i :: 0 <= i < |title| ==> !FormValidation.IsMarkupChar(title[i]) by {
      forall i | 0 <= i < |title| ensures !FormValidation.IsMarkupChar(title[i]) {
        assert FormValidation.IsTitleChar(title[i]);
      }
    }
  }

  // ---------------------------------------------------------------- display

  function DigitChar(d: int): (c: char)
    requires 0 <= d <= 9
    ensures IsDigit(c) && FormValidation.DigitValue(c) == d
  {
    ('0' as int + d) as char
  }

  /** The decimal digits of `n`, most significant first, with no leading zeros. */
  function NatDigits(n: nat): (r: string)
    ensures |r| >= 1 && AllDigits(r) && FormValidation.DigitsValue(r) == n
    decreases n
  {
    if n < 10 then
      var r := [DigitChar(n)];
      assert r[..0] == [];
      r
    else
      var high := NatDigits(n / 10);
      var r := high + [DigitChar(n % 10)];
      assert r[..|r| - 1] == high;
      r
  }

  /**
   * `formatAmountForDisplay`, `String.format("%.2f", amount)`, on an amount
   * of whole cents: the rupees, a '.', and exactly two digits of paise.
   */
  function FormatAmountForDisplay(cents: nat): (r: string)
    ensures |r| >= 4 && r[|r| - 3] == '.'
    ensures AllDigits(r[..|r| - 3]) && AllDigits(r[|r| - 2..])
  {
    var whole := NatDigits(cents / 100);
    var r := whole + ['.', DigitChar(cents % 100 / 10), DigitChar(cents % 10)];
    assert r[..|r| - 3] == whole;
    r
  }

  /** A displayed amount passes the form's amount pattern and reads back as the same cents. */
  lemma DisplayedAmountReadsBack(cents: nat)
    ensures FormValidation.IsValidAmountFormat(FormatAmountForDisplay(cents))
    ensures FormValidation.DecimalCents(FormatAmountForDisplay(cents)) == Some(cents)
  {
    var r := FormatAmountForDisplay(cents);
    var k := |r| - 3;
    var whole, fraction := r[..k], r[k + 1..];
    assert whole == NatDigits(cents / 100);
    assert fraction == [DigitChar(cents % 100 / 10), DigitChar(cents % 10)];
    assert AllDigits(whole) && AllDigits(fraction) && |fraction| == 2 && 1 <= k;
    assert FormValidation.IsValidAmountFormat(r) by {
      assert 1 <= k < |r| - 1 && r[k] == '.' && |r| - k - 1 <= 2;
    }
    FormValidation.FirstDot(r, k);
    assert FormValidation.FractionCents(fraction) == cents % 100;
    assert FormValidation.DecimalCents(r) == Some(FormValidation.DigitsValue(whole) * 100 + FormValidation.FractionCents(fraction));
  }
}
