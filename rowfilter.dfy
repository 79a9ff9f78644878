/** `_is_data_row` of budged/parser.py and its two patterns, written as
    scanners. */
module RowFilter {
  import opened Wrappers
  import opened Text


  /** `DATE_PATTERN`, `^\d{2}\.\d{2}\.\d{4}$`: two digits, a point, two
      digits, a point, four digits. */
  predicate DateShape(s: string) {
    && |s| == 10
    && IsDigit(s[0]) && IsDigit(s[1]) && s[2] == '.'
    && IsDigit(s[3]) && IsDigit(s[4]) && s[5] == '.'
    && AllDigits(s[6..])
  }

  /** The class `[\d,.]` of `SUM_PATTERN`. */
  predicate IsAmountChar(c: char) { IsDigit(c) || c == ',' || c == '.' }

  /** `s` splits as `SUM_PATTERN`, `^-?[\d,.]+\s+KZT$`, reads it: `s[..a]` is the
      optional minus, `s[a..b]` the amount, `s[b..|s| - 3]` the whitespace. */
  ghost predicate SumSplit(s: string, a: nat, b: nat) {
    && a <= 1 && a < b < |s| - 3
    && (a == 1 ==> s[0] == '-')
    && (forall i :: a <= i < b ==> IsAmountChar(s[i]))
    && AllSpace(s[b..|s| - 3])
    && s[|s| - 3..] == "KZT"
  }

  /** `SUM_PATTERN` matches `s`. */
  ghost predicate SumShape(s: string) {
    exists a: nat, b: nat :: SumSplit(s, a, b)
  }

  /** The scanner for `SUM_PATTERN`: an optional minus, the longest run of
      amount characters, then whitespace up to a closing `KZT`. */
  predicate MatchSum(s: string) {
    var a := if s != [] && s[0] == '-' then 1 else 0;
    var b := a + Run(s[a..], IsAmountChar);
    a < b < |s| - 3 && AllSpace(s[b..|s| - 3]) && s[|s| - 3..] == "KZT"
  }

  /** The scanner accepts exactly the texts the pattern matches. */
  lemma MatchSumCorrect(s: string)
    ensures MatchSum(s) <==> SumShape(s)
  {
    var a := if s != [] && s[0] == '-' then 1 else 0;
    var b := a + Run(s[a..], IsAmountChar);
    if MatchSum(s) {
      assert SumSplit(s, a, b);
    }
    if SumShape(s) {
      var a': nat, b': nat :| SumSplit(s, a', b');
      assert a' == a by {
        if a' == 0 { assert IsAmountChar(s[0]); }
      }
      assert s[b'..|s| - 3][0] == s[b'];
      RunUnique(s[a..], IsAmountChar, b' - a);
    }
  }

  /** `_is_data_row`: a row is a transaction when it has at least four cells,
      a date cell and an amount cell, and the stripped cells match
      `DATE_PATTERN` and `SUM_PATTERN`. None stands for a missing row or cell. */
  predicate IsDataRow(row: Option<seq<Option<string>>>)
    ensures IsDataRow(row) <==>
      && row.Some? && |row.value| >= 4
      && row.value[0].Some? && DateShape(Strip(row.value[0].value))
      && row.value[1].Some? && SumShape(Strip(row.value[1].value))
  {
    if row.None? || |row.value| == 0 || |row.value| < 4 then false
    else
      var date, sum := row.value[0], row.value[1];
      if date.None? || date.value == "" || sum.None? || sum.value == "" then false
      else
        MatchSumCorrect(Strip(sum.value));
        DateShape(Strip(date.value)) && MatchSum(Strip(sum.value))
  }

  /** Rows that are missing, short, or lack a date or amount are rejected. */
  lemma IsDataRowRejects(row: Option<seq<Option<string>>>)
    requires || row.None? || |row.value| < 4
             || row.value[0] in {None, Some("")} || row.value[1] in {None, Some("")}
    ensures !IsDataRow(row)
  {
  }

  /** The amount cell of the row filter's tests has the amount shape. */
  lemma SumShapeExample()
    ensures SumShape("-30000.00 KZT")
  {
    assert SumSplit("-30000.00 KZT", 1, 9);
  }

  /** A row whose first two cells are a date and an amount is accepted,
      whatever its other cells hold. */
  lemma IsDataRowAccepts(date: string, sum: string, description: Option<string>, details: Option<string>)
    requires Trimmed(date) && DateShape(date) && Trimmed(sum) && SumShape(sum)
    ensures IsDataRow(Some([Some(date), Some(sum), description, details]))
  {
    var cells := [Some(date), Some(sum), description, details];
    assert cells[0].value == date && cells[1].value == sum;
    assert Strip(date) == date by { StripTrimmed(date); }
    assert Strip(sum) == sum by { StripTrimmed(sum); }
  }

  /** The transaction row of the row filter's tests is accepted. */
  lemma IsDataRowAcceptsTransaction()
    ensures IsDataRow(Some([Some("31.01.2026"), Some("-30000.00 KZT"), Some("Transfer"),
                           Some("Receiver: 440043******8791")]))
  {
    SumShapeExample();
    IsDataRowAccepts("31.01.2026", "-30000.00 KZT", Some("Transfer"), Some("Receiver: 440043******8791"));
  }

  /** The table's header row is rejected. */
  lemma IsDataRowRejectsHeader()
    ensures !IsDataRow(Some([Some("Date"), Some("Sum"), Some("Description"), Some("Details")]))
  {
    StripTrimmed("Date");
  }
}
