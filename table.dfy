/** `format_ascii_table` of budged/formatter.py: headers and rows drawn as a
    box of Unicode line characters. The rendering of a float is the
    parameter `render` (Python's `:,.2f`). */
module AsciiTable {
  import opened Wrappers
  import opened Text

  /** A table cell: a string, a float, or None. */
  datatype Cell = Text(s: string) | Amount(x: real) | Missing

  /** `_stringify`. */
  function Stringify(c: Cell, render: real -> string): string {
    match c
    case Text(s) => s
    case Amount(x) => render(x)
    case Missing => ""
  }

  /** `[[_stringify(c) for c in row] for row in rows]`. */
  function StringRows(rows: seq<seq<Cell>>, render: real -> string): (r: seq<seq<string>>)
    ensures |r| == |rows| && forall k :: 0 <= k < |rows| ==> |r[k]| == |rows[k]|
  {
    seq(|rows|, k requires 0 <= k < |rows| =>
      seq(|rows[k]|, i requires 0 <= i < |rows[k]| => Stringify(rows[k][i], render)))
  }

  /** No row has more cells than there are headers; a longer row makes
      Python index past `col_widths` and raise `IndexError`. */
  predicate Fits<T>(headers: seq<string>, rows: seq<seq<T>>) {
    forall k :: 0 <= k < |rows| ==> |rows[k]| <= |headers|
  }

  /** The width of column `i`: the longest of its header and of its cells. */
  function ColumnWidth(headers: seq<string>, rows: seq<seq<string>>, i: nat): nat
    requires i < |headers|
  {
    if rows == [] then |headers[i]|
    else
      var w := ColumnWidth(headers, rows[..|rows| - 1], i);
      var last := rows[|rows| - 1];
      if i < |last| && |last[i]| > w then |last[i]| else w
  }

  /** A column is as wide as its header and each of its cells, and exactly
      as wide as one of them. */
  lemma {:induction false} ColumnWidthIsMax(headers: seq<string>, rows: seq<seq<string>>, i: nat)
    requires i < |headers|
    ensures ColumnWidth(headers, rows, i) >= |headers[i]|
    ensures forall k :: 0 <= k < |rows| && i < |rows[k]| ==> ColumnWidth(headers, rows, i) >= |rows[k][i]|
    ensures ColumnWidth(headers, rows, i) == |headers[i]| ||
            exists k :: 0 <= k < |rows| && i < |rows[k]| && ColumnWidth(headers, rows, i) == |rows[k][i]|
  {
    if rows != [] {
      var init := rows[..|rows| - 1];
      ColumnWidthIsMax(headers, init, i);
      assert forall k :: 0 <= k < |init| ==> init[k] == rows[k];
    }
  }

  /** The widths of all columns. */
  function Widths(headers: seq<string>, rows: seq<seq<string>>): (ws: seq<nat>)
    ensures |ws| == |headers|
  {
    seq(|headers|, i requires 0 <= i < |headers| => ColumnWidth(headers, rows, i))
  }

  /** The width loop of `format_ascii_table`: `col_widths` starts at the
      header lengths and grows cell by cell. */
  method ColumnWidths(headers: seq<string>, rows: seq<seq<string>>) returns (widths: Option<seq<nat>>)
    ensures widths.None? <==> !Fits(headers, rows)
    ensures widths.Some? ==> widths.value == Widths(headers, rows)
  {
    var colWidths := new nat[|headers|](i => if 0 <= i < |headers| then |headers[i]| else 0);
    for r := 0 to |rows|
      invariant Fits(headers, rows[..r])
      invariant forall k :: 0 <= k < |headers| ==> colWidths[k] == ColumnWidth(headers, rows[..r], k)
    {
      var row := rows[r];
      assert rows[..r + 1][..r] == rows[..r];
      for i := 0 to |row|
        invariant forall k :: 0 <= k < i && k < |headers| ==> colWidths[k] == ColumnWidth(headers, rows[..r + 1], k)
        invariant forall k :: i <= k < |headers| ==> colWidths[k] == ColumnWidth(headers, rows[..r], k)
        invariant i <= |headers|
      {
        if i >= |headers| {
          return None;
        }
        if |row[i]| > colWidths[i] {
          colWidths[i] := |row[i]|;
        }
      }
    }
    assert rows[..|rows|] == rows;
    widths := Some(colWidths[..]);
  }

  /** `sum(w + 3 for w in widths) + 1`: the length of every line of a
      table with these column widths. */
  function LineWidth(ws: seq<nat>): nat {
    if ws == [] then 1 else ws[0] + 3 + LineWidth(ws[1..])
  }

  /** A join whose pieces, each with one separator, fill the columns. */
  lemma {:induction false} JoinWidth(parts: seq<string>, sep: string, ws: seq<nat>)
    requires |parts| == |ws| >= 1
    requires forall i :: 0 <= i < |parts| ==> |parts[i]| + |sep| == ws[i] + 3
    ensures |Join(parts, sep)| + |sep| + 1 == LineWidth(ws)
  {
    if |parts| > 1 {
      JoinWidth(parts[1..], sep, ws[1..]);
    }
  }

  /** `sep(left, mid, right)`: a border line, each column filled with
      `─` for its width and the two spaces of padding. */
  function Sep(ws: seq<nat>, left: char, mid: char, right: char): string {
    [left] + Join(seq(|ws|, i requires 0 <= i < |ws| => Repeat('─', ws[i] + 2)), [mid]) + [right]
  }

  lemma SepWidth(ws: seq<nat>, left: char, mid: char, right: char)
    requires |ws| >= 1
    ensures |Sep(ws, left, mid, right)| == LineWidth(ws)
  {
    JoinWidth(seq(|ws|, i requires 0 <= i < |ws| => Repeat('─', ws[i] + 2)), [mid], ws);
  }

  /** `s.ljust(w)` and `s.rjust(w)`. */
  function LJust(s: string, w: nat): string {
    if |s| >= w then s else s + Repeat(' ', w - |s|)
  }

  function RJust(s: string, w: nat): string {
    if |s| >= w then s else Repeat(' ', w - |s|) + s
  }

  /** Padding keeps the text at its side and fills up to the width. */
  lemma JustLength(s: string, w: nat)
    ensures |LJust(s, w)| == |RJust(s, w)| == if |s| >= w then |s| else w
    ensures s <= LJust(s, w)
    ensures RJust(s, w)[|RJust(s, w)| - |s|..] == s
    ensures AllSpace(LJust(s, w)[|s|..]) && AllSpace(RJust(s, w)[..|RJust(s, w)| - |s|])
  {
  }

  /** `c.replace(",", "").replace(".", "").replace("-", "")`. */
  function WithoutPunctuation(s: string): (r: string)
    ensures |r| <= |s|
  {
    if s == [] then []
    else (if s[0] in ",.-" then [] else [s[0]]) + WithoutPunctuation(s[1..])
  }

  /** A cell is right-aligned when the rest of it, without `,`, `.` and
      `-`, is a non-empty run of digits (`str.isdigit`). */
  predicate NumericLooking(s: string) {
    var t := WithoutPunctuation(s);
    t != [] && AllDigits(t)
  }

  /** The digits and punctuation of `s`, and the digits alone. */
  predicate DigitsOrPunctuation(s: string) {
    forall i :: 0 <= i < |s| ==> IsDigit(s[i]) || s[i] in ",.-"
  }

  predicate HasDigit(s: string) {
    exists i :: 0 <= i < |s| && IsDigit(s[i])
  }

  /** What removing the punctuation leaves, character by character. */
  lemma {:induction false} WithoutPunctuationChars(s: string)
    ensures AllDigits(WithoutPunctuation(s)) <==> DigitsOrPunctuation(s)
    ensures DigitsOrPunctuation(s) ==> (WithoutPunctuation(s) != [] <==> HasDigit(s))
  {
    if s != [] {
      WithoutPunctuationChars(s[1..]);
      var head: string := if s[0] in ",.-" then [] else [s[0]];
      AllDigitsConcat(head, WithoutPunctuation(s[1..]));
      FirstAndRest(s);
    }
  }

  lemma AllDigitsConcat(a: string, b: string)
    ensures AllDigits(a + b) <==> AllDigits(a) && AllDigits(b)
  {
    assert forall i :: 0 <= i < |b| ==> (a + b)[|a| + i] == b[i];
    assert forall i :: 0 <= i < |a| ==> (a + b)[i] == a[i];
  }

  /** Both predicates of a non-empty string, from its first character and
      the rest. */
  lemma FirstAndRest(s: string)
    requires s != []
    ensures DigitsOrPunctuation(s) <==> (IsDigit(s[0]) || s[0] in ",.-") && DigitsOrPunctuation(s[1..])
    ensures HasDigit(s) <==> IsDigit(s[0]) || HasDigit(s[1..])
  {
    var rest := s[1..];
    assert forall i :: 1 <= i < |s| ==> s[i] == rest[i - 1];
    if HasDigit(s) && !IsDigit(s[0]) {
      var i :| 0 <= i < |s| && IsDigit(s[i]);
      assert IsDigit(rest[i - 1]);
    }
    if HasDigit(rest) {
      var i :| 0 <= i < |rest| && IsDigit(rest[i]);
      assert IsDigit(s[i + 1]);
    }
  }

  /** A cell looks numeric exactly when it is made of digits, commas,
      points and minus signs, with at least one digit. */
  lemma NumericLookingMeaning(s: string)
    ensures NumericLooking(s) <==> DigitsOrPunctuation(s) && HasDigit(s)
  {
    WithoutPunctuationChars(s);
  }

  /** The alignment rule of `data_line`. */
  function Align(cell: string, w: nat): string {
    if NumericLooking(cell) then RJust(cell, w) else LJust(cell, w)
  }

  /** The line `data_line` draws for `cells`. */
  function DataLineOf(cells: seq<string>, ws: seq<nat>): string
    requires |cells| <= |ws|
  {
    "│ " + Join(seq(|cells|, i requires 0 <= i < |cells| => Align(cells[i], ws[i])), " │ ") + " │"
  }

  /** `data_line`: aligns the cells one by one into `parts`. */
  method DataLine(cells: seq<string>, ws: seq<nat>) returns (line: string)
    requires |cells| <= |ws|
    ensures line == DataLineOf(cells, ws)
  {
    var parts: seq<string> := [];
    for i := 0 to |cells|
      invariant parts == seq(i, k requires 0 <= k < i => Align(cells[k], ws[k]))
    {
      if NumericLooking(cells[i]) {
        parts := parts + [RJust(cells[i], ws[i])];
      } else {
        parts := parts + [LJust(cells[i], ws[i])];
      }
    }
    line := "│ " + Join(parts, " │ ") + " │";
  }

  /** A full row of cells no wider than their columns fills the line. */
  lemma DataLineWidth(cells: seq<string>, ws: seq<nat>)
    requires |cells| == |ws| >= 1
    requires forall i :: 0 <= i < |cells| ==> |cells[i]| <= ws[i]
    ensures |DataLineOf(cells, ws)| == LineWidth(ws)
  {
    var parts := seq(|cells|, i requires 0 <= i < |cells| => Align(cells[i], ws[i]));
    forall i | 0 <= i < |cells| ensures |parts[i]| + 3 == ws[i] + 3 {
      JustLength(cells[i], ws[i]);
    }
    JoinWidth(parts, " │ ", ws);
  }

  /** The title line, when the title is not None or empty. */
  function TitleLines(title: Option<string>): seq<string> {
    if title.Some? && title.value != "" then [title.value] else []
  }

  /** The lines `format_ascii_table` joins: the title, the top border, the
      header line, the middle border, a line per row and the bottom
      border. */
  function TableLines(headers: seq<string>, rows: seq<seq<string>>, title: Option<string>): seq<string>
    requires Fits(headers, rows)
  {
    var ws := Widths(headers, rows);
    TitleLines(title) +
    [Sep(ws, '┌', '┬', '┐'), DataLineOf(headers, ws), Sep(ws, '├', '┼', '┤')] +
    seq(|rows|, k requires 0 <= k < |rows| => DataLineOf(rows[k], ws)) +
    [Sep(ws, '└', '┴', '┘')]
  }

  /** The data lines of the rows, drawn one by one. */
  method RowLines(rows: seq<seq<string>>, ws: seq<nat>) returns (lines: seq<string>)
    requires forall k :: 0 <= k < |rows| ==> |rows[k]| <= |ws|
    ensures lines == seq(|rows|, k requires 0 <= k < |rows| => DataLineOf(rows[k], ws))
  {
    lines := [];
    for k := 0 to |rows|
      invariant lines == seq(k, j requires 0 <= j < k => DataLineOf(rows[j], ws))
    {
      var line := DataLine(rows[k], ws);
      lines := lines + [line];
    }
  }

  /** `format_ascii_table`: None where Python raises `IndexError`. */
  method FormatAsciiTable(headers: seq<string>, rows: seq<seq<Cell>>, title: Option<string>, render: real -> string)
    returns (table: Option<string>)
    ensures table.None? <==> !Fits(headers, rows)
    ensures table.Some? ==> table.value == Join(TableLines(headers, StringRows(rows, render), title), "\n")
  {
    var strRows := StringRows(rows, render);
    assert Fits(headers, strRows) <==> Fits(headers, rows);
    var widths := ColumnWidths(headers, strRows);
    if widths.None? {
      return None;
    }
    var ws := widths.value;
    var header := DataLine(headers, ws);
    var body := RowLines(strRows, ws);
    var lines := TitleLines(title) + [Sep(ws, '┌', '┬', '┐'), header, Sep(ws, '├', '┼', '┤')] + body + [Sep(ws, '└', '┴', '┘')];
    table := Some(Join(lines, "\n"));
  }

  /** The table has a line per row, four border and header lines, and the
      title line when there is a title. */
  lemma TableLineCount(headers: seq<string>, rows: seq<seq<string>>, title: Option<string>)
    requires Fits(headers, rows)
    ensures |TableLines(headers, rows, title)| == |rows| + 4 + (if title.Some? && title.value != "" then 1 else 0)
  {
  }

  /** When every row has a cell per header, every line below the title
      has the same length, `sum(w + 3) + 1`. */
  lemma TableLinesWidth(headers: seq<string>, rows: seq<seq<string>>, title: Option<string>)
    requires |headers| >= 1
    requires forall k :: 0 <= k < |rows| ==> |rows[k]| == |headers|
    ensures forall j :: |TitleLines(title)| <= j < |TableLines(headers, rows, title)| ==>
              |TableLines(headers, rows, title)[j]| == LineWidth(Widths(headers, rows))
  {
    var ws := Widths(headers, rows);
    var body := seq(|rows|, k requires 0 <= k < |rows| => DataLineOf(rows[k], ws));
    var frame := [Sep(ws, '┌', '┬', '┐'), DataLineOf(headers, ws), Sep(ws, '├', '┼', '┤')];
    var bottom := [Sep(ws, '└', '┴', '┘')];
    assert TableLines(headers, rows, title) == TitleLines(title) + (frame + body + bottom);
    SepWidth(ws, '┌', '┬', '┐');
    SepWidth(ws, '├', '┼', '┤');
    SepWidth(ws, '└', '┴', '┘');
    RowLineWidth(headers, rows, headers);
    forall k | 0 <= k < |rows| ensures |body[k]| == LineWidth(ws) {
      RowLineWidth(headers, rows, rows[k]);
    }
    ConcatWidths(frame, body, bottom, LineWidth(ws));
  }

  /** Without headers the lines differ in width: the top border is the two
      corners and the header line is two bars around two spaces. */
  lemma TableLinesNoHeaders(rows: seq<seq<string>>, title: Option<string>)
    requires forall k :: 0 <= k < |rows| ==> rows[k] == []
    ensures |TableLines([], rows, title)[|TitleLines(title)|]| == 2
    ensures |TableLines([], rows, title)[|TitleLines(title)| + 1]| == 4
  {
    var ws := Widths([], rows);
    assert ws == [];
  }

  /** Lines of one length, put together, are all of that length. */
  lemma ConcatWidths(a: seq<string>, b: seq<string>, c: seq<string>, w: nat)
    requires forall j :: 0 <= j < |a| ==> |a[j]| == w
    requires forall j :: 0 <= j < |b| ==> |b[j]| == w
    requires forall j :: 0 <= j < |c| ==> |c[j]| == w
    ensures forall j :: 0 <= j < |a + b + c| ==> |(a + b + c)[j]| == w
  {
  }

  /** A line of as many cells as headers, each no wider than the header or
      some row's cell, fills the width of the table. */
  lemma RowLineWidth(headers: seq<string>, rows: seq<seq<string>>, cells: seq<string>)
    requires |headers| >= 1 && |cells| == |headers|
    requires cells == headers || cells in rows
    ensures |DataLineOf(cells, Widths(headers, rows))| == LineWidth(Widths(headers, rows))
  {
    var ws := Widths(headers, rows);
    forall i | 0 <= i < |headers| ensures |cells[i]| <= ws[i] {
      ColumnWidthIsMax(headers, rows, i);
    }
    DataLineWidth(cells, ws);
  }
}
