# budged statement pipeline, in Dafny

This project models the core of `budged`, a tool that reads ForteBank card
statements. The core covers:

- A row filter recognises transaction rows of a statement table.
- Field parsers clean the details text and read the amount, and a details
  parser extracts the sub-fields of the details text: MCC, wallet, bank,
  receiver account and merchant.
- Every transaction's amount is posted into a table keyed by description
  and MCC category. That table can be rolled up to category groups and
  summarised into totals.
- Two reports are drawn from the results, as indented text or as a box
  table: one from an aggregation table, one from the raw records.

The project proves properties of each step:

- The row filter and the field parsers accept and produce exactly the
  shapes their patterns describe.
- Cleaning is idempotent.
- A receiver account and a merchant exclude each other.
- The category table holds every amount, and the bonus purchases a second
  time, because a bonus purchase is posted both as a purchase and as a
  saving. The roll-up to groups conserves the total.
- The category index agrees with the group lists.
- Sorting matches Python's stable `sorted`.
- With at least one header, and a cell per header in every row, every line
  of a box table below the title has the same width. Without headers the
  top border is two characters wide and the header line four.
- The report footers equal the totals of the records.

Amounts are exact `real` numbers, so the sum identities hold exactly. Python
dictionaries become insertion-ordered association lists (module `Dict`),
because the reports depend on that order when totals tie. Python's `sorted`
becomes a stable insertion sort over sort keys: a key is a sequence of
numbers and strings, compared like Python tuples and lists (module `Sorting`).
The code that loops and updates state is written as methods with loop
invariants. Each such method is proved equal to a specification function, and
the properties are lemmas about those functions.

Modules, one per file:

- `Wrappers`: Option.
- `Text`: strip, split, join, runs of characters.
- `Amount`: `parse_sum` and the `float()` reading it relies on.
- `RowFilter`: `_is_data_row`.
- `Cleaning`: `_clean_details`.
- `DetailsParser`: `parse_details`.
- `Records`: `parse_row` and `parse_transactions`.
- `Categories`: the category tables and `name_to_group`.
- `Dict`: dictionaries.
- `Aggregator`: the aggregations and totals.
- `Sorting`: `sorted`.
- `AsciiTable`: `format_ascii_table`.
- `Formatter`: `format_aggregated` and `format_raw_report`.

Behaviour of the code worth noting:

- **Unknown `sort_by` in the raw report.** With a `sort_by` other than "date",
  "sum" or "name", `format_raw_report` keeps the input order rather than
  sorting by amount (`budged/formatter.py:108-115`).
- **Unknown `fmt`.** Any `fmt` other than "ascii" gives the plain text style,
  not the box table (`budged/formatter.py:83`, `141`).
- **Date sort.** It compares the parts of `dd.mm.yyyy` as strings, year first
  (`budged/formatter.py:109`), which orders such dates by the calendar.
- **Net purchases.** The net is `purchase + bonuses` in `format_aggregated`
  (`budged/formatter.py:89`, `98`). It is `purchase - bonuses` in
  `format_raw_report` (`budged/formatter.py:147`, `158`) and in
  `compute_purchase_totals` (`budged/aggregator.py:78`). Each is modelled
  as written, and `Formatter.AggregatedNet` states what the first form
  adds up to.

## Model

| member | source | states |
|---|---|---|
| Text.IsDigit | budged/parser.py:8-9 | the definition of `\d`, the ASCII digits (admitted under Left out); every digit scanner of the model uses it |
| Text.IsSpace | budged/parser.py:66-68 | the definition of Python's whitespace, `str.isspace`: the 29 characters `strip()` removes and `\s` matches; Text.Strip, Text.StripSlice and every `\s` scanner are stated with it |
| Text.StripLeft | budged/parser.py:66-68 | the leading half of `strip()`: the result is a suffix of the text, everything cut off is whitespace, and the result does not start with whitespace |
| Text.StripRight | budged/parser.py:66-68 | the trailing half of `strip()`: the result is a prefix of the text, everything cut off is whitespace, and the result does not end with whitespace |
| Text.Upper | budged/parser.py:36 | the definition of `str.upper()` on the ASCII letters; DetailsParser.DetailsOf states the wallet field with it |
| Text.Contains | budged/parser.py:36 | the definition of `t in s` on strings, an occurrence of `t` as a substring; DetailsParser.AnyKeyword and DetailsOf are stated with it |
| Text.IndexOf | budged/parser.py:56-58 | the first position of `c`: it holds `c` and no earlier position does |
| Text.Join | budged/formatter.py:59 | the definition of `sep.join(parts)`; Text.JoinSplit and Text.SplitJoin prove it inverts `split` and AsciiTable.SepWidth gives its length |
| Text.Strip | budged/parser.py:66-68 | `strip()` leaves no whitespace at either end and never lengthens the text; whitespace is Python's full set, the no-break and ideographic spaces included |
| Text.StripSlice | budged/parser.py:66-68 | the stripped text is a slice of the input with only whitespace cut before and after it |
| Text.StripTrimmed | budged/parser.py:95 | text without outer whitespace is left unchanged by `strip()` |
| Text.Split | budged/parser.py:56-58 | `split(c)` gives at least one part, no part holds `c`, more than one part exactly when `c` occurs, and the first part is the text before the first `c` |
| Text.JoinSplit | budged/formatter.py:109 | joining the parts of a split with the separator gives back the text |
| Text.SplitJoin | budged/formatter.py:109 | splitting the join of separator-free parts gives back the parts |
| Text.Repeat | budged/formatter.py:95 | `c * n` is `n` copies of `c` |
| Text.Run | budged/parser.py:52 | the longest prefix whose characters all satisfy a class: all of them do and the next does not |
| Amount.IsSumChar | budged/parser.py:14 | the definition of the kept class `[\d\.\-]`; Amount.KeepSumChars keeps exactly these characters |
| Amount.LiteralValue | budged/parser.py:16 | the definition of the exact decimal value of a signed literal; Amount.ParseFloatLiteral proves `float()` returns it |
| Amount.ScanFloat | budged/parser.py:16 | the definition of the scanner inside `float()`; Amount.ScanFloatText and Amount.ScanFloatComplete prove it accepts exactly the literals `-?(d+(.d*)?|.d+)`, split into their parts |
| Amount.ParseFloat | budged/parser.py:15-18 | the definition of `float()` on the filtered text, None for ValueError; Amount.ParseFloatLiteral proves it reads every literal with its value and Amount.ParseFloatHasDigit that what it accepts holds a digit |
| Amount.ParseSum | budged/parser.py:12-18 | the definition of `parse_sum`: the filter, then `float()`, then 0 on ValueError; Amount.ParseSumAmountCell, ParseSumLiteralCell and ParseSumNoDigits prove what it gives for amount cells, literal cells and digit-free text |
| Amount.KeepSumChars | budged/parser.py:14 | `re.sub(r"[^\d\.\-]", "", s)` keeps only digits, `.` and `-`, and never lengthens the text |
| Amount.KeepSumCharsKeeps | budged/parser.py:14 | text made only of kept characters passes the filter unchanged |
| Amount.KeepSumCharsNoDigit | budged/parser.py:14 | the filter introduces no digit |
| Amount.ScanFloatText | budged/parser.py:16 | the parts the `float()` scanner returns spell exactly the text they came from |
| Amount.ScanFloatComplete | budged/parser.py:16 | every decimal literal `-?(d+(.d*)?|.d+)` is scanned into exactly its parts |
| Amount.ParseFloatLiteral | budged/parser.py:16 | `float()` reads every literal with its decimal value |
| Amount.ParseFloatHasDigit | budged/parser.py:15-18 | whatever `float()` accepts holds a digit |
| Amount.ParseSumLiteralCell | budged/parser.py:12-18 | a literal followed by ` KZT` parses to the literal's value |
| Amount.ParseSumAmountCell | budged/parser.py:12-18 | an amount cell `[-]digits.digits KZT` parses to the signed amount it shows |
| Amount.ParseSumNoDigits | budged/parser.py:15-18 | text without digits falls back to 0 |
| Amount.ParseSumExample | budged/parser.py:13 | `"-30000.00 KZT"` parses to -30000.00 |
| Amount.ParseSumGarbage | budged/parser.py:17-18 | `"garbage"` parses to 0 |
| RowFilter.DateShape | budged/parser.py:8 | the definition of `DATE_PATTERN` as a fixed shape `dd.dd.dddd`; RowFilter.IsDataRow is stated with it |
| RowFilter.SumShape | budged/parser.py:9 | the reference reading of `SUM_PATTERN`: some split into an optional minus, a non-empty amount run, whitespace and `KZT`; RowFilter.MatchSumCorrect proves the scanner equal to it |
| RowFilter.MatchSum | budged/parser.py:9 | the definition of the greedy scanner for `SUM_PATTERN`; RowFilter.MatchSumCorrect proves it accepts exactly SumShape |
| RowFilter.MatchSumCorrect | budged/parser.py:9 | the hand-written scanner accepts exactly the texts `^-?[\d,.]+\s+KZT$` matches |
| RowFilter.IsDataRow | budged/parser.py:78-85 | a row is a transaction row exactly when it has four or more cells, its stripped date cell has the shape `dd.dd.dddd` and its stripped sum cell has the amount shape |
| RowFilter.IsDataRowRejects | budged/parser.py:80-84 | a missing row, a row of fewer than four cells, or a missing or empty date or sum cell is rejected |
| RowFilter.IsDataRowAccepts | budged/parser.py:85 | a row whose first cells are a date and an amount is accepted whatever its other cells are |
| RowFilter.IsDataRowAcceptsTransaction | tests/test_pdf_parser.py:47-49 | the transfer row of the tests is accepted |
| RowFilter.IsDataRowRejectsHeader | tests/test_pdf_parser.py:55-57 | the header row is rejected |
| Cleaning.NewlinesToSpaces | budged/parser.py:92-93 | the definition of every line break replaced by a space; Cleaning.BreakPassesSpaceEveryBreak proves the first two passes compute it |
| Cleaning.CollapseSpaces | budged/parser.py:94 | the third pass `re.sub(r"\s{2,}", " ", s)` never lengthens the text; Cleaning.CollapseSpacesNoDouble, CollapseSpacesNonSpace and CollapseSpacesKeeps prove what it does |
| Cleaning.CleanText | budged/parser.py:92-95 | the definition of the three passes and the strip; Cleaning.CleanTextShape and CleanDetailsIdempotent prove its properties |
| Cleaning.CleanTextShape | budged/parser.py:92-95 | the three passes and the strip leave no line break, no double whitespace and no outer whitespace |
| Cleaning.SpaceBareBreaks | budged/parser.py:92 | first pass: a line break not after `,` or `.` becomes a space, every other character is kept |
| Cleaning.SpaceStopBreaks | budged/parser.py:93 | second pass: a line break after `,` or `.` becomes a space, every other character is kept |
| Cleaning.BreakPassesSpaceEveryBreak | budged/parser.py:92-93 | together the first two passes turn every line break into a space |
| Cleaning.CollapseSpacesNoDouble | budged/parser.py:94 | after the third pass no two whitespace characters are adjacent; the output is empty and starts with whitespace exactly when the input is and does |
| Cleaning.CollapseSpacesNonSpace | budged/parser.py:94 | the third pass keeps every non-whitespace character in order |
| Cleaning.CollapseSpacesKeeps | budged/parser.py:94 | text without double whitespace passes the third pass unchanged |
| Cleaning.CollapseSpacesGap | budged/parser.py:94 | two or more whitespace characters before a word become one space |
| Cleaning.CleanDetails | budged/parser.py:88-95 | the cleaned text has no line break, no double whitespace and no outer whitespace; None and "" give "" |
| Cleaning.CleanDetailsIdempotent | budged/parser.py:88-95 | cleaning twice gives the same text as cleaning once |
| Cleaning.CleanDetailsKeepsClean | budged/parser.py:88-95 | text that is already clean passes unchanged |
| Cleaning.CleanDetailsUnwraps | budged/parser.py:92-95 | when replacing the line breaks by spaces leaves clean text, cleaning gives exactly that text |
| Cleaning.CleanDetailsMidWordBreak | tests/test_pdf_parser.py:22-23 | `"Halyk Bank of Ka\nzakhstan"` cleans to `"Halyk Bank of Ka zakhstan"` |
| Cleaning.CleanDetailsBreakAfterComma | tests/test_pdf_parser.py:25-26 | `"MCC: 5814,\nAPPLE PAY"` cleans to `"MCC: 5814, APPLE PAY"` |
| Cleaning.CleanJoin | budged/parser.py:94-95 | two texts that cleaning leaves unchanged, joined by one space, are again left unchanged |
| Cleaning.CleanDetailsBreakBetween | budged/parser.py:88-95 | two such texts joined by a line break clean to the texts joined by a space, whatever character precedes the break |
| Cleaning.CollapseSpacesGaps | budged/parser.py:94 | three words separated by runs of two or more whitespace characters collapse to the words separated by single spaces |
| Cleaning.CleanDetailsGaps | budged/parser.py:88-95 | three words separated by runs of two or more whitespace characters other than line breaks clean to the words separated by single spaces |
| Cleaning.CleanDetailsCollapsesSpaces | tests/test_pdf_parser.py:28-29 | `"too  many   spaces"` cleans to `"too many spaces"` |
| Cleaning.CleanDetailsReceiverUnchanged | tests/test_pdf_parser.py:37-39 | a receiver line is already clean and passes unchanged |
| DetailsParser.FoldCase | budged/parser.py:32 | the definition of the `re.IGNORECASE` folding of the label letters, ASCII and Cyrillic capitals; DetailsParser.MccAtMeaning is stated with it |
| DetailsParser.SkipSpaces | budged/parser.py:32 | `\s*` consumes from `q` to a position no earlier than `q` and no later than the end |
| DetailsParser.SkipSpacesTo | budged/parser.py:32 | when the text from `q` to `r` is whitespace and the character at `r` is not, `\s*` from `q` stops exactly at `r` |
| DetailsParser.ReceiverAt | budged/parser.py:52 | the definition of `Receiver:\s*([\d\*]+)` matched at a position; DetailsParser.ReceiverAtMeaning proves what it captures |
| DetailsParser.AccountAtRun | budged/parser.py:52 | `([\d\*]+)` captures the whole run of digits and asterisks that starts at the position |
| DetailsParser.Search | budged/parser.py:32-34 | `re.search` finds nothing exactly when the pattern matches at no position, and otherwise returns the match at the first position where it matches |
| DetailsParser.MccAt | budged/parser.py:32 | an MCC match is exactly four digits |
| DetailsParser.AccountAt | budged/parser.py:52 | `[\d\*]+` captures a non-empty run of digits and asterisks |
| DetailsParser.MccAtMeaning | budged/parser.py:32-34 | after an `MCC:` or `МСС:` label (any case) and whitespace, the pattern captures the next four characters exactly when they are digits |
| DetailsParser.ReceiverAtMeaning | budged/parser.py:52-54 | after `Receiver:` and whitespace, the pattern captures the whole run of digits and asterisks |
| DetailsParser.AnyKeyword | budged/parser.py:48 | `any(kw in s for kw in keywords)` holds exactly when some keyword occurs in the text |
| DetailsParser.FirstBank | budged/parser.py:39-50 | no bank is found exactly when no bank's keywords occur; otherwise the bank is the first in order whose keywords occur |
| DetailsParser.FirstBankAt | budged/parser.py:47-50 | a bank whose keywords occur, with no earlier bank's keywords occurring, is the one chosen |
| DetailsParser.FindBank | budged/parser.py:47-50 | the bank loop with its early `break` returns that first bank |
| DetailsParser.DetailsOf | budged/parser.py:21-60 | the raw text is stripped; the MCC is the first MCC match; the wallet is "APPLE PAY" exactly when the upper-cased text contains it; the bank is the first bank whose keywords occur; the receiver is the first receiver match; there is a merchant exactly when the text has a comma and no receiver, and it is the stripped text before the first comma |
| DetailsParser.ParseDetails | budged/parser.py:21-60 | the field-by-field fill of the record computes exactly those fields |
| DetailsParser.ReceiverExcludesMerchant | budged/parser.py:52-58 | a details text never yields both a receiver account and a merchant |
| DetailsParser.ReceiverDetails | budged/parser.py:52-58 | `Receiver: ` and a masked account yield that account and no merchant |
| Records.ParseRow | budged/parser.py:63-70 | a record's date and description carry no outer whitespace |
| Records.ParseRowExclusive | budged/parser.py:63-70 | no record has both a receiver account and a merchant |
| Records.ParseTransactions | budged/parser.py:73-75 | there is one record per raw row |
| Records.ParseTransactionsConcat | budged/parser.py:73-75 | parsing a statement in two pieces gives the records of the whole, in order |
| Records.TransferRow | budged/parser.py:63-70 | a transfer row keeps its date, reads its amount with `parse_sum`, and has the receiver account and no merchant |
| Records.FirstSampleRow | tools/forte_generator.py:15 | the first sample row is a transfer of -30000.00 to account `440043******8791` |
| Categories.AllTo | budged/categories.py:75-76 | the definition of the inner loop's effect: every name of one group sent to that group; Categories.BuildNameToGroup proves the loop computes it |
| Categories.InverseIndex | budged/categories.py:73-76 | the definition of the index the two loops build; Categories.InverseIndexDomain, InverseIndexLast and InverseIndexValue prove what it holds |
| Categories.InverseIndexDomain | budged/categories.py:73-76 | a name is indexed exactly when some group lists it |
| Categories.InverseIndexLast | budged/categories.py:73-76 | a name is indexed to the group that lists it last |
| Categories.InverseIndexValue | budged/categories.py:73-76 | every indexed name maps to a group that lists it and that no later group lists |
| Categories.BuildNameToGroup | budged/categories.py:73-76 | the nested assignment loop builds exactly that index |
| Categories.Mcc2NameCodes | budged/categories.py:3-29 | every code of `mcc2name` is four digits |
| Categories.GroupsDisjoint | budged/categories.py:31-71 | no category name is listed under two groups |
| Categories.NameToGroupAt | budged/categories.py:31-76 | `name_to_group` sends each listed name to the group that lists it |
| Categories.NameToGroupDomainRange | budged/categories.py:73-76 | the names of `name_to_group` are those the groups list, and its values are group names |
| Categories.NamesListed | budged/categories.py:3-71 | every name of `mcc2name` is listed under some group |
| Categories.KnownNamesGrouped | budged/categories.py:3-76 | every name of `mcc2name` has a group in `name_to_group` |
| Categories.SentinelsUngrouped | budged/categories.py:31-76 | "No MCC" and "Unknown/No MCC" are not names of `name_to_group` |
| Categories.GroupsNotFallback | budged/categories.py:31-76 | no name is grouped under "Other Uncategorized" |
| Dict.Get | budged/aggregator.py:23-26 | the definition of `d[k]` on a `defaultdict(float)`, 0 for a missing key; Dict.AddGet proves how `d[k] += v` changes it |
| Dict.Add | budged/aggregator.py:23-26 | `d[k] += v` keeps the table's length when the key is present and adds one entry when it is new |
| Dict.AddGet | budged/aggregator.py:23-26 | `d[k] += v` adds `v` to the value of `k` and changes no other value |
| Dict.AddTotal | budged/aggregator.py:23-26 | `d[k] += v` adds `v` to the sum of the values |
| Dict.AddKeys | budged/aggregator.py:23-26 | an existing key keeps every entry in place; a new key is appended at the end |
| Dict.AddUnique | budged/aggregator.py:23-26 | `d[k] += v` keeps the keys unique |
| Aggregator.CategoryName | budged/aggregator.py:19-20 | the definition of the category rule; Aggregator.CategoryNameCases proves each of its three cases as an iff |
| Aggregator.Post | budged/aggregator.py:22-26 | the definition of one pass of the posting loop; Aggregator.ByCategoryGet, ByCategoryKeys and ByCategoryTotal prove what the passes build |
| Aggregator.ByCategory | budged/aggregator.py:15-28 | the definition of the category table; Aggregator.GroupByDescriptionAndMcc computes it and Aggregator.ByCategoryGet, ByCategoryKeys and ByCategoryTotal prove its entries, keys and total |
| Aggregator.GroupName | budged/aggregator.py:41-44 | the definition of the roll-up rule; Aggregator.GroupOfCategory proves when it falls back to "Other Uncategorized" and "Transfers/Other" |
| Aggregator.Regroup | budged/aggregator.py:38-47 | the definition of the roll-up table; Aggregator.GroupByDescriptionAndMccGroup computes it and Aggregator.RegroupGet and RegroupTotal prove its entries and total |
| Aggregator.SumOf | budged/aggregator.py:61-73 | the reference sum of the amounts of the records a selection picks; the totals of Aggregator.ComputePurchaseTotals and the footers of both reports are stated with it |
| Aggregator.CategoryNameCases | budged/aggregator.py:19-20 | the category is "No MCC" exactly when the MCC is None or empty, "Unknown/No MCC" exactly when it is an unknown non-empty code, and the code's name otherwise |
| Aggregator.GroupByDescriptionAndMcc | budged/aggregator.py:8-28 | the posting loop builds the category table of the records |
| Aggregator.ByCategoryGet | budged/aggregator.py:17-26 | each entry holds the sum of the records posted to it |
| Aggregator.SavedEntry | budged/aggregator.py:22-24 | the "Saved with bonuses" entry of a category is the sum of that category's bonus purchases (and of any record described "Saved with bonuses") |
| Aggregator.ByCategoryKeys | budged/aggregator.py:22-26 | the keys are unique and none has the description "Purchase with bonuses" |
| Aggregator.ByCategoryTotal | budged/aggregator.py:22-26 | the values add up to the sum of all amounts plus the sum of the bonus purchases |
| Aggregator.GroupOfCategory | budged/aggregator.py:40-45 | a record lands in "Other Uncategorized" exactly when its MCC is an unknown non-empty code; one without an MCC lands in "Transfers/Other" |
| Aggregator.GroupByDescriptionAndMccGroup | budged/aggregator.py:31-47 | the roll-up loop re-keys the category table by group |
| Aggregator.RegroupGet | budged/aggregator.py:40-45 | each group entry is the sum of the category entries rolled into it |
| Aggregator.RegroupTotal | budged/aggregator.py:37-47 | the roll-up conserves the total |
| Aggregator.ComputePurchaseTotals | budged/aggregator.py:50-81 | the grand total is the sum of all amounts, income the sum of the positive ones, bonuses those of the bonus purchases, purchases those of the purchases and bonus purchases, and net = purchases - bonuses |
| Aggregator.IncomeBounds | budged/aggregator.py:61-67 | income is never negative and never below the grand total |
| Aggregator.NetPurchases | budged/aggregator.py:69-78 | the net equals the sum of the amounts described exactly "Purchase" |
| Sorting.StrLess | budged/formatter.py:113 | the definition of `<` on strings, code point by code point with a proper prefix first; Sorting.StrLessIrreflexive, StrLessTransitive and StrLessTotal prove it a strict total order |
| Sorting.StrLessIrreflexive | budged/formatter.py:113 | no string is less than itself |
| Sorting.StrLessTransitive | budged/formatter.py:113 | string order is transitive |
| Sorting.StrLessTotal | budged/formatter.py:113 | any two different strings are ordered |
| Sorting.AtomLess | budged/formatter.py:15-19 | the definition of `<` on key components, numbers first for mixed pairs (admitted under Left out); Sorting.AtomLessOrder proves it a strict total order |
| Sorting.AtomLessOrder | budged/formatter.py:15-19 | key components are ordered irreflexively, transitively and totally |
| Sorting.KeyLess | budged/formatter.py:15-19 | the definition of `<` on tuples and lists; Sorting.KeyLessIrreflexive, KeyLessTransitive and KeyLessTotal prove it a strict total order |
| Sorting.Insert | budged/formatter.py:69 | the definition of one insertion step; Sorting.InsertShape proves where the element lands |
| Sorting.SortBy | budged/formatter.py:69 | the definition of `sorted(s, key=key)` as a stable insertion sort; Sorting.SortBySorted, SortByPermutation and SortByStable prove it ordered, a permutation and stable |
| Sorting.KeyLessIrreflexive | budged/formatter.py:15-19 | keys, compared like tuples, are never less than themselves |
| Sorting.KeyLessTransitive | budged/formatter.py:15-19 | the key order is transitive |
| Sorting.KeyLessTotal | budged/formatter.py:15-19 | any two different keys are ordered |
| Sorting.InsertShape | budged/formatter.py:69 | an insertion puts the element after exactly the elements with a smaller key |
| Sorting.SortBySorted | budged/formatter.py:69 | `sorted` output has no key smaller than an earlier one |
| Sorting.SortByPermutation | budged/formatter.py:69 | `sorted` output is a permutation of its input |
| Sorting.SortByStable | budged/formatter.py:69 | elements with equal keys keep their input order |
| AsciiTable.Stringify | budged/formatter.py:22-27 | the definition of `_stringify`: a string as itself, a float through the `:,.2f` rendering, None as ""; AsciiTable.StringRows keeps the shape of the rows |
| AsciiTable.Fits | budged/formatter.py:34-36 | the definition of the condition under which the width loop does not index past `col_widths`; AsciiTable.ColumnWidths and FormatAsciiTable return None exactly when it fails |
| AsciiTable.ColumnWidth | budged/formatter.py:33-36 | the definition of a column's width; AsciiTable.ColumnWidthIsMax proves it is the maximum of the header and cell lengths |
| AsciiTable.Widths | budged/formatter.py:33-36 | there is one width per header |
| AsciiTable.Sep | budged/formatter.py:38-39 | the definition of `sep(left, mid, right)`; AsciiTable.SepWidth proves its length |
| AsciiTable.LJust | budged/formatter.py:47 | the definition of `s.ljust(w)`; AsciiTable.JustLength proves it pads with spaces on the right to the width |
| AsciiTable.RJust | budged/formatter.py:45 | the definition of `s.rjust(w)`; AsciiTable.JustLength proves it pads with spaces on the left to the width |
| AsciiTable.WithoutPunctuation | budged/formatter.py:44 | `replace(",", "").replace(".", "").replace("-", "")` never lengthens the text; AsciiTable.NumericLookingMeaning proves what it leaves |
| AsciiTable.NumericLooking | budged/formatter.py:44 | the definition of the right-alignment test; AsciiTable.NumericLookingMeaning proves it holds exactly for digits and punctuation with at least one digit |
| AsciiTable.Align | budged/formatter.py:44-47 | the definition of the alignment rule of `data_line`; AsciiTable.DataLine applies it cell by cell |
| AsciiTable.DataLineOf | budged/formatter.py:41-48 | the definition of the line `data_line` draws; AsciiTable.DataLine computes it and AsciiTable.DataLineWidth proves its width |
| AsciiTable.TitleLines | budged/formatter.py:51-52 | the definition of the title line, present only for a non-empty title; AsciiTable.TableLineCount counts it |
| AsciiTable.TableLines | budged/formatter.py:50-59 | the definition of the table's lines; AsciiTable.FormatAsciiTable joins them and AsciiTable.TableLineCount, TableLinesWidth and TableLinesNoHeaders prove their number and widths |
| AsciiTable.StringRows | budged/formatter.py:32 | stringifying keeps the number of rows and of cells in each row |
| AsciiTable.ColumnWidthIsMax | budged/formatter.py:32-36 | a column's width is at least its header's length and every cell's length, and equals one of them |
| AsciiTable.ColumnWidths | budged/formatter.py:32-36 | the width loop fails (IndexError) exactly when a row has more cells than there are headers, and otherwise computes those widths |
| AsciiTable.SepWidth | budged/formatter.py:38-39 | a border line is `sum(w+3)+1` characters long |
| AsciiTable.JustLength | budged/formatter.py:45-47 | `ljust`/`rjust` keep the text at its side, pad with spaces and reach the width |
| AsciiTable.NumericLookingMeaning | budged/formatter.py:44 | a cell is right-aligned exactly when it is made of digits, commas, points and minus signs and has at least one digit |
| AsciiTable.DataLine | budged/formatter.py:41-48 | the cell-by-cell loop draws the data line of the cells |
| AsciiTable.DataLineWidth | budged/formatter.py:41-48 | a full row of cells no wider than their columns gives a line `sum(w+3)+1` long |
| AsciiTable.RowLines | budged/formatter.py:56-57 | the row loop draws a data line per row, in order |
| AsciiTable.FormatAsciiTable | budged/formatter.py:30-59 | there is no table exactly when a row is longer than the headers; otherwise the table is the title, the top border, the header line, the middle border, a line per row and the bottom border, joined by newlines |
| AsciiTable.TableLineCount | budged/formatter.py:50-59 | the table has `len(rows)+4` lines, plus one when there is a title |
| AsciiTable.TableLinesWidth | budged/formatter.py:38-59 | with at least one header and a cell per header in every row, every line below the title is `sum(w+3)+1` characters long |
| AsciiTable.TableLinesNoHeaders | budged/formatter.py:38-48 | with no headers (and no cells) the top border is 2 characters long and the header line 4, so the lines differ in width |
| Formatter.ItemKey | budged/formatter.py:15-19 | the definition of `_sort_key`: `(desc, category)` for "name", `(total,)` otherwise; Formatter.SortedItemsOrder proves the order it gives |
| Formatter.SortedItems | budged/formatter.py:69 | the definition of the sorted entries; Formatter.SortedItemsOrder proves them a stable, ordered permutation of the table |
| Formatter.DisplayItems | budged/formatter.py:75-81 | the definition of the displayed entries; Formatter.DisplayItemsMembers proves which entries they are |
| Formatter.DescTotal | budged/formatter.py:75-80 | the definition of the loop's running total for one description; Formatter.AggregatedTotals proves the purchase and bonus totals against the records |
| Formatter.SortedTitle | budged/formatter.py:90 | the definition of `f"{title} (sorted by {sort_by})"` |
| Formatter.ItemLine | budged/formatter.py:94 | the definition of one line of the plain aggregation report |
| Formatter.AggregatedFooter | budged/formatter.py:95-98 | the definition of the plain aggregation footer, whose net is purchases plus bonuses; Formatter.AggregatedNet proves what that adds up to |
| Formatter.AggregatedText | budged/formatter.py:92-99 | the definition of the plain aggregation report's lines; Formatter.AggregatedTextLines computes them |
| Formatter.AggregatedReport | budged/formatter.py:62-99 | the definition of what `format_aggregated` returns; Formatter.FormatAggregated computes it |
| Formatter.Reversed | budged/formatter.py:109 | the definition of `[::-1]` on the date parts; Formatter.DateKeyParts proves its effect on a date |
| Formatter.DateKey | budged/formatter.py:109 | the definition of the date sort key; Formatter.DateKeyParts proves that `d.m.y` sorts by `[y, m, d]` |
| Formatter.AmountKey | budged/formatter.py:111 | the definition of the sum sort key; Formatter.RawSortedOrder proves the sum order |
| Formatter.DescriptionKey | budged/formatter.py:113 | the definition of the name sort key; Formatter.RawSortedOrder proves the name order |
| Formatter.RawSorted | budged/formatter.py:108-115 | the definition of the raw report's order; Formatter.RawSortedOrder proves it a permutation, sorted and stable for the three sorts and the input for any other |
| Formatter.Last4 | budged/formatter.py:136 | the definition of `receiver[-4:]`, the whole text when it is shorter; Formatter.TransferLine uses it |
| Formatter.Label | budged/formatter.py:134-138 | the definition of the label rule; Formatter.TransferLine proves it for every transfer row |
| Formatter.RawLines | budged/formatter.py:122-139 | there is one display row per record; Formatter.RawLinesShown proves the rows the same for every sort |
| Formatter.Suffix | budged/formatter.py:153 | the definition of `f"{label} [{mcc}]" if mcc else label or "—"` |
| Formatter.RawTextLine | budged/formatter.py:154 | the definition of one line of the plain raw report |
| Formatter.RawFooter | budged/formatter.py:155-159 | the definition of the plain raw footer, whose net is purchases minus bonuses; Formatter.RawTotals proves its totals |
| Formatter.RawText | budged/formatter.py:151-160 | the definition of the plain raw report's lines; Formatter.RawTextLines computes them |
| Formatter.RawReport | budged/formatter.py:102-160 | the definition of what `format_raw_report` returns; Formatter.FormatRawReport computes it |
| Formatter.SortedItemsOrder | budged/formatter.py:15-19 | the shown entries are a permutation of the table, ascending by total, or by description and then category for "name", with ties in table order |
| Formatter.DisplayItemsMembers | budged/formatter.py:75-81 | an entry is displayed exactly when the table holds it and its description is not "Saved with bonuses" |
| Formatter.DescTotalSorted | budged/formatter.py:69-81 | sorting does not change the total of any description |
| Formatter.DescTotalAdd | budged/aggregator.py:23-26 | `d[k] += v` adds `v` to the total of `k`'s description only |
| Formatter.ByCategoryDescTotals | budged/aggregator.py:22-26 | in the category table the "Purchase" entries add up to the purchases and bonus purchases, and the "Saved with bonuses" entries to the bonus purchases (and any record so described) |
| Formatter.RegroupDescTotal | budged/aggregator.py:40-45 | the roll-up to groups keeps the total of every description |
| Formatter.AggregatedRows | budged/formatter.py:84-89 | the box rows are one per displayed entry plus four footer rows, all three cells wide |
| Formatter.FormatAggregated | budged/formatter.py:62-99 | the loop sets "Saved with bonuses" aside into the bonus total, sums "Purchase", displays the rest in sorted order, and the report has the box or text layout |
| Formatter.AggregatedTextLines | budged/formatter.py:92-98 | the plain branch gives the heading, a line per displayed entry and the footer |
| Formatter.AggregatedTotals | budged/formatter.py:75-81 | for the category table of the records and for its roll-up, the purchase total is the sum of purchases and bonus purchases, and the bonus total that of the bonus purchases |
| Formatter.AggregatedNet | budged/formatter.py:89-98 | without records described "Saved with bonuses", the net line comes to the purchases plus twice the bonus purchases |
| Formatter.DateKeyParts | budged/formatter.py:109 | a date `d.m.y` sorts by `[y, m, d]` |
| Formatter.RawSortedOrder | budged/formatter.py:108-115 | the shown records are a permutation of the records; an unknown `sort_by` keeps the input order; "sum" is ascending by amount, "date" by the date key, "name" by description and then raw details; every sort is stable |
| Formatter.SumOfSorted | budged/formatter.py:108-131 | sorting changes no sum over the records |
| Formatter.RawLineOf | budged/formatter.py:123-139 | the shown type is never "Purchase with bonuses", and it is "Purchase" exactly when the record is a purchase or a bonus purchase |
| Formatter.RawLinesShown | budged/formatter.py:122-139 | the report shows exactly one row per record, whatever the sort |
| Formatter.RawRows | budged/formatter.py:142-148 | the box rows are one per record plus five footer rows, all five cells wide |
| Formatter.ShowRecords | budged/formatter.py:117-139 | the loop's totals are the sums over purchases and bonus purchases, over bonus purchases and over all records, and it builds a display row per record |
| Formatter.FormatRawReport | budged/formatter.py:102-160 | the report is the box table or the text lines of those rows and totals |
| Formatter.RawTextLines | budged/formatter.py:151-160 | the plain branch gives the heading, a line per record and the footer |
| Formatter.RawTotals | budged/formatter.py:117-148 | the footer totals do not depend on the sort: grand = all amounts, bonuses = bonus purchases, purchases = purchases and bonus purchases, net = the amounts described "Purchase" |
| Formatter.TransferLine | budged/formatter.py:134-136 | a transfer to an account is labelled `card *` and the account's last four characters |

The constant tables are Categories.Mcc2Name (`mcc2name`,
`budged/categories.py:3-29`), Categories.MccGroups (`mcc_groups`,
`budged/categories.py:31-71`), Categories.NameToGroup (`name_to_group`,
`budged/categories.py:73-76`, defined as `InverseIndex(MccGroups)`) and
DetailsParser.BankKeywords (`bank_keywords`, `budged/parser.py:39-46`, in the
dictionary's order). Their properties are the Categories lemmas above and
DetailsParser.FirstBank.

## Left out

- `parse_pdf` (`budged/parser.py:98-123`) is not modelled: it reads a PDF file with pdfplumber. Its per-row logic is `_is_data_row` and `_clean_details`, which are modelled.
- `mcp_server.py`, `reporter.py` and `tools/forte_generator.py` are not part of this model. They are a JSON-RPC tool server, a command line with printing, and a PDF writer. Only the generator's sample rows are used, as data.
- `REPORT_RAW`, `REPORT_MCC` and `REPORT_GROUP` are used only by the command line and the tool server, so they are left out.
- `float` arithmetic and rounding are not modelled: amounts are exact reals.
- The text renderings `:,.2f` and `.2f` are the parameters `render` and `fixed`, so their digits are not modelled.
- `_stringify`'s `str(value)` for cells that are neither strings nor floats is left out, because the reports only build string and float cells.
- Regular expressions are hand-written scanners. `\s`, like `str.strip()`, is Python's full whitespace set (Text.IsSpace). `upper()` and `re.IGNORECASE` fold only the ASCII letters and the letters of the Cyrillic MCC label. `$` matching before a trailing newline is not modelled. No cell reaches the patterns with a trailing newline, because cells are stripped first.
- Text.IsDigit: digits are the ASCII digits `0`-`9`. Python's `\d` in the patterns of `budged/parser.py:8-9`, `14`, `32` and `52` also matches the decimal digits of other scripts, such as `٣`, and `float()` reads them. So a cell written in such digits is not a transaction row, keeps no digits through `parse_sum`, and gives no MCC in the model.
- AsciiTable.NumericLookingMeaning: its digit is an ASCII digit. `str.isdigit()` at `budged/formatter.py:44` also accepts other Unicode digits, such as `²` or `٣`, so a cell made of those is right-aligned by the source and left-aligned in the model.
- Sorting.AtomLess: where Python would raise `TypeError` on comparing a number with a string, a number is put first to make the order total. No sort key of the reports mixes them.
- The `defaultdict` type, and `dict(...)` copying it, are not modelled separately: both are the same insertion-ordered table.
- Records.ParseRow: its contract states only the stripping fact. The other fields are read off the body and proved in Records.TransferRow and DetailsParser.DetailsOf.
- Formatter.TransferLine: the concrete label `card *8791` of the first sample row is not proved as a separate lemma; the lemma covers every transfer row.
