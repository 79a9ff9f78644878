/** `format_aggregated` and `format_raw_report` of budged/formatter.py: the
    reports drawn from an aggregation table and from the parsed records.
    The two renderings of a float are parameters: `render` for `:,.2f`
    (the table cells) and `fixed` for `.2f` (the plain text lines). */
module Formatter {
  import opened Wrappers
  import opened Text
  import opened DetailsParser
  import opened Records
  import opened Dict
  import opened Aggregator
  import opened Sorting
  import opened AsciiTable

  const SortBySum: string := "sum"
  const SortByName: string := "name"
  const SortByDate: string := "date"

  const FmtSimple: string := "simple"
  const FmtAscii: string := "ascii"

  /** An entry of an aggregation table. */
  type Item = (Key, real)

  function ItemNameKey(item: Item): SortKey { [S(item.0.0), S(item.0.1)] }

  function ItemSumKey(item: Item): SortKey { [N(item.1)] }

  /** `_sort_key`: `(desc, category)` for "name", `(total,)` for any other
      sort. */
  function ItemKey(sortBy: string): Item -> SortKey {
    if sortBy == SortByName then ItemNameKey else ItemSumKey
  }

  /** The entries in the order `format_aggregated` shows them. */
  function SortedItems(agg: Table<Key>, sortBy: string): seq<Item> {
    SortBy(agg, ItemKey(sortBy))
  }

  /** The entries are a permutation of the table, ascending by total, or
      by description and then category for "name"; entries with the same
      key keep the order of the table. */
  lemma SortedItemsOrder(agg: Table<Key>, sortBy: string, k: SortKey)
    ensures multiset(SortedItems(agg, sortBy)) == multiset(agg)
    ensures sortBy != SortByName ==>
              forall i, j :: 0 <= i < j < |SortedItems(agg, sortBy)| ==>
                SortedItems(agg, sortBy)[i].1 <= SortedItems(agg, sortBy)[j].1
    ensures sortBy == SortByName ==>
              forall i, j :: 0 <= i < j < |SortedItems(agg, sortBy)| ==>
                var (a, b) := (SortedItems(agg, sortBy)[i].0, SortedItems(agg, sortBy)[j].0);
                !StrLess(b.0, a.0) && (b.0 == a.0 ==> !StrLess(b.1, a.1))
    ensures WithKey(SortedItems(agg, sortBy), ItemKey(sortBy), k) == WithKey(agg, ItemKey(sortBy), k)
  {
    var key := ItemKey(sortBy);
    var s := SortedItems(agg, sortBy);
    SortByPermutation(agg, key);
    SortBySorted(agg, key);
    SortByStable(agg, key, k);
    forall i, j | 0 <= i < j < |s| ensures !KeyLess(key(s[j]), key(s[i])) {
    }
    if sortBy != SortByName {
      forall i, j | 0 <= i < j < |s| ensures s[i].1 <= s[j].1 {
        assert !KeyLess([N(s[j].1)], [N(s[i].1)]);
      }
    } else {
      forall i, j | 0 <= i < j < |s|
        ensures !StrLess(s[j].0.0, s[i].0.0) && (s[j].0.0 == s[i].0.0 ==> !StrLess(s[j].0.1, s[i].0.1))
      {
        assert !KeyLess([S(s[j].0.0), S(s[j].0.1)], [S(s[i].0.0), S(s[i].0.1)]);
        if s[j].0.0 == s[i].0.0 {
          assert !KeyLess([S(s[j].0.1)], [S(s[i].0.1)]);
        }
      }
    }
  }

  /** A displayed entry: description, category and total. */
  type Shown = (string, string, real)

  /** The entries `format_aggregated` displays: all but those described
      "Saved with bonuses", in order. */
  function DisplayItems(items: seq<Item>): seq<Shown> {
    if items == [] then []
    else
      var last := items[|items| - 1];
      DisplayItems(items[..|items| - 1]) + (if last.0.0 == SavedWithBonuses then [] else [(last.0.0, last.0.1, last.1)])
  }

  /** The total of the entries described `desc`. */
  function DescTotal(items: seq<Item>, desc: string): real {
    if items == [] then 0.0
    else DescTotal(items[..|items| - 1], desc) + (if items[|items| - 1].0.0 == desc then items[|items| - 1].1 else 0.0)
  }

  /** An entry is displayed exactly when the items hold it and it is not
      described "Saved with bonuses". */
  lemma {:induction false} DisplayItemsMembers(items: seq<Item>, x: Shown)
    ensures x in DisplayItems(items) <==> x.0 != SavedWithBonuses && ((x.0, x.1), x.2) in items
  {
    if items != [] {
      var init := items[..|items| - 1];
      DisplayItemsMembers(init, x);
      assert items == init + [items[|items| - 1]];
    }
  }

  lemma {:induction false} DescTotalConcat(a: seq<Item>, b: seq<Item>, desc: string)
    ensures DescTotal(a + b, desc) == DescTotal(a, desc) + DescTotal(b, desc)
  {
    if b != [] {
      DescTotalConcat(a, b[..|b| - 1], desc);
      assert (a + b)[..|a + b| - 1] == a + b[..|b| - 1];
    } else {
      assert a + b == a;
    }
  }

  /** Sorting does not change the total of a description. */
  lemma {:induction false} DescTotalSorted(s: seq<Item>, key: Item -> SortKey, desc: string)
    ensures DescTotal(SortBy(s, key), desc) == DescTotal(s, desc)
  {
    if s != [] {
      var r := SortBy(s[1..], key);
      DescTotalSorted(s[1..], key, desc);
      var k := InsertShape(s[0], r, key);
      DescTotalConcat(r[..k] + [s[0]], r[k..], desc);
      DescTotalConcat(r[..k], [s[0]], desc);
      DescTotalConcat(r[..k], r[k..], desc);
      assert r == r[..k] + r[k..];
      DescTotalConcat([s[0]], s[1..], desc);
      assert s == [s[0]] + s[1..];
    }
  }

  /** Adding to an entry adds to the total of its description. */
  lemma {:induction false} DescTotalAdd(t: Table<Key>, k: Key, v: real, desc: string)
    ensures DescTotal(Add(t, k, v), desc) == DescTotal(t, desc) + (if k.0 == desc then v else 0.0)
  {
    if t == [] {
    } else {
      DescTotalConcat([t[0]], t[1..], desc);
      assert t == [t[0]] + t[1..];
      if t[0].0 == k {
        DescTotalConcat([(k, t[0].1 + v)], t[1..], desc);
      } else {
        DescTotalAdd(t[1..], k, v, desc);
        DescTotalConcat([t[0]], Add(t[1..], k, v), desc);
      }
    }
  }

  /** In the category table, the "Purchase" entries hold the purchases and
      the bonus purchases, and the "Saved with bonuses" entries the bonus
      purchases (and any record described "Saved with bonuses"). */
  lemma {:induction false} ByCategoryDescTotals(rows: seq<Transaction>)
    ensures DescTotal(ByCategory(rows), PlainPurchase) == SumOf(rows, PurchaseOrBonus)
    ensures DescTotal(ByCategory(rows), SavedWithBonuses) == SumOf(rows, SavedOrBonus)
  {
    if rows != [] {
      var init, row := rows[..|rows| - 1], rows[|rows| - 1];
      ByCategoryDescTotals(init);
      var t, name := ByCategory(init), CategoryName(row.details.mcc);
      if row.description == BonusPurchase {
        DescTotalAdd(t, (PlainPurchase, name), row.amount, PlainPurchase);
        DescTotalAdd(t, (PlainPurchase, name), row.amount, SavedWithBonuses);
        var t' := Add(t, (PlainPurchase, name), row.amount);
        DescTotalAdd(t', (SavedWithBonuses, name), row.amount, PlainPurchase);
        DescTotalAdd(t', (SavedWithBonuses, name), row.amount, SavedWithBonuses);
      } else {
        DescTotalAdd(t, (row.description, name), row.amount, PlainPurchase);
        DescTotalAdd(t, (row.description, name), row.amount, SavedWithBonuses);
      }
    }
  }

  /** The roll-up to groups keeps the total of every description. */
  lemma {:induction false} RegroupDescTotal(base: Table<Key>, desc: string)
    ensures DescTotal(Regroup(base), desc) == DescTotal(base, desc)
  {
    if base != [] {
      var last := base[|base| - 1];
      RegroupDescTotal(base[..|base| - 1], desc);
      DescTotalAdd(Regroup(base[..|base| - 1]), (last.0.0, GroupName(last.0.1)), last.1, desc);
    }
  }

  /** `f"{title} (sorted by {sort_by})"`. */
  function SortedTitle(title: string, sortBy: string): string {
    title + " (sorted by " + sortBy + ")"
  }

  const AggregatedHeaders: seq<string> := ["Description", "Category", "Sum (KZT)"]

  /** The table rows of `format_aggregated`: an entry per displayed item,
      a blank row and the three totals; the net is purchases plus
      bonuses. */
  function AggregatedRows(display: seq<Shown>, purchase: real, bonuses: real): (rows: seq<seq<Cell>>)
    ensures |rows| == |display| + 4 && forall k :: 0 <= k < |rows| ==> |rows[k]| == 3
  {
    seq(|display|, k requires 0 <= k < |display| => [Text(display[k].0), Text(display[k].1), Amount(display[k].2)]) +
    [[Text(""), Text(""), Text("")],
     [Text("Total purchases"), Text(""), Amount(purchase)],
     [Text("Saved with bonuses"), Text(""), Amount(bonuses)],
     [Text("Net purchases"), Text(""), Amount(purchase + bonuses)]]
  }

  /** `f"  ({desc}, {category}): {total:.2f} KZT"`. */
  function ItemLine(x: Shown, fixed: real -> string): string {
    "  (" + x.0 + ", " + x.1 + "): " + fixed(x.2) + " KZT"
  }

  /** The footer of the plain text aggregation report. */
  function AggregatedFooter(purchase: real, bonuses: real, fixed: real -> string): seq<string> {
    ["  " + Repeat('—', 40),
     "  Total purchases:        " + fixed(purchase) + " KZT",
     "  Saved with bonuses:     " + fixed(bonuses) + " KZT",
     "  Net purchases:          " + fixed(purchase + bonuses) + " KZT"]
  }

  /** The lines of the plain text aggregation report. */
  function AggregatedText(title: string, sortBy: string, display: seq<Shown>, purchase: real, bonuses: real,
                          fixed: real -> string): seq<string>
  {
    ["--- " + SortedTitle(title, sortBy) + " ---"] +
    seq(|display|, k requires 0 <= k < |display| => ItemLine(display[k], fixed)) +
    AggregatedFooter(purchase, bonuses, fixed)
  }

  /** The report `format_aggregated` returns. */
  function AggregatedReport(agg: Table<Key>, title: string, sortBy: string, fmt: string,
                            render: real -> string, fixed: real -> string): string
  {
    var items := SortedItems(agg, sortBy);
    var display := DisplayItems(items);
    var purchase, bonuses := DescTotal(items, PlainPurchase), DescTotal(items, SavedWithBonuses);
    if fmt == FmtAscii then
      var rows := AggregatedRows(display, purchase, bonuses);
      Join(TableLines(AggregatedHeaders, StringRows(rows, render), Some(SortedTitle(title, sortBy))), "\n")
    else
      Join(AggregatedText(title, sortBy, display, purchase, bonuses, fixed), "\n")
  }

  /** `format_aggregated`: walks the sorted entries, setting "Saved with
      bonuses" aside into its total and summing "Purchase". */
  method FormatAggregated(agg: Table<Key>, title: string, sortBy: string, fmt: string,
                          render: real -> string, fixed: real -> string) returns (report: string)
    ensures report == AggregatedReport(agg, title, sortBy, fmt, render, fixed)
  {
    var items := SortedItems(agg, sortBy);
    var purchase, bonuses := 0.0, 0.0;
    var display: seq<Shown> := [];
    for i := 0 to |items|
      invariant purchase == DescTotal(items[..i], PlainPurchase)
      invariant bonuses == DescTotal(items[..i], SavedWithBonuses)
      invariant display == DisplayItems(items[..i])
    {
      var (key, total) := items[i];
      var (desc, category) := key;
      assert items[..i + 1][..i] == items[..i];
      if desc == SavedWithBonuses {
        bonuses := bonuses + total;
        continue;
      }
      if desc == PlainPurchase {
        purchase := purchase + total;
      }
      display := display + [(desc, category, total)];
    }
    assert items[..|items|] == items;
    if fmt == FmtAscii {
      var rows := AggregatedRows(display, purchase, bonuses);
      var table := FormatAsciiTable(AggregatedHeaders, rows, Some(SortedTitle(title, sortBy)), render);
      report := table.value;
    } else {
      var lines := AggregatedTextLines(title, sortBy, display, purchase, bonuses, fixed);
      report := Join(lines, "\n");
    }
  }

  /** The plain text branch of `format_aggregated`: a line per displayed
      entry, then the footer. */
  method AggregatedTextLines(title: string, sortBy: string, display: seq<Shown>, purchase: real, bonuses: real,
                             fixed: real -> string) returns (lines: seq<string>)
    ensures lines == AggregatedText(title, sortBy, display, purchase, bonuses, fixed)
  {
    var heading := "--- " + SortedTitle(title, sortBy) + " ---";
    lines := [heading];
    for k := 0 to |display|
      invariant lines == [heading] + seq(k, j requires 0 <= j < k => ItemLine(display[j], fixed))
    {
      lines := lines + [ItemLine(display[k], fixed)];
    }
    lines := lines + AggregatedFooter(purchase, bonuses, fixed);
  }

  /** For the category table of the records, and for its roll-up to
      groups, the report's purchase total is the sum of the purchases and
      bonus purchases, and its bonus total the sum of the bonus purchases
      (and of any record described "Saved with bonuses"); so the net line,
      their sum, counts each bonus purchase twice. */
  lemma AggregatedTotals(rows: seq<Transaction>, sortBy: string)
    ensures DescTotal(SortedItems(ByCategory(rows), sortBy), PlainPurchase) == SumOf(rows, PurchaseOrBonus)
    ensures DescTotal(SortedItems(ByCategory(rows), sortBy), SavedWithBonuses) == SumOf(rows, SavedOrBonus)
    ensures DescTotal(SortedItems(Regroup(ByCategory(rows)), sortBy), PlainPurchase) == SumOf(rows, PurchaseOrBonus)
    ensures DescTotal(SortedItems(Regroup(ByCategory(rows)), sortBy), SavedWithBonuses) == SumOf(rows, SavedOrBonus)
  {
    var base := ByCategory(rows);
    ByCategoryDescTotals(rows);
    DescTotalSorted(base, ItemKey(sortBy), PlainPurchase);
    DescTotalSorted(base, ItemKey(sortBy), SavedWithBonuses);
    RegroupDescTotal(base, PlainPurchase);
    RegroupDescTotal(base, SavedWithBonuses);
    DescTotalSorted(Regroup(base), ItemKey(sortBy), PlainPurchase);
    DescTotalSorted(Regroup(base), ItemKey(sortBy), SavedWithBonuses);
  }

  /** Without records described "Saved with bonuses" itself, the net line
      of the aggregation report is the purchases plus twice the bonus
      purchases. */
  lemma {:induction false} AggregatedNet(rows: seq<Transaction>)
    requires forall i :: 0 <= i < |rows| ==> rows[i].description != SavedWithBonuses
    ensures SumOf(rows, PurchaseOrBonus) + SumOf(rows, SavedOrBonus) == SumOf(rows, Purchase) + 2.0 * SumOf(rows, Bonus)
  {
    if rows != [] {
      AggregatedNet(rows[..|rows| - 1]);
    }
  }

  /** The key of the date sort, `r["Date"].split(".")[::-1]`: the parts of
      the date, last first. */
  function DateKey(t: Transaction): SortKey {
    Reversed(Split(t.date, '.'))
  }

  function Reversed(parts: seq<string>): SortKey {
    if parts == [] then [] else Reversed(parts[1..]) + [S(parts[0])]
  }

  /** The key of the sum sort, `r["Sum"]`. */
  function AmountKey(t: Transaction): SortKey { [N(t.amount)] }

  /** The key of the name sort, `(r["Description"], r["Details"]["raw"])`. */
  function DescriptionKey(t: Transaction): SortKey { [S(t.description), S(t.details.raw)] }

  /** The records in the order `format_raw_report` shows them: by date, sum
      or name, and as given for any other `sort_by`. */
  function RawSorted(data: seq<Transaction>, sortBy: string): seq<Transaction> {
    if sortBy == SortByDate then SortBy(data, DateKey)
    else if sortBy == SortBySum then SortBy(data, AmountKey)
    else if sortBy == SortByName then SortBy(data, DescriptionKey)
    else data
  }

  /** A date `d.m.y` sorts by year, then month, then day. */
  lemma DateKeyParts(t: Transaction, d: string, m: string, y: string)
    requires '.' !in d && '.' !in m && '.' !in y
    requires t.date == d + "." + m + "." + y
    ensures DateKey(t) == [S(y), S(m), S(d)]
  {
    JoinThree(d, m, y);
    SplitJoin([d, m, y], '.');
    ReversedThree(d, m, y);
  }

  lemma JoinThree(d: string, m: string, y: string)
    ensures Join([d, m, y], ".") == d + "." + m + "." + y
  {
    assert [d, m, y][1..] == [m, y];
    assert Join([m, y], ".") == m + "." + y;
  }

  lemma ReversedThree(d: string, m: string, y: string)
    ensures Reversed([d, m, y]) == [S(y), S(m), S(d)]
  {
    assert [d, m, y][1..] == [m, y];
    assert [m, y][1..] == [y];
    assert Reversed([y]) == [S(y)];
  }

  /** The shown records are a permutation of the records; an unknown
      `sort_by` keeps their order; the sum sort is ascending by amount and
      the date sort ascending by date key; and every sort is stable. */
  lemma RawSortedOrder(data: seq<Transaction>, sortBy: string, k: SortKey)
    ensures multiset(RawSorted(data, sortBy)) == multiset(data)
    ensures sortBy !in {SortByDate, SortBySum, SortByName} ==> RawSorted(data, sortBy) == data
    ensures sortBy == SortBySum ==>
              forall i, j :: 0 <= i < j < |RawSorted(data, sortBy)| ==> RawSorted(data, sortBy)[i].amount <= RawSorted(data, sortBy)[j].amount
    ensures sortBy == SortByDate ==> Sorted(RawSorted(data, sortBy), DateKey)
    ensures sortBy == SortByName ==> Sorted(RawSorted(data, sortBy), DescriptionKey)
    ensures sortBy == SortBySum ==> WithKey(RawSorted(data, sortBy), AmountKey, k) == WithKey(data, AmountKey, k)
    ensures sortBy == SortByName ==> WithKey(RawSorted(data, sortBy), DescriptionKey, k) == WithKey(data, DescriptionKey, k)
    ensures sortBy == SortByDate ==> WithKey(RawSorted(data, sortBy), DateKey, k) == WithKey(data, DateKey, k)
  {
    if sortBy == SortByDate {
      SortByPermutation(data, DateKey);
      SortBySorted(data, DateKey);
      SortByStable(data, DateKey, k);
    } else if sortBy == SortBySum {
      var s := SortBy(data, AmountKey);
      SortByPermutation(data, AmountKey);
      SortBySorted(data, AmountKey);
      SortByStable(data, AmountKey, k);
      forall i, j | 0 <= i < j < |s| ensures s[i].amount <= s[j].amount {
        assert !KeyLess(AmountKey(s[j]), AmountKey(s[i]));
        assert !KeyLess([N(s[j].amount)], [N(s[i].amount)]);
      }
    } else if sortBy == SortByName {
      SortByPermutation(data, DescriptionKey);
      SortBySorted(data, DescriptionKey);
      SortByStable(data, DescriptionKey, k);
    }
  }

  lemma {:induction false} SumOfConcat(a: seq<Transaction>, b: seq<Transaction>, sel: Selection)
    ensures SumOf(a + b, sel) == SumOf(a, sel) + SumOf(b, sel)
  {
    if b != [] {
      SumOfConcat(a, b[..|b| - 1], sel);
      assert (a + b)[..|a + b| - 1] == a + b[..|b| - 1];
    } else {
      assert a + b == a;
    }
  }

  /** Sorting does not change any sum over the records. */
  lemma {:induction false} SumOfSorted(s: seq<Transaction>, key: Transaction -> SortKey, sel: Selection)
    ensures SumOf(SortBy(s, key), sel) == SumOf(s, sel)
  {
    if s != [] {
      var r := SortBy(s[1..], key);
      SumOfSorted(s[1..], key, sel);
      var k := InsertShape(s[0], r, key);
      SumOfConcat(r[..k] + [s[0]], r[k..], sel);
      SumOfConcat(r[..k], [s[0]], sel);
      SumOfConcat(r[..k], r[k..], sel);
      assert r == r[..k] + r[k..];
      SumOfConcat([s[0]], s[1..], sel);
      assert s == [s[0]] + s[1..];
    }
  }

  /** A shown record: date, type, label, MCC and amount. */
  datatype RawLine = RawLine(date: string, kind: string, counterparty: string, mcc: string, amount: real)

  /** `receiver[-4:]`. */
  function Last4(s: string): string {
    if |s| <= 4 then s else s[|s| - 4..]
  }

  /** The label of a record: the receiver's card when there is one, else
      the merchant, else nothing. */
  function Label(d: Details): string {
    if d.receiverAccount.Some? && d.receiverAccount.value != "" then "card *" + Last4(d.receiverAccount.value)
    else d.merchant.GetOr("")
  }

  /** The display row of a record; a bonus purchase is shown as
      "Purchase". */
  function RawLineOf(t: Transaction): (r: RawLine)
    ensures r.kind != BonusPurchase
    ensures r.kind == PlainPurchase <==> t.description == PlainPurchase || t.description == BonusPurchase
  {
    RawLine(t.date, if t.description == BonusPurchase then PlainPurchase else t.description,
            Label(t.details), t.details.mcc.GetOr(""), t.amount)
  }

  function RawLines(rows: seq<Transaction>): (lines: seq<RawLine>)
    ensures |lines| == |rows|
  {
    seq(|rows|, k requires 0 <= k < |rows| => RawLineOf(rows[k]))
  }

  lemma RawLinesConcat(a: seq<Transaction>, b: seq<Transaction>)
    ensures RawLines(a + b) == RawLines(a) + RawLines(b)
  {
    assert forall k :: 0 <= k < |a| + |b| ==> RawLines(a + b)[k] == (RawLines(a) + RawLines(b))[k];
  }

  /** Sorting shows the same rows, in another order. */
  lemma {:induction false} RawLinesSorted(s: seq<Transaction>, key: Transaction -> SortKey)
    ensures multiset(RawLines(SortBy(s, key))) == multiset(RawLines(s))
  {
    if s != [] {
      var r := SortBy(s[1..], key);
      RawLinesSorted(s[1..], key);
      var k := InsertShape(s[0], r, key);
      RawLinesConcat(r[..k] + [s[0]], r[k..]);
      RawLinesConcat(r[..k], [s[0]]);
      RawLinesConcat(r[..k], r[k..]);
      assert r == r[..k] + r[k..];
      RawLinesConcat([s[0]], s[1..]);
      assert s == [s[0]] + s[1..];
    }
  }

  /** The report shows exactly one row per record. */
  lemma RawLinesShown(data: seq<Transaction>, sortBy: string)
    ensures multiset(RawLines(RawSorted(data, sortBy))) == multiset(RawLines(data))
  {
    if sortBy == SortByDate {
      RawLinesSorted(data, DateKey);
    } else if sortBy == SortBySum {
      RawLinesSorted(data, AmountKey);
    } else if sortBy == SortByName {
      RawLinesSorted(data, DescriptionKey);
    }
  }

  /** `f"{label} [{mcc}]" if mcc else label or "—"`. */
  function Suffix(r: RawLine): string {
    if r.mcc != "" then r.counterparty + " [" + r.mcc + "]"
    else if r.counterparty != "" then r.counterparty
    else "—"
  }

  /** `f"  {date}  {desc:<12}  {amount:>12.2f} KZT  {suffix}"`. */
  function RawTextLine(r: RawLine, fixed: real -> string): string {
    "  " + r.date + "  " + LJust(r.kind, 12) + "  " + RJust(fixed(r.amount), 12) + " KZT  " + Suffix(r)
  }

  const RawHeaders: seq<string> := ["Date", "Type", "Description", "MCC", "Sum (KZT)"]

  const RawTitle: string := "Raw Transactions"

  /** The table rows of `format_raw_report`: a row per record, a blank row
      and the four totals; the net is purchases minus bonuses. */
  function RawRows(lines: seq<RawLine>, purchase: real, bonuses: real, grand: real): (rows: seq<seq<Cell>>)
    ensures |rows| == |lines| + 5 && forall k :: 0 <= k < |rows| ==> |rows[k]| == 5
  {
    seq(|lines|, k requires 0 <= k < |lines| =>
      [Text(lines[k].date), Text(lines[k].kind), Text(lines[k].counterparty), Text(lines[k].mcc), Amount(lines[k].amount)]) +
    [[Text(""), Text(""), Text(""), Text(""), Text("")],
     [Text(""), Text("Total purchases"), Text(""), Text(""), Amount(purchase)],
     [Text(""), Text("Saved with bonuses"), Text(""), Text(""), Amount(bonuses)],
     [Text(""), Text("Net purchases"), Text(""), Text(""), Amount(purchase - bonuses)],
     [Text(""), Text("Grand total"), Text(""), Text(""), Amount(grand)]]
  }

  /** The footer of the plain text raw report. */
  function RawFooter(purchase: real, bonuses: real, grand: real, fixed: real -> string): seq<string> {
    ["  " + Repeat('—', 50),
     "  Total purchases:        " + fixed(purchase) + " KZT",
     "  Saved with bonuses:     " + fixed(bonuses) + " KZT",
     "  Net purchases:          " + fixed(purchase - bonuses) + " KZT",
     "  Grand total:            " + fixed(grand) + " KZT"]
  }

  /** The lines of the plain text raw report. */
  function RawText(sortBy: string, lines: seq<RawLine>, purchase: real, bonuses: real, grand: real,
                   fixed: real -> string): seq<string>
  {
    ["--- " + SortedTitle(RawTitle, sortBy) + " ---"] +
    seq(|lines|, k requires 0 <= k < |lines| => RawTextLine(lines[k], fixed)) +
    RawFooter(purchase, bonuses, grand, fixed)
  }

  /** The report `format_raw_report` returns. */
  function RawReport(data: seq<Transaction>, sortBy: string, fmt: string,
                     render: real -> string, fixed: real -> string): string
  {
    var sorted := RawSorted(data, sortBy);
    var lines := RawLines(sorted);
    var purchase, bonuses, grand := SumOf(sorted, PurchaseOrBonus), SumOf(sorted, Bonus), SumOf(sorted, AllRows);
    if fmt == FmtAscii then
      var rows := RawRows(lines, purchase, bonuses, grand);
      Join(TableLines(RawHeaders, StringRows(rows, render), Some(SortedTitle(RawTitle, sortBy))), "\n")
    else
      Join(RawText(sortBy, lines, purchase, bonuses, grand, fixed), "\n")
  }

  /** The loop of `format_raw_report`: three running totals over the
      sorted records, and a display row for each. */
  method ShowRecords(sorted: seq<Transaction>) returns (purchase: real, bonuses: real, grand: real, shown: seq<RawLine>)
    ensures purchase == SumOf(sorted, PurchaseOrBonus)
    ensures bonuses == SumOf(sorted, Bonus)
    ensures grand == SumOf(sorted, AllRows)
    ensures shown == RawLines(sorted)
  {
    purchase, bonuses, grand := 0.0, 0.0, 0.0;
    shown := [];
    for i := 0 to |sorted|
      invariant purchase == SumOf(sorted[..i], PurchaseOrBonus)
      invariant bonuses == SumOf(sorted[..i], Bonus)
      invariant grand == SumOf(sorted[..i], AllRows)
      invariant shown == RawLines(sorted[..i])
    {
      var row := sorted[i];
      var desc, amount := row.description, row.amount;
      grand := grand + amount;
      if desc == BonusPurchase {
        bonuses := bonuses + amount;
        purchase := purchase + amount;
        desc := PlainPurchase;
      } else if desc == PlainPurchase {
        purchase := purchase + amount;
      }
      var mcc := row.details.mcc.GetOr("");
      var receiver := row.details.receiverAccount;
      var counterparty: string;
      if receiver.Some? && receiver.value != "" {
        counterparty := "card *" + Last4(receiver.value);
      } else {
        counterparty := row.details.merchant.GetOr("");
      }
      assert RawLine(row.date, desc, counterparty, mcc, amount) == RawLineOf(row);
      shown := shown + [RawLine(row.date, desc, counterparty, mcc, amount)];
      assert sorted[..i + 1][..i] == sorted[..i];
      assert sorted[..i + 1] == sorted[..i] + [row];
      RawLinesConcat(sorted[..i], [row]);
    }
    assert sorted[..|sorted|] == sorted;
  }

  /** `format_raw_report`. */
  method FormatRawReport(data: seq<Transaction>, sortBy: string, fmt: string,
                         render: real -> string, fixed: real -> string) returns (report: string)
    ensures report == RawReport(data, sortBy, fmt, render, fixed)
  {
    var sorted := RawSorted(data, sortBy);
    var purchase, bonuses, grand, shown := ShowRecords(sorted);
    if fmt == FmtAscii {
      var rows := RawRows(shown, purchase, bonuses, grand);
      var table := FormatAsciiTable(RawHeaders, rows, Some(SortedTitle(RawTitle, sortBy)), render);
      report := table.value;
    } else {
      var lines := RawTextLines(sortBy, shown, purchase, bonuses, grand, fixed);
      report := Join(lines, "\n");
    }
  }

  /** The plain text branch of `format_raw_report`: a line per display row,
      then the footer. */
  method RawTextLines(sortBy: string, shown: seq<RawLine>, purchase: real, bonuses: real, grand: real,
                      fixed: real -> string) returns (lines: seq<string>)
    ensures lines == RawText(sortBy, shown, purchase, bonuses, grand, fixed)
  {
    var heading := "--- " + SortedTitle(RawTitle, sortBy) + " ---";
    lines := [heading];
    for k := 0 to |shown|
      invariant lines == [heading] + seq(k, j requires 0 <= j < k => RawTextLine(shown[j], fixed))
    {
      lines := lines + [RawTextLine(shown[k], fixed)];
    }
    lines := lines + RawFooter(purchase, bonuses, grand, fixed);
  }

  /** The footer totals of the raw report do not depend on the sort: the
      grand total is the sum of all amounts, the bonus total that of the
      bonus purchases, the purchase total that of the purchases and bonus
      purchases, and the net the amounts described "Purchase" alone. */
  lemma RawTotals(data: seq<Transaction>, sortBy: string)
    ensures SumOf(RawSorted(data, sortBy), AllRows) == SumOf(data, AllRows)
    ensures SumOf(RawSorted(data, sortBy), Bonus) == SumOf(data, Bonus)
    ensures SumOf(RawSorted(data, sortBy), PurchaseOrBonus) == SumOf(data, PurchaseOrBonus)
    ensures SumOf(RawSorted(data, sortBy), PurchaseOrBonus) - SumOf(RawSorted(data, sortBy), Bonus) == SumOf(data, Purchase)
  {
    var key := if sortBy == SortByDate then DateKey else if sortBy == SortBySum then AmountKey else DescriptionKey;
    if sortBy in {SortByDate, SortBySum, SortByName} {
      assert RawSorted(data, sortBy) == SortBy(data, key);
      SumOfSorted(data, key, AllRows);
      SumOfSorted(data, key, Bonus);
      SumOfSorted(data, key, PurchaseOrBonus);
    }
    NetPurchases(data);
  }

  /** A transfer to an account is labelled with the account's last four
      characters. */
  lemma TransferLine(date: string, sum: string, account: string)
    requires Trimmed(date)
    requires account != [] && forall i :: 0 <= i < |account| ==> IsAccountChar(account[i])
    ensures RawLineOf(ParseRow((date, sum, "Transfer", "Receiver: " + account))).counterparty == "card *" + Last4(account)
  {
    TransferRow(date, sum, account);
  }
}
