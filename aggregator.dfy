/** budged/aggregator.py: the amounts of the parsed records summed by
    description and category, rolled up to category groups, and the
    purchase totals. */
module Aggregator {
  import opened Wrappers
  import opened Records
  import opened Categories
  import opened Dict

  /** The descriptions the aggregation treats specially. */
  const BonusPurchase: string := "Purchase with bonuses"
  const PlainPurchase: string := "Purchase"
  const SavedWithBonuses: string := "Saved with bonuses"

  /** The category of a record's MCC, as `group_by_description_and_mcc`
      chooses it. */
  function CategoryName(mcc: Option<string>): string {
    if mcc.None? || mcc.value == "" then "No MCC"
    else if mcc.value in Mcc2Name then Mcc2Name[mcc.value]
    else "Unknown/No MCC"
  }

  /** Each sentinel name marks exactly its own case: no MCC at all, or a
      code the table does not know; every other category is the name of
      the code. */
  lemma CategoryNameCases(mcc: Option<string>)
    ensures CategoryName(mcc) == "No MCC" <==> mcc.None? || mcc.value == ""
    ensures CategoryName(mcc) == "Unknown/No MCC" <==> mcc.Some? && mcc.value != "" && mcc.value !in Mcc2Name
    ensures mcc.Some? && mcc.value in Mcc2Name ==> CategoryName(mcc) == Mcc2Name[mcc.value]
  {
    if mcc.Some? && mcc.value != "" && mcc.value in Mcc2Name {
      KnownNamesGrouped(mcc.value);
      SentinelsUngrouped();
    }
  }

  /** A key of the tables: a description and a category or group. */
  type Key = (string, string)

  /** One pass of the loop of `group_by_description_and_mcc`: a bonus
      purchase is posted both to "Purchase" and to "Saved with bonuses" of
      its category; any other record to its own description. */
  function Post(t: Table<Key>, row: Transaction): Table<Key> {
    var name := CategoryName(row.details.mcc);
    if row.description == BonusPurchase then
      Add(Add(t, (PlainPurchase, name), row.amount), (SavedWithBonuses, name), row.amount)
    else
      Add(t, (row.description, name), row.amount)
  }

  /** The table `group_by_description_and_mcc` returns for `rows`. */
  function ByCategory(rows: seq<Transaction>): Table<Key> {
    if rows == [] then [] else Post(ByCategory(rows[..|rows| - 1]), rows[|rows| - 1])
  }

  /** `group_by_description_and_mcc`. */
  method GroupByDescriptionAndMcc(data: seq<Transaction>) returns (aggregated: Table<Key>)
    ensures aggregated == ByCategory(data)
  {
    aggregated := [];
    for i := 0 to |data|
      invariant aggregated == ByCategory(data[..i])
    {
      var row := data[i];
      var desc := row.description;
      var name := CategoryName(row.details.mcc);
      if desc == BonusPurchase {
        aggregated := Add(aggregated, (PlainPurchase, name), row.amount);
        aggregated := Add(aggregated, (SavedWithBonuses, name), row.amount);
      } else {
        aggregated := Add(aggregated, (desc, name), row.amount);
      }
      assert data[..i + 1][..i] == data[..i];
    }
    assert data[..|data|] == data;
  }

  /** The records a sum is taken over. */
  datatype Selection =
    | AllRows                 // every record
    | Income                  // a positive amount
    | Bonus                   // described "Purchase with bonuses"
    | Purchase                // described "Purchase"
    | PurchaseOrBonus         // described either way
    | SavedOrBonus            // described "Saved with bonuses" or "Purchase with bonuses"
    | PostedTo(key: Key)      // posted by the aggregation into entry `key`

  predicate Selects(s: Selection, r: Transaction) {
    match s
    case AllRows => true
    case Income => r.amount > 0.0
    case Bonus => r.description == BonusPurchase
    case Purchase => r.description == PlainPurchase
    case PurchaseOrBonus => r.description == PlainPurchase || r.description == BonusPurchase
    case SavedOrBonus => r.description == SavedWithBonuses || r.description == BonusPurchase
    case PostedTo(key) =>
      CategoryName(r.details.mcc) == key.1 &&
      if r.description == BonusPurchase then key.0 == PlainPurchase || key.0 == SavedWithBonuses
      else r.description == key.0
  }

  /** The sum of the amounts of the selected records. */
  function SumOf(rows: seq<Transaction>, s: Selection): real {
    if rows == [] then 0.0
    else SumOf(rows[..|rows| - 1], s) + (if Selects(s, rows[|rows| - 1]) then rows[|rows| - 1].amount else 0.0)
  }

  /** Every entry of the table holds the sum of the records posted to it. */
  lemma {:induction false} ByCategoryGet(rows: seq<Transaction>, key: Key)
    ensures Get(ByCategory(rows), key) == SumOf(rows, PostedTo(key))
  {
    if rows != [] {
      var init, row := rows[..|rows| - 1], rows[|rows| - 1];
      ByCategoryGet(init, key);
      var t, name := ByCategory(init), CategoryName(row.details.mcc);
      if row.description == BonusPurchase {
        AddGet(t, (PlainPurchase, name), row.amount, key);
        AddGet(Add(t, (PlainPurchase, name), row.amount), (SavedWithBonuses, name), row.amount, key);
      } else {
        AddGet(t, (row.description, name), row.amount, key);
      }
    }
  }

  /** The "Saved with bonuses" entry of a category is the sum of the bonus
      purchases of that category (and of any record described "Saved with
      bonuses" itself). */
  lemma SavedEntry(rows: seq<Transaction>, name: string)
    ensures Get(ByCategory(rows), (SavedWithBonuses, name))
         == SumOf(rows, PostedTo((SavedWithBonuses, name)))
    ensures forall r :: Selects(PostedTo((SavedWithBonuses, name)), r) <==>
              CategoryName(r.details.mcc) == name &&
              (r.description == BonusPurchase || r.description == SavedWithBonuses)
  {
    ByCategoryGet(rows, (SavedWithBonuses, name));
  }

  /** The table's keys are unique, and none has the description "Purchase
      with bonuses". */
  lemma {:induction false} ByCategoryKeys(rows: seq<Transaction>)
    ensures UniqueKeys(ByCategory(rows))
    ensures forall i :: 0 <= i < |ByCategory(rows)| ==> ByCategory(rows)[i].0.0 != BonusPurchase
  {
    if rows != [] {
      var init, row := rows[..|rows| - 1], rows[|rows| - 1];
      ByCategoryKeys(init);
      var t, name := ByCategory(init), CategoryName(row.details.mcc);
      if row.description == BonusPurchase {
        AddKeepsKeys(t, (PlainPurchase, name), row.amount);
        AddKeepsKeys(Add(t, (PlainPurchase, name), row.amount), (SavedWithBonuses, name), row.amount);
      } else {
        AddKeepsKeys(t, (row.description, name), row.amount);
      }
    }
  }

  /** An addition under a key other than a bonus purchase keeps the keys
      unique and free of that description. */
  lemma AddKeepsKeys(t: Table<Key>, k: Key, v: real)
    requires UniqueKeys(t) && k.0 != BonusPurchase
    requires forall i :: 0 <= i < |t| ==> t[i].0.0 != BonusPurchase
    ensures UniqueKeys(Add(t, k, v))
    ensures forall i :: 0 <= i < |Add(t, k, v)| ==> Add(t, k, v)[i].0.0 != BonusPurchase
  {
    AddUnique(t, k, v);
    AddKeys(t, k, v);
  }

  /** The table's values add up to all the amounts plus, once more, those
      of the bonus purchases. */
  lemma {:induction false} ByCategoryTotal(rows: seq<Transaction>)
    ensures Total(ByCategory(rows)) == SumOf(rows, AllRows) + SumOf(rows, Bonus)
  {
    if rows != [] {
      var init, row := rows[..|rows| - 1], rows[|rows| - 1];
      ByCategoryTotal(init);
      var t, name := ByCategory(init), CategoryName(row.details.mcc);
      if row.description == BonusPurchase {
        AddTotal(t, (PlainPurchase, name), row.amount);
        AddTotal(Add(t, (PlainPurchase, name), row.amount), (SavedWithBonuses, name), row.amount);
      } else {
        AddTotal(t, (row.description, name), row.amount);
      }
    }
  }

  /** The group a category rolls up to in
      `group_by_description_and_mcc_group`. */
  function GroupName(name: string): string {
    if name == "No MCC" then "Transfers/Other"
    else if name in NameToGroup then NameToGroup[name]
    else "Other Uncategorized"
  }

  /** A record lands in "Other Uncategorized" exactly when its MCC is a
      code the table does not know; one without an MCC lands in
      "Transfers/Other". */
  lemma GroupOfCategory(mcc: Option<string>)
    ensures GroupName(CategoryName(mcc)) == "Other Uncategorized" <==>
            mcc.Some? && mcc.value != "" && mcc.value !in Mcc2Name
    ensures mcc.None? || mcc.value == "" ==> GroupName(CategoryName(mcc)) == "Transfers/Other"
  {
    SentinelsUngrouped();
    if mcc.Some? && mcc.value != "" && mcc.value in Mcc2Name {
      KnownNamesGrouped(mcc.value);
      GroupsNotFallback(Mcc2Name[mcc.value]);
      CategoryNameCases(mcc);
    }
  }

  /** The table `group_by_description_and_mcc_group` builds from the
      category table `base`: each entry added under its description and
      the group of its category, in order. */
  function Regroup(base: Table<Key>): Table<Key> {
    if base == [] then []
    else
      var last := base[|base| - 1];
      Add(Regroup(base[..|base| - 1]), (last.0.0, GroupName(last.0.1)), last.1)
  }

  /** `group_by_description_and_mcc_group`. */
  method GroupByDescriptionAndMccGroup(data: seq<Transaction>) returns (grouped: Table<Key>)
    ensures grouped == Regroup(ByCategory(data))
  {
    var base := GroupByDescriptionAndMcc(data);
    grouped := [];
    for i := 0 to |base|
      invariant grouped == Regroup(base[..i])
    {
      var (key, totalSum) := base[i];
      var (desc, name) := key;
      var group := GroupName(name);
      grouped := Add(grouped, (desc, group), totalSum);
      assert base[..i + 1][..i] == base[..i];
    }
    assert base[..|base|] == base;
  }

  /** The total of the category entries whose description is `desc` and
      whose category rolls up to `group`. */
  function RolledInto(base: Table<Key>, key: Key): real {
    if base == [] then 0.0
    else
      var last := base[|base| - 1];
      RolledInto(base[..|base| - 1], key) +
      (if last.0.0 == key.0 && GroupName(last.0.1) == key.1 then last.1 else 0.0)
  }

  /** Each group entry is the sum of the category entries rolled into it. */
  lemma {:induction false} RegroupGet(base: Table<Key>, key: Key)
    ensures Get(Regroup(base), key) == RolledInto(base, key)
  {
    if base != [] {
      var last := base[|base| - 1];
      RegroupGet(base[..|base| - 1], key);
      AddGet(Regroup(base[..|base| - 1]), (last.0.0, GroupName(last.0.1)), last.1, key);
    }
  }

  /** The roll-up conserves the total. */
  lemma {:induction false} RegroupTotal(base: Table<Key>)
    ensures Total(Regroup(base)) == Total(base)
  {
    if base != [] {
      var init, last := base[..|base| - 1], base[|base| - 1];
      RegroupTotal(init);
      AddTotal(Regroup(init), (last.0.0, GroupName(last.0.1)), last.1);
      TotalSnoc(init, last);
      assert base == init + [last];
    }
  }

  /** The total of a table with one more entry at the end. */
  lemma {:induction false} TotalSnoc(t: Table<Key>, e: (Key, real))
    ensures Total(t + [e]) == Total(t) + e.1
  {
    if t != [] {
      TotalSnoc(t[1..], e);
      assert (t + [e])[1..] == t[1..] + [e];
    }
  }

  /** The result of `compute_purchase_totals`. */
  datatype Totals = Totals(
    purchaseTotal: real,
    bonusesTotal: real,
    netPurchases: real,
    grandTotal: real,
    incomeTotal: real)

  /** `compute_purchase_totals`: four running totals over the records. */
  method ComputePurchaseTotals(data: seq<Transaction>) returns (totals: Totals)
    ensures totals.grandTotal == SumOf(data, AllRows)
    ensures totals.incomeTotal == SumOf(data, Income)
    ensures totals.bonusesTotal == SumOf(data, Bonus)
    ensures totals.purchaseTotal == SumOf(data, PurchaseOrBonus)
    ensures totals.netPurchases == totals.purchaseTotal - totals.bonusesTotal
  {
    var purchaseTotal, bonusesTotal, grandTotal, incomeTotal := 0.0, 0.0, 0.0, 0.0;
    for i := 0 to |data|
      invariant grandTotal == SumOf(data[..i], AllRows)
      invariant incomeTotal == SumOf(data[..i], Income)
      invariant bonusesTotal == SumOf(data[..i], Bonus)
      invariant purchaseTotal == SumOf(data[..i], PurchaseOrBonus)
    {
      var desc, amount := data[i].description, data[i].amount;
      grandTotal := grandTotal + amount;
      if amount > 0.0 {
        incomeTotal := incomeTotal + amount;
      }
      if desc == BonusPurchase {
        bonusesTotal := bonusesTotal + amount;
        purchaseTotal := purchaseTotal + amount;
      } else if desc == PlainPurchase {
        purchaseTotal := purchaseTotal + amount;
      }
      assert data[..i + 1][..i] == data[..i];
    }
    assert data[..|data|] == data;
    totals := Totals(purchaseTotal, bonusesTotal, purchaseTotal - bonusesTotal, grandTotal, incomeTotal);
  }

  /** Income is never negative and never below the grand total. */
  lemma {:induction false} IncomeBounds(rows: seq<Transaction>)
    ensures SumOf(rows, Income) >= 0.0
    ensures SumOf(rows, Income) >= SumOf(rows, AllRows)
  {
    if rows != [] {
      IncomeBounds(rows[..|rows| - 1]);
    }
  }

  /** Net purchases are the amounts of the records described "Purchase". */
  lemma {:induction false} NetPurchases(rows: seq<Transaction>)
    ensures SumOf(rows, PurchaseOrBonus) - SumOf(rows, Bonus) == SumOf(rows, Purchase)
  {
    if rows != [] {
      NetPurchases(rows[..|rows| - 1]);
    }
  }
}
