/** budged/categories.py: the MCC names, the category groups, and the
    index from a category name to its group. */
module Categories {
  import opened Text

  /** `mcc2name`: the merchant category codes the statement shows, with the
      name of each. */
  const Mcc2Name: map<string, string> := map[
    "5411" := "Grocery Stores, Supermarkets",
    "5814" := "Fast Food Restaurants",
    "5812" := "Eating Places, Restaurants",
    "5977" := "Cosmetic Stores",
    "5943" := "Stationery, Office Supplies",
    "5199" := "Nondurable Goods",
    "4121" := "Taxicabs and Limousines",
    "5995" := "Pet Shops",
    "5691" := "Men's and Women's Clothing Stores",
    "5200" := "Home Supply Warehouse Stores",
    "5311" := "Department Stores",
    "7941" := "Athletic Fields, Commercial Sports",
    "5262" := "Marketplaces",
    "5912" := "Drug Stores and Pharmacies",
    "5541" := "Service Stations (Gas)",
    "8099" := "Medical Services",
    "5331" := "Variety Stores",
    "4829" := "Money Orders / Wire Transfer",
    "4215" := "Courier Services",
    "1750" := "Carpentry Contractors",
    "7832" := "Motion Picture Theaters",
    "5641" := "Children's and Infant's Wear Stores",
    "3068" := "Airlines",
    "5499" := "Miscellaneous Food Stores",
    "8071" := "Dental and Medical Laboratories"
  ]

  /** Groups in the order of the dictionary, each with its category names. */
  type Groups = seq<(string, seq<string>)>

  /** `mcc_groups`. */
  const MccGroups: Groups := [
    ("Food & Dining", [
      "Grocery Stores, Supermarkets",
      "Fast Food Restaurants",
      "Eating Places, Restaurants",
      "Miscellaneous Food Stores"]),
    ("Transport", [
      "Taxicabs and Limousines",
      "Airlines",
      "Service Stations (Gas)"]),
    ("Shopping", [
      "Cosmetic Stores",
      "Stationery, Office Supplies",
      "Nondurable Goods",
      "Men's and Women's Clothing Stores",
      "Department Stores",
      "Marketplaces",
      "Variety Stores",
      "Children's and Infant's Wear Stores",
      "Home Supply Warehouse Stores"]),
    ("Health & Beauty", [
      "Drug Stores and Pharmacies",
      "Medical Services",
      "Dental and Medical Laboratories"]),
    ("Entertainment", [
      "Athletic Fields, Commercial Sports",
      "Motion Picture Theaters"]),
    ("Services", [
      "Courier Services",
      "Carpentry Contractors",
      "Money Orders / Wire Transfer"]),
    ("Pets", [
      "Pet Shops"])
  ]

  /** The map every name of `names` to `g`. */
  function AllTo(names: seq<string>, g: string): map<string, string> {
    map n | n in names :: g
  }

  /** The index that assigning `index[name] = group` for every group in
      order, and every name of it in order, builds: a name listed under
      several groups ends up with the last of them. */
  function InverseIndex(groups: Groups): map<string, string> {
    if groups == [] then map[]
    else InverseIndex(groups[..|groups| - 1]) + AllTo(groups[|groups| - 1].1, groups[|groups| - 1].0)
  }

  /** The names are listed under group `i`. */
  predicate ListedAt(groups: Groups, i: int, n: string) {
    0 <= i < |groups| && n in groups[i].1
  }

  /** A name is indexed exactly when some group lists it. */
  lemma {:induction false} InverseIndexDomain(groups: Groups, n: string)
    ensures n in InverseIndex(groups) <==> exists i :: ListedAt(groups, i, n)
  {
    if groups != [] {
      var init := groups[..|groups| - 1];
      InverseIndexDomain(init, n);
      if exists i :: ListedAt(groups, i, n) {
        var i :| ListedAt(groups, i, n);
        if i < |init| { assert ListedAt(init, i, n); } else { assert n in AllTo(groups[i].1, groups[i].0); }
      } else {
        assert !ListedAt(groups, |groups| - 1, n);
        forall i | 0 <= i < |init| ensures !ListedAt(init, i, n) {
          assert init[i] == groups[i];
          assert !ListedAt(groups, i, n);
        }
      }
    }
  }

  /** A name is indexed to the group that lists it last. */
  lemma {:induction false} InverseIndexLast(groups: Groups, i: nat, n: string)
    requires ListedAt(groups, i, n)
    requires forall j :: i < j < |groups| ==> !ListedAt(groups, j, n)
    ensures n in InverseIndex(groups) && InverseIndex(groups)[n] == groups[i].0
  {
    var init := groups[..|groups| - 1];
    if i < |groups| - 1 {
      assert !ListedAt(groups, |groups| - 1, n);
      assert init[i] == groups[i];
      forall j | i < j < |init| ensures !ListedAt(init, j, n) {
        assert init[j] == groups[j];
        assert !ListedAt(groups, j, n);
      }
      InverseIndexLast(init, i, n);
    } else {
      assert n in AllTo(groups[i].1, groups[i].0);
    }
  }

  /** Every indexed name maps to a group that lists it, and no later group
      lists it. */
  lemma InverseIndexValue(groups: Groups, n: string) returns (i: nat)
    requires n in InverseIndex(groups)
    ensures ListedAt(groups, i, n) && InverseIndex(groups)[n] == groups[i].0
    ensures forall j :: i < j < |groups| ==> !ListedAt(groups, j, n)
  {
    InverseIndexDomain(groups, n);
    var k :| ListedAt(groups, k, n);
    i := LastListed(groups, k, n);
    InverseIndexLast(groups, i, n);
  }

  /** The last group, from `k` on, that lists `n`. */
  lemma {:induction false} LastListed(groups: Groups, k: nat, n: string) returns (i: nat)
    requires ListedAt(groups, k, n)
    ensures k <= i && ListedAt(groups, i, n)
    ensures forall j :: i < j < |groups| ==> !ListedAt(groups, j, n)
    decreases |groups| - k
  {
    if exists j :: k < j < |groups| && ListedAt(groups, j, n) {
      var j :| k < j < |groups| && ListedAt(groups, j, n);
      i := LastListed(groups, j, n);
    } else {
      i := k;
    }
  }

  /** Assigning the next name extends the map of the names so far. */
  lemma AssignNext(m: map<string, string>, names: seq<string>, j: nat, g: string)
    requires j < |names|
    ensures (m + AllTo(names[..j], g))[names[j] := g] == m + AllTo(names[..j + 1], g)
  {
    assert names[..j + 1] == names[..j] + [names[j]];
  }

  /** The module-level loop of budged/categories.py that fills
      `name_to_group`, group by group and name by name. */
  method BuildNameToGroup(groups: Groups) returns (index: map<string, string>)
    ensures index == InverseIndex(groups)
  {
    index := map[];
    var i := 0;
    while i < |groups|
      invariant 0 <= i <= |groups|
      invariant index == InverseIndex(groups[..i])
    {
      var (group, names) := groups[i];
      ghost var before := index;
      var j := 0;
      while j < |names|
        invariant 0 <= j <= |names|
        invariant index == before + AllTo(names[..j], group)
      {
        AssignNext(before, names, j, group);
        index := index[names[j] := group];
        j := j + 1;
      }
      assert names[..j] == names;
      assert groups[..i + 1][..i] == groups[..i];
      i := i + 1;
    }
    assert groups[..i] == groups;
  }

  /** `name_to_group`. */
  const NameToGroup: map<string, string> := InverseIndex(MccGroups)

  /** Every code of `mcc2name` is four digits, the shape the MCC pattern
      of the details parser captures. */
  lemma Mcc2NameCodes()
    ensures forall code :: code in Mcc2Name ==> |code| == 4 && AllDigits(code)
  {
    forall code | code in Mcc2Name ensures |code| == 4 && AllDigits(code) {
      assert |code| == 4;
      assert forall k :: 0 <= k < 4 ==> '0' <= code[k] <= '9';
    }
  }

  /** No category name is listed under two groups. */
  lemma GroupsDisjoint()
    ensures forall i, j, n :: 0 <= i < j < |MccGroups| && ListedAt(MccGroups, i, n) ==> !ListedAt(MccGroups, j, n)
  {
  }

  /** `name_to_group` sends each listed name to the one group listing it. */
  lemma NameToGroupAt(i: nat, n: string)
    requires ListedAt(MccGroups, i, n)
    ensures n in NameToGroup && NameToGroup[n] == MccGroups[i].0
  {
    GroupsDisjoint();
    InverseIndexLast(MccGroups, i, n);
  }

  /** The names of `name_to_group` are those the groups list, and its
      values are group names. */
  lemma NameToGroupDomainRange(n: string)
    ensures n in NameToGroup <==> exists i :: ListedAt(MccGroups, i, n)
    ensures n in NameToGroup ==> exists i :: 0 <= i < |MccGroups| && NameToGroup[n] == MccGroups[i].0
  {
    InverseIndexDomain(MccGroups, n);
    if n in NameToGroup {
      var i := InverseIndexValue(MccGroups, n);
    }
  }

  /** Every name of `mcc2name` is listed under some group. */
  lemma NamesListed()
    ensures forall code :: code in Mcc2Name ==> exists i :: ListedAt(MccGroups, i, Mcc2Name[code])
  {
    forall code | code in Mcc2Name ensures exists i :: ListedAt(MccGroups, i, Mcc2Name[code]) {
      var n := Mcc2Name[code];
      if n in MccGroups[0].1 { assert ListedAt(MccGroups, 0, n); }
      else if n in MccGroups[1].1 { assert ListedAt(MccGroups, 1, n); }
      else if n in MccGroups[2].1 { assert ListedAt(MccGroups, 2, n); }
      else if n in MccGroups[3].1 { assert ListedAt(MccGroups, 3, n); }
      else if n in MccGroups[4].1 { assert ListedAt(MccGroups, 4, n); }
      else if n in MccGroups[5].1 { assert ListedAt(MccGroups, 5, n); }
      else { assert ListedAt(MccGroups, 6, n); }
    }
  }

  /** A known code's name always has a group. */
  lemma KnownNamesGrouped(code: string)
    requires code in Mcc2Name
    ensures Mcc2Name[code] in NameToGroup
  {
    NamesListed();
    NameToGroupDomainRange(Mcc2Name[code]);
  }

  /** The two sentinel category names are not grouped. */
  lemma SentinelsUngrouped()
    ensures "No MCC" !in NameToGroup && "Unknown/No MCC" !in NameToGroup
  {
    assert forall i :: 0 <= i < |MccGroups| ==> !ListedAt(MccGroups, i, "No MCC") && !ListedAt(MccGroups, i, "Unknown/No MCC");
    NameToGroupDomainRange("No MCC");
    NameToGroupDomainRange("Unknown/No MCC");
  }

  /** An index maps no name to a value that names no group. */
  lemma InverseIndexUnnamed(groups: Groups, n: string, g: string)
    requires forall j :: 0 <= j < |groups| ==> groups[j].0 != g
    requires n in InverseIndex(groups)
    ensures InverseIndex(groups)[n] != g
  {
    var i := InverseIndexValue(groups, n);
  }

  /** "Other Uncategorized" is not the name of a group. */
  lemma FallbackNotAGroup()
    ensures forall j :: 0 <= j < |MccGroups| ==> MccGroups[j].0 != "Other Uncategorized"
  {
    forall j | 0 <= j < |MccGroups| ensures MccGroups[j].0 != "Other Uncategorized" {
      assert |MccGroups[j].0| < 19;
    }
  }

  /** No group is named "Other Uncategorized", the fallback of the
      roll-up. */
  lemma GroupsNotFallback(n: string)
    requires n in NameToGroup
    ensures NameToGroup[n] != "Other Uncategorized"
  {
    FallbackNotAGroup();
    InverseIndexUnnamed(MccGroups, n, "Other Uncategorized");
  }
}
