/** `parse_details` of budged/parser.py: the sub-fields searched for in a
    details text. */
module DetailsParser {
  import opened Wrappers
  import opened Text


  /** The structured reading of a details cell. */
  datatype Details = Details(
    raw: string,
    merchant: Option<string>,
    bank: Option<string>,
    mcc: Option<string>,
    paymentMethod: Option<string>,
    receiverAccount: Option<string>)

  /** `re.search`: the match of the first position from `p` on where the
      pattern, read by `at`, matches. */
  function Search(s: string, at: (string, nat) -> Option<string>, p: nat): (r: Option<string>)
    requires p <= |s|
    ensures r.None? <==> forall q :: p <= q <= |s| ==> at(s, q).None?
    ensures r.Some? ==> exists q :: p <= q <= |s| && at(s, q) == r &&
                                    forall k :: p <= k < q ==> at(s, k).None?
    decreases |s| - p
  {
    if at(s, p).Some? then at(s, p)
    else if p == |s| then None
    else Search(s, at, p + 1)
  }

  /** Case folding of `re.IGNORECASE` for the letters of the MCC labels:
      ASCII letters and the Cyrillic capitals U+0410 to U+042F. */
  function FoldCase(c: char): char {
    if 'A' <= c <= 'Z' || '\U{0410}' <= c <= '\U{042F}' then (c as int + 32) as char else c
  }

  /** The Latin label and the Cyrillic look-alike label of the MCC pattern. */
  const LatinMccLabel: string := "MCC:"
  const CyrillicMccLabel: string := "\U{041C}\U{0421}\U{0421}:"

  /** `word` occurs at `p` of `s`, ignoring case. */
  predicate LabelAt(s: string, p: nat, word: string) {
    p + |word| <= |s| && forall k :: 0 <= k < |word| ==> FoldCase(s[p + k]) == FoldCase(word[k])
  }

  predicate MccLabelAt(s: string, p: nat) {
    LabelAt(s, p, LatinMccLabel) || LabelAt(s, p, CyrillicMccLabel)
  }

  /** The position after the whitespace that starts at `q`: what `\s*`
      consumes. */
  function SkipSpaces(s: string, q: nat): (r: nat)
    requires q <= |s|
    ensures q <= r <= |s|
  {
    q + Run(s[q..], IsSpace)
  }

  /** The whitespace from `q` ends at `r`. */
  lemma SkipSpacesTo(s: string, q: nat, r: nat)
    requires q <= r <= |s| && forall i :: q <= i < r ==> IsSpace(s[i])
    requires r == |s| || !IsSpace(s[r])
    ensures SkipSpaces(s, q) == r
  {
    RunFrom(s, IsSpace, q, r);
  }

  /** `MCC:\s*(\d{4})|МСС:\s*(\d{4})` matched at `p`: a label, whitespace,
      and the four digits that follow, which are the captured code. */
  function MccAt(s: string, p: nat): (r: Option<string>)
    ensures r.Some? ==> |r.value| == 4 && AllDigits(r.value)
  {
    if !MccLabelAt(s, p) then None
    else
      var q := SkipSpaces(s, p + 4);
      if q + 4 <= |s| && AllDigits(s[q..q + 4]) then Some(s[q..q + 4]) else None
  }

  /** The MCC pattern captures exactly the four digits after a label and
      its whitespace. */
  lemma MccAtMeaning(s: string, p: nat, q: nat)
    requires MccLabelAt(s, p) && p + 4 <= q && q + 4 <= |s|
    requires forall i :: p + 4 <= i < q ==> IsSpace(s[i])
    ensures MccAt(s, p) == Some(s[q..q + 4]) <==> AllDigits(s[q..q + 4])
  {
    if AllDigits(s[q..q + 4]) {
      assert !IsSpace(s[q..q + 4][0]);
      SkipSpacesTo(s, p + 4, q);
    }
  }

  /** The characters of `[\d\*]`. */
  predicate IsAccountChar(c: char) { IsDigit(c) || c == '*' }

  predicate ReceiverLabelAt(s: string, p: nat) {
    p + 9 <= |s| && s[p..p + 9] == "Receiver:"
  }

  /** `([\d\*]+)` at `q`: the longest run of digits and asterisks, when it
      is not empty. */
  function AccountAt(s: string, q: nat): (r: Option<string>)
    requires q <= |s|
    ensures r.Some? ==> r.value != [] && forall i :: 0 <= i < |r.value| ==> IsAccountChar(r.value[i])
  {
    var n := Run(s[q..], IsAccountChar);
    if n == 0 then None else Some(s[q..q + n])
  }

  /** `Receiver:\s*([\d\*]+)` matched at `p`: the label, whitespace, and the
      longest non-empty run of digits and asterisks, which is captured. */
  function ReceiverAt(s: string, p: nat): Option<string> {
    if !ReceiverLabelAt(s, p) then None else AccountAt(s, SkipSpaces(s, p + 9))
  }

  /** The account pattern captures a whole run of digits and asterisks. */
  lemma AccountAtRun(s: string, q: nat, n: nat)
    requires q + n <= |s| && n > 0 && forall i :: q <= i < q + n ==> IsAccountChar(s[i])
    requires q + n == |s| || !IsAccountChar(s[q + n])
    ensures AccountAt(s, q) == Some(s[q..q + n])
  {
    RunFrom(s, IsAccountChar, q, q + n);
  }

  /** The receiver pattern captures the whole run of digits and asterisks
      after the label and its whitespace. */
  lemma ReceiverAtMeaning(s: string, p: nat, q: nat, n: nat)
    requires ReceiverLabelAt(s, p) && p + 9 <= q && q + n <= |s|
    requires forall i :: p + 9 <= i < q ==> IsSpace(s[i])
    requires n > 0 && forall i :: q <= i < q + n ==> IsAccountChar(s[i])
    requires q + n == |s| || !IsAccountChar(s[q + n])
    ensures ReceiverAt(s, p) == Some(s[q..q + n])
  {
    assert !IsSpace(s[q]);
    SkipSpacesTo(s, p + 9, q);
    AccountAtRun(s, q, n);
  }

  /** The banks looked for, in order, each with the keywords naming it. */
  const BankKeywords: seq<(string, seq<string>)> := [
    ("Halyk Bank", ["JSC Halyk Bank", "Halyk Bank"]),
    ("Kaspi Bank", ["Kaspi Bank"]),
    ("Freedom Bank", ["Freedom Bank"]),
    ("Jusan Bank", ["Jusan Bank"]),
    ("Bereke Bank", ["Bereke Bank"]),
    ("BCC", ["BCC"])
  ]

  /** `any(kw in s for kw in keywords)`. */
  function AnyKeyword(s: string, keywords: seq<string>): (b: bool)
    ensures b <==> exists k :: 0 <= k < |keywords| && Contains(s, keywords[k])
  {
    if keywords == [] then false
    else Contains(s, keywords[0]) || AnyKeyword(s, keywords[1..])
  }

  /** The first bank, in the order of `banks`, one of whose keywords occurs
      in `s`. */
  function FirstBank(s: string, banks: seq<(string, seq<string>)>): (r: Option<string>)
    ensures r.None? <==> forall i :: 0 <= i < |banks| ==> !AnyKeyword(s, banks[i].1)
    ensures r.Some? ==> exists i :: 0 <= i < |banks| && banks[i].0 == r.value &&
                          AnyKeyword(s, banks[i].1) &&
                          forall j :: 0 <= j < i ==> !AnyKeyword(s, banks[j].1)
  {
    if banks == [] then None
    else if AnyKeyword(s, banks[0].1) then Some(banks[0].0)
    else
      var r := FirstBank(s, banks[1..]);
      assert forall i :: 1 <= i < |banks| ==> banks[1..][i - 1] == banks[i];
      r
  }

  /** The bank at `i` is the first one named when no earlier bank is. */
  lemma {:induction false} FirstBankAt(s: string, banks: seq<(string, seq<string>)>, i: nat)
    requires i < |banks| && AnyKeyword(s, banks[i].1)
    requires forall j :: 0 <= j < i ==> !AnyKeyword(s, banks[j].1)
    ensures FirstBank(s, banks) == Some(banks[i].0)
  {
    if i > 0 {
      assert !AnyKeyword(s, banks[0].1);
      assert forall j :: 0 <= j < i - 1 ==> banks[1..][j] == banks[j + 1];
      FirstBankAt(s, banks[1..], i - 1);
    }
  }

  /** What `parse_details` finds in a details text; each field is described
      by the contract of the search that fills it. */
  function DetailsOf(s: string): (d: Details)
    ensures d.raw == Strip(s)
    ensures d.mcc == Search(s, MccAt, 0)
    ensures d.paymentMethod == if Contains(Upper(s), "APPLE PAY") then Some("APPLE PAY") else None
    ensures d.bank == FirstBank(s, BankKeywords)
    ensures d.receiverAccount == Search(s, ReceiverAt, 0)
    ensures d.merchant.Some? <==> ',' in s && d.receiverAccount.None?
    ensures d.merchant.Some? ==> d.merchant.value == Strip(s[..IndexOf(s, ',')])
  {
    var receiver := Search(s, ReceiverAt, 0);
    var parts := Split(s, ',');
    Details(
      raw := Strip(s),
      merchant := if |parts| > 1 && receiver.None? then Some(Strip(parts[0])) else None,
      bank := FirstBank(s, BankKeywords),
      mcc := Search(s, MccAt, 0),
      paymentMethod := if Contains(Upper(s), "APPLE PAY") then Some("APPLE PAY") else None,
      receiverAccount := receiver)
  }

  /** A details text never gets both a receiver account and a merchant. */
  lemma ReceiverExcludesMerchant(s: string)
    ensures !(DetailsOf(s).receiverAccount.Some? && DetailsOf(s).merchant.Some?)
  {
  }

  /** The bank loop of `parse_details`: the banks in order, stopping at the
      first one whose keyword occurs in `s`. */
  method FindBank(s: string, banks: seq<(string, seq<string>)>) returns (bank: Option<string>)
    ensures bank == FirstBank(s, banks)
  {
    bank := None;
    var i := 0;
    while i < |banks|
      invariant 0 <= i <= |banks|
      invariant forall j :: 0 <= j < i ==> !AnyKeyword(s, banks[j].1)
      invariant bank.None?
    {
      var (name, keywords) := banks[i];
      if AnyKeyword(s, keywords) {
        FirstBankAt(s, banks, i);
        bank := Some(name);
        break;
      }
      i := i + 1;
    }
  }

  /** `parse_details`: fills a record field by field. */
  method ParseDetails(s: string) returns (d: Details)
    ensures d == DetailsOf(s)
  {
    d := Details(Strip(s), None, None, None, None, None);
    var mcc := Search(s, MccAt, 0);
    if mcc.Some? {
      d := d.(mcc := mcc);
    }
    if Contains(Upper(s), "APPLE PAY") {
      d := d.(paymentMethod := Some("APPLE PAY"));
    }
    var bank := FindBank(s, BankKeywords);
    if bank.Some? {
      d := d.(bank := bank);
    }
    var receiver := Search(s, ReceiverAt, 0);
    if receiver.Some? {
      d := d.(receiverAccount := receiver);
    }
    var parts := Split(s, ',');
    if |parts| > 1 && receiver.None? {
      d := d.(merchant := Some(Strip(parts[0])));
    }
  }

  /** A transfer's details, `Receiver: ` and a masked account, yield that
      account and no merchant. */
  lemma ReceiverDetails(account: string)
    requires account != [] && forall i :: 0 <= i < |account| ==> IsAccountChar(account[i])
    ensures DetailsOf("Receiver: " + account).receiverAccount == Some(account)
    ensures DetailsOf("Receiver: " + account).merchant == None
  {
    var s := "Receiver: " + account;
    assert s[0..9] == "Receiver:";
    assert forall i :: 10 <= i < |s| ==> s[i] == account[i - 10];
    ReceiverAtMeaning(s, 0, 10, |account|);
    assert s[10..10 + |account|] == account;
  }
}
