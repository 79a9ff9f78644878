/** `parse_row` and `parse_transactions` of budged/parser.py: the records
    built from the four raw fields of each statement row. */
module Records {
  import opened Wrappers
  import opened Text
  import opened Amount
  import opened DetailsParser

  /** A parsed statement row. */
  datatype Transaction = Transaction(date: string, amount: real, description: string, details: Details)

  /** The four raw fields of a row: date, amount, description, details. */
  type RawRow = (string, string, string, string)

  /** `parse_row`: the date and description stripped, the amount read by
      `parse_sum` and the details parsed. */
  function ParseRow(raw: RawRow): (t: Transaction)
    ensures Trimmed(t.date) && Trimmed(t.description)
  {
    Transaction(Strip(raw.0), ParseSum(raw.1), Strip(raw.2), DetailsOf(raw.3))
  }

  /** No record carries both a receiver account and a merchant. */
  lemma ParseRowExclusive(raw: RawRow)
    ensures !(ParseRow(raw).details.receiverAccount.Some? && ParseRow(raw).details.merchant.Some?)
  {
    ReceiverExcludesMerchant(raw.3);
  }

  /** `parse_transactions`: one record per raw row, in order. */
  function ParseTransactions(raws: seq<RawRow>): (ts: seq<Transaction>)
    ensures |ts| == |raws|
  {
    seq(|raws|, i requires 0 <= i < |raws| => ParseRow(raws[i]))
  }

  /** Parsing a statement in two pieces gives the records of the whole. */
  lemma ParseTransactionsConcat(a: seq<RawRow>, b: seq<RawRow>)
    ensures ParseTransactions(a + b) == ParseTransactions(a) + ParseTransactions(b)
  {
    var whole := ParseTransactions(a + b);
    var parts := ParseTransactions(a) + ParseTransactions(b);
    assert |whole| == |parts|;
    forall i | 0 <= i < |whole| ensures whole[i] == parts[i] {
      if i < |a| { assert (a + b)[i] == a[i]; } else { assert (a + b)[i] == b[i - |a|]; }
    }
  }

  /** A transfer row: its record holds the stripped date, the amount and
      the receiver account, and no merchant. */
  lemma TransferRow(date: string, sum: string, account: string)
    requires Trimmed(date)
    requires account != [] && forall i :: 0 <= i < |account| ==> IsAccountChar(account[i])
    ensures ParseRow((date, sum, "Transfer", "Receiver: " + account)).date == date
    ensures ParseRow((date, sum, "Transfer", "Receiver: " + account)).amount == ParseSum(sum)
    ensures ParseRow((date, sum, "Transfer", "Receiver: " + account)).details.receiverAccount == Some(account)
    ensures ParseRow((date, sum, "Transfer", "Receiver: " + account)).details.merchant == None
  {
    StripTrimmed(date);
    ReceiverDetails(account);
  }

  /** The first sample row: a transfer of 30000 to a masked account. */
  lemma FirstSampleRow()
    ensures ParseRow(("31.01.2026", "-30000.00 KZT", "Transfer", "Receiver: 440043******8791")).amount == -30000.0
    ensures ParseRow(("31.01.2026", "-30000.00 KZT", "Transfer", "Receiver: 440043******8791")).details.receiverAccount
         == Some("440043******8791")
  {
    assert "Receiver: " + "440043******8791" == "Receiver: 440043******8791";
    TransferRow("31.01.2026", "-30000.00 KZT", "440043******8791");
    ParseSumExample();
  }
}
