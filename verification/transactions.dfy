/** Bank transactions, their one-record summary and the numbered list the
    chat shows before asking which transaction to detail. */
module Transactions {
  import opened Foundation
  import opened Text

  datatype TransactionStatus = Pending | Completed | Failed | Cancelled

  datatype TransactionType = Deposit | Withdrawal | Transfer | Payment

  function StatusRawValue(s: TransactionStatus): (r: string) {
    match s
    case Pending => "Pending"
    case Completed => "Completed"
    case Failed => "Failed"
    case Cancelled => "Cancelled"
  }

  /** `TransactionStatus(rawValue:)`, used when decoding. */
  function StatusFromRawValue(raw: string): (r: Option<TransactionStatus>) {
    if raw == "Pending" then Some(Pending)
    else if raw == "Completed" then Some(Completed)
    else if raw == "Failed" then Some(Failed)
    else if raw == "Cancelled" then Some(Cancelled)
    else None
  }

  /** Each status has its own raw string, and decoding finds it again. */
  lemma StatusRawValueRoundTrip(s: TransactionStatus, raw: string)
    ensures StatusFromRawValue(StatusRawValue(s)) == Some(s)
    ensures StatusFromRawValue(raw) == Some(s) ==> raw == StatusRawValue(s)
  {
  }

  function TypeRawValue(t: TransactionType): (r: string) {
    match t
    case Deposit => "Deposit"
    case Withdrawal => "Withdrawal"
    case Transfer => "Transfer"
    case Payment => "Payment"
  }

  /** `TransactionType(rawValue:)`, used when decoding. */
  function TypeFromRawValue(raw: string): (r: Option<TransactionType>) {
    if raw == "Deposit" then Some(Deposit)
    else if raw == "Withdrawal" then Some(Withdrawal)
    else if raw == "Transfer" then Some(Transfer)
    else if raw == "Payment" then Some(Payment)
    else None
  }

  /** Each type has its own raw string, and decoding finds it again. */
  lemma TypeRawValueRoundTrip(t: TransactionType, raw: string)
    ensures TypeFromRawValue(TypeRawValue(t)) == Some(t)
    ensures TypeFromRawValue(raw) == Some(t) ==> raw == TypeRawValue(t)
  {
  }

  /** A transaction as the transaction provider delivers it. `kind` is
      the source's `type` field. */
  datatype BankTransaction = BankTransaction(
    id: Uuid,
    date: Date,
    amount: Decimal,
    currency: string,
    senderAccount: string,
    receiverAccount: Option<string>,
    kind: TransactionType,
    status: TransactionStatus,
    description: Option<string>)

  function ReceiverText(t: BankTransaction): (r: string) {
    match t.receiverAccount
    case Some(account) => account
    case None => "N/A"
  }

  function DescriptionText(t: BankTransaction): (r: string) {
    match t.description
    case Some(text) => text
    case None => "No description"
  }

  /** The lines of `summary()`: a header, then one labelled field per line. */
  function SummaryLines(t: BankTransaction, fmt: Formatting): (r: seq<string>)
    ensures |r| == 9
  {
    [ "Transaction Summary:",
      "- ID: " + fmt.uuidText(t.id),
      "- Date: " + fmt.mediumDateShortTime(t.date),
      "- Amount: " + t.currency + " " + fmt.decimalText(t.amount),
      "- Type: " + TypeRawValue(t.kind),
      "- Status: " + StatusRawValue(t.status),
      "- Sender Account: " + t.senderAccount,
      "- Receiver Account: " + ReceiverText(t),
      "- Description: " + DescriptionText(t) ]
  }

  /** `BankTransaction.summary()`. */
  function TransactionSummary(t: BankTransaction, fmt: Formatting): (r: string) {
    Join(SummaryLines(t, fmt), "\n")
  }

  /** No field of the record renders with a line break. */
  predicate SingleLineFields(t: BankTransaction, fmt: Formatting) {
    && '\n' !in fmt.uuidText(t.id)
    && '\n' !in fmt.mediumDateShortTime(t.date)
    && '\n' !in t.currency
    && '\n' !in fmt.decimalText(t.amount)
    && '\n' !in t.senderAccount
    && (t.receiverAccount.Some? ==> '\n' !in t.receiverAccount.value)
    && (t.description.Some? ==> '\n' !in t.description.value)
  }

  /** Read back line by line, the summary is the header followed by ID,
      Date, Amount, Type, Status, Sender Account, Receiver Account and
      Description in that order, with "N/A" for a missing receiver and
      "No description" for a missing description. */
  lemma SummaryLayout(t: BankTransaction, fmt: Formatting)
    requires SingleLineFields(t, fmt)
    ensures var lines := SplitOn(TransactionSummary(t, fmt), '\n');
      && |lines| == 9
      && lines[0] == "Transaction Summary:"
      && lines[1] == "- ID: " + fmt.uuidText(t.id)
      && lines[2] == "- Date: " + fmt.mediumDateShortTime(t.date)
      && lines[3] == "- Amount: " + t.currency + " " + fmt.decimalText(t.amount)
      && lines[4] == "- Type: " + TypeRawValue(t.kind)
      && lines[5] == "- Status: " + StatusRawValue(t.status)
      && lines[6] == "- Sender Account: " + t.senderAccount
      && lines[7] == "- Receiver Account: " + (if t.receiverAccount.None? then "N/A" else t.receiverAccount.value)
      && lines[8] == "- Description: " + (if t.description.None? then "No description" else t.description.value)
  {
    SummaryLinesSingle(t, fmt);
    SplitJoin(SummaryLines(t, fmt), '\n');
  }

  /** A label followed by a value stays on one line. */
  lemma LabelledSingle(caption: string, value: string)
    requires '\n' !in caption && '\n' !in value
    ensures '\n' !in caption + value
  {
  }

  /** Every line of the summary is free of line breaks. */
  lemma SummaryLinesSingle(t: BankTransaction, fmt: Formatting)
    requires SingleLineFields(t, fmt)
    ensures forall k :: 0 <= k < |SummaryLines(t, fmt)| ==> '\n' !in SummaryLines(t, fmt)[k]
  {
    CaptionsSingle();
    FieldTextsSingle(t, fmt);
    LabelledSingle("- ID: ", fmt.uuidText(t.id));
    LabelledSingle("- Date: ", fmt.mediumDateShortTime(t.date));
    LabelledSingle(t.currency, " " + fmt.decimalText(t.amount));
    LabelledSingle("- Amount: ", t.currency + " " + fmt.decimalText(t.amount));
    LabelledSingle("- Type: ", TypeRawValue(t.kind));
    LabelledSingle("- Status: ", StatusRawValue(t.status));
    LabelledSingle("- Sender Account: ", t.senderAccount);
    LabelledSingle("- Receiver Account: ", ReceiverText(t));
    LabelledSingle("- Description: ", DescriptionText(t));
  }

  lemma CaptionsSingle()
    ensures '\n' !in "Transaction Summary:" && '\n' !in "- ID: " && '\n' !in "- Date: "
    ensures '\n' !in "- Amount: " && '\n' !in "- Type: " && '\n' !in "- Status: "
    ensures '\n' !in "- Sender Account: " && '\n' !in "- Receiver Account: "
    ensures '\n' !in "- Description: "
  {
  }

  lemma FieldTextsSingle(t: BankTransaction, fmt: Formatting)
    requires SingleLineFields(t, fmt)
    ensures '\n' !in TypeRawValue(t.kind) && '\n' !in StatusRawValue(t.status)
    ensures '\n' !in ReceiverText(t) && '\n' !in DescriptionText(t)
    ensures '\n' !in " " + fmt.decimalText(t.amount)
  {
  }

  /** One entry of the list: `<type> of <currency> <amount> on <date>`. */
  function ListLine(t: BankTransaction, fmt: Formatting): (r: string) {
    TypeRawValue(t.kind) + " of " + t.currency + " " + fmt.decimalText(t.amount) + " on " + fmt.shortDate(t.date)
  }

  /** A listed line together with the transaction it stands for. */
  datatype Choice = Choice(line: string, transaction: BankTransaction)

  /** The choices `transactionListSummary` builds: one per transaction, in order. */
  function Choices(txs: seq<BankTransaction>, fmt: Formatting): (r: seq<Choice>)
    ensures |r| == |txs|
  {
    seq(|txs|, i requires 0 <= i < |txs| => Choice(ListLine(txs[i], fmt), txs[i]))
  }

  function LinesOf(choices: seq<Choice>): (r: seq<string>)
    ensures |r| == |choices|
  {
    seq(|choices|, i requires 0 <= i < |choices| => choices[i].line)
  }

  function TransactionsOf(choices: seq<Choice>): (r: seq<BankTransaction>)
    ensures |r| == |choices|
  {
    seq(|choices|, i requires 0 <= i < |choices| => choices[i].transaction)
  }

  /** The summary text `transactionListSummary` returns. */
  function ListSummaryText(txs: seq<BankTransaction>, fmt: Formatting): (r: string) {
    if txs == [] then "No transactions available."
    else Join(LinesOf(Choices(txs, fmt)), "\n\n")
  }

  /** `transactionListSummary`: for no transactions the fixed notice and no
      choices; otherwise one choice per transaction, in order, carrying
      that transaction and its list line, and the lines joined by blank
      lines. */
  method TransactionListSummary(txs: seq<BankTransaction>, fmt: Formatting)
    returns (summary: string, details: seq<Choice>)
    ensures txs == [] ==> summary == "No transactions available." && details == []
    ensures |details| == |txs| && TransactionsOf(details) == txs
    ensures forall i :: 0 <= i < |txs| ==> details[i].line == ListLine(txs[i], fmt)
    ensures txs != [] ==> summary == Join(LinesOf(details), "\n\n")
    ensures details == Choices(txs, fmt) && summary == ListSummaryText(txs, fmt)
  {
    var returnArray: seq<Choice> := [];
    if txs == [] {
      return "No transactions available.", [];
    }
    var summaryList: seq<string> := [];
    for i := 0 to |txs|
      invariant |returnArray| == i && |summaryList| == i
      invariant forall k :: 0 <= k < i ==> returnArray[k] == Choice(ListLine(txs[k], fmt), txs[k])
      invariant forall k :: 0 <= k < i ==> summaryList[k] == returnArray[k].line
    {
      var summaryLine := ListLine(txs[i], fmt);
      returnArray := returnArray + [Choice(summaryLine, txs[i])];
      summaryList := summaryList + [summaryLine];
    }
    assert summaryList == LinesOf(returnArray);
    assert TransactionsOf(returnArray) == txs;
    assert returnArray == Choices(txs, fmt);
    summary, details := Join(summaryList, "\n\n"), returnArray;
  }
}
