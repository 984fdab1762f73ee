/** International transfer fee predictions and their chat summaries. */
module FeePredictions {
  import opened Foundation
  import opened Text

  datatype FeeType = Fixed | Percentage | ExchangeRateMarkup

  function FeeTypeRawValue(t: FeeType): (r: string) {
    match t
    case Fixed => "Fixed Fee"
    case Percentage => "Percentage Fee"
    case ExchangeRateMarkup => "Exchange Rate Markup"
  }

  /** `FeeType(rawValue:)`, used when decoding. */
  function FeeTypeFromRawValue(raw: string): (r: Option<FeeType>) {
    if raw == "Fixed Fee" then Some(Fixed)
    else if raw == "Percentage Fee" then Some(Percentage)
    else if raw == "Exchange Rate Markup" then Some(ExchangeRateMarkup)
    else None
  }

  /** Each fee type has its own raw string, and decoding finds it again. */
  lemma FeeTypeRawValueRoundTrip(t: FeeType, raw: string)
    ensures FeeTypeFromRawValue(FeeTypeRawValue(t)) == Some(t)
    ensures FeeTypeFromRawValue(raw) == Some(t) ==> raw == FeeTypeRawValue(t)
  {
  }

  /** One predicted fee. `kind` is the source's `type` field. */
  datatype PredictedFee = PredictedFee(
    id: Uuid,
    kind: FeeType,
    amount: Decimal,
    currency: string,
    description: Option<string>)

  /** `PredictedFee.summary()`: `<type>: <currency> <amount> (<description>)`. */
  function PredictedFeeSummary(f: PredictedFee, fmt: Formatting): (r: string) {
    var descriptionText := match f.description
      case Some(text) => text
      case None => "No description provided";
    FeeTypeRawValue(f.kind) + ": " + f.currency + " " + fmt.decimalText(f.amount) + " (" + descriptionText + ")"
  }

  /** The fee summary opens with the type and currency, closes with the
      parenthesised description, "No description provided" when absent,
      and holds the formatted amount between the two. */
  lemma PredictedFeeSummaryShape(f: PredictedFee, fmt: Formatting)
    ensures var r := PredictedFeeSummary(f, fmt);
      var opening := FeeTypeRawValue(f.kind) + ": " + f.currency + " ";
      var closing := " (" + (if f.description.None? then "No description provided" else f.description.value) + ")";
      && opening <= r
      && |opening| + |closing| <= |r| && r[|r| - |closing|..] == closing
      && r[|opening|..|r| - |closing|] == fmt.decimalText(f.amount)
  {
    var opening := FeeTypeRawValue(f.kind) + ": " + f.currency + " ";
    var closing := " (" + (if f.description.None? then "No description provided" else f.description.value) + ")";
    var amount := fmt.decimalText(f.amount);
    assert PredictedFeeSummary(f, fmt) == opening + amount + closing;
  }

  datatype CurrencyExchangeDetails = CurrencyExchangeDetails(
    fromCurrency: string,
    toCurrency: string,
    exchangeRate: Decimal,
    exchangeRateMarkup: Decimal)

  datatype BestTimeToTransfer = BestTimeToTransfer(dates: seq<Date>)

  function FormattedDates(b: BestTimeToTransfer, fmt: Formatting): (r: seq<string>)
    ensures |r| == |b.dates|
  {
    seq(|b.dates|, i requires 0 <= i < |b.dates| => fmt.mediumDate(b.dates[i]))
  }

  const BestDatesHeader := "Best Dates to Transfer:"

  /** `BestTimeToTransfer.summary()`: a header line, then the dates joined
      by newlines. */
  function BestTimeSummary(b: BestTimeToTransfer, fmt: Formatting): (r: string) {
    BestDatesHeader + "\n" + Join(FormattedDates(b, fmt), "\n")
  }

  /** No date renders with a line break. */
  predicate SingleLineDates(b: BestTimeToTransfer, fmt: Formatting) {
    forall i :: 0 <= i < |b.dates| ==> '\n' !in fmt.mediumDate(b.dates[i])
  }

  /** Without dates the summary is the header and a newline, so read back
      line by line it is the header and one empty line; with dates it is
      the header and then each date in order. */
  lemma BestTimeSummaryLines(b: BestTimeToTransfer, fmt: Formatting)
    requires SingleLineDates(b, fmt)
    ensures b.dates == [] ==> BestTimeSummary(b, fmt) == BestDatesHeader + "\n"
    ensures SplitOn(BestTimeSummary(b, fmt), '\n')
         == [BestDatesHeader] + (if b.dates == [] then [""] else FormattedDates(b, fmt))
  {
    var dates := FormattedDates(b, fmt);
    assert '\n' !in BestDatesHeader;
    SplitOnHead(BestDatesHeader, '\n', Join(dates, "\n"));
    if b.dates != [] {
      SplitJoin(dates, '\n');
    } else {
      assert SplitOn("", '\n') == [""] by {
        assert IndexOf("", '\n') == 0;
      }
    }
  }

  datatype InternationalTransferFeePrediction = InternationalTransferFeePrediction(
    transferAmount: Decimal,
    fromCurrency: string,
    toCurrency: string,
    predictedFees: seq<PredictedFee>,
    exchangeDetails: CurrencyExchangeDetails,
    totalFee: Decimal,
    totalAmountInDestinationCurrency: Decimal,
    bestTimeToTransfer: BestTimeToTransfer)

  function TotalFeesLine(p: InternationalTransferFeePrediction, fmt: Formatting): (r: string) {
    "Total Fees: " + p.fromCurrency + " " + fmt.decimalText(p.totalFee)
  }

  function ExchangeRateLine(p: InternationalTransferFeePrediction, fmt: Formatting): (r: string) {
    "1 " + p.fromCurrency + " = " + fmt.decimalText(p.exchangeDetails.exchangeRate) + " " + p.toCurrency
  }

  const ExchangeRateCaption := "Current Exchange Rate: "

  /** `InternationalTransferFeePrediction.summary()`. */
  function PredictionSummary(p: InternationalTransferFeePrediction, fmt: Formatting): (r: string) {
    TotalFeesLine(p, fmt) + "\n"
    + ExchangeRateCaption + "\n"
    + ExchangeRateLine(p, fmt) + "\n"
    + "\n"
    + BestTimeSummary(p.bestTimeToTransfer, fmt)
  }

  /** The prediction summary starts with the total fee in the source
      currency, holds the exchange rate between the prediction's own two
      currencies and ends with the best-time summary. */
  lemma PredictionSummaryLayout(p: InternationalTransferFeePrediction, fmt: Formatting)
    ensures var r := PredictionSummary(p, fmt);
      var best := BestTimeSummary(p.bestTimeToTransfer, fmt);
      && "Total Fees: " + p.fromCurrency + " " + fmt.decimalText(p.totalFee) <= r
      && Contains(r, "1 " + p.fromCurrency + " = " + fmt.decimalText(p.exchangeDetails.exchangeRate) + " " + p.toCurrency)
      && |best| <= |r| && r[|r| - |best|..] == best
  {
    var r := PredictionSummary(p, fmt);
    var offset := |TotalFeesLine(p, fmt) + "\n" + ExchangeRateCaption + "\n"|;
    assert ExchangeRateLine(p, fmt) <= r[offset..];
    ContainsAt(r, ExchangeRateLine(p, fmt), offset);
  }

  /** With single-line fields, the summary's lines are the total fee, the
      "Current Exchange Rate: " caption, the rate, a blank line, the
      best-time header and then each best date in order. */
  lemma PredictionSummaryLines(p: InternationalTransferFeePrediction, fmt: Formatting)
    requires '\n' !in p.fromCurrency && '\n' !in p.toCurrency
    requires '\n' !in fmt.decimalText(p.totalFee)
    requires '\n' !in fmt.decimalText(p.exchangeDetails.exchangeRate)
    requires SingleLineDates(p.bestTimeToTransfer, fmt)
    ensures SplitOn(PredictionSummary(p, fmt), '\n')
         == [TotalFeesLine(p, fmt), ExchangeRateCaption, ExchangeRateLine(p, fmt), "", BestDatesHeader]
            + (if p.bestTimeToTransfer.dates == [] then [""] else FormattedDates(p.bestTimeToTransfer, fmt))
  {
    var front := [TotalFeesLine(p, fmt), ExchangeRateCaption, ExchangeRateLine(p, fmt), ""];
    var best := BestTimeSummary(p.bestTimeToTransfer, fmt);
    PredictionSummaryAsLines(p, fmt);
    HeadLinesSingle(p, fmt);
    SplitOnAfter(front, '\n', best);
    BestTimeSummaryLines(p.bestTimeToTransfer, fmt);
    var five := front + [BestDatesHeader];
    var rest := if p.bestTimeToTransfer.dates == [] then [""] else FormattedDates(p.bestTimeToTransfer, fmt);
    assert SplitOn(best, '\n') == [BestDatesHeader] + rest;
    assert front + ([BestDatesHeader] + rest) == five + rest;
  }

  lemma HeadLinesSingle(p: InternationalTransferFeePrediction, fmt: Formatting)
    requires '\n' !in p.fromCurrency && '\n' !in p.toCurrency
    requires '\n' !in fmt.decimalText(p.totalFee)
    requires '\n' !in fmt.decimalText(p.exchangeDetails.exchangeRate)
    ensures var front := [TotalFeesLine(p, fmt), ExchangeRateCaption, ExchangeRateLine(p, fmt), ""];
      forall k :: 0 <= k < |front| ==> '\n' !in front[k]
  {
    assert '\n' !in ExchangeRateCaption;
    assert '\n' !in "Total Fees: ";
    assert '\n' !in "1 ";
  }

  /** The summary is its first four lines joined by newlines, a newline,
      and the best-time block. */
  lemma PredictionSummaryAsLines(p: InternationalTransferFeePrediction, fmt: Formatting)
    ensures PredictionSummary(p, fmt)
         == Join([TotalFeesLine(p, fmt), ExchangeRateCaption, ExchangeRateLine(p, fmt), ""], "\n")
            + "\n" + BestTimeSummary(p.bestTimeToTransfer, fmt)
  {
    var l1, l2, l3 := TotalFeesLine(p, fmt), ExchangeRateCaption, ExchangeRateLine(p, fmt);
    assert Join([l3, ""], "\n") == l3 + "\n" + "" by {
      assert [l3, ""][1..] == [""];
    }
    assert Join([l2, l3, ""], "\n") == l2 + "\n" + Join([l3, ""], "\n") by {
      assert [l2, l3, ""][1..] == [l3, ""];
    }
    assert Join([l1, l2, l3, ""], "\n") == l1 + "\n" + Join([l2, l3, ""], "\n") by {
      assert [l1, l2, l3, ""][1..] == [l2, l3, ""];
    }
  }

  /** The summary reads only the currencies, the total fee, the exchange
      rate and the best dates: the fee list, the transfer amount, the
      destination total and the markup never show. */
  lemma PredictionSummaryIgnores(p: InternationalTransferFeePrediction, q: InternationalTransferFeePrediction, fmt: Formatting)
    requires p.fromCurrency == q.fromCurrency && p.toCurrency == q.toCurrency
    requires p.totalFee == q.totalFee
    requires p.exchangeDetails.exchangeRate == q.exchangeDetails.exchangeRate
    requires p.bestTimeToTransfer == q.bestTimeToTransfer
    ensures PredictionSummary(p, fmt) == PredictionSummary(q, fmt)
  {
  }
}
