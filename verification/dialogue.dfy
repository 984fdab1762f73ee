/** What one user message does to the conversation, stated as values:
    which branch answers it, the bot replies it produces, whether the
    branch throws, and how the failure list and the pending-choice state
    change. `ChatViewModels.ChatViewModel` performs these effects in
    place and is proved to match them. */
module Dialogue {
  import opened Foundation
  import opened Text
  import opened Messages
  import opened Transactions
  import opened FeePredictions
  import opened Intents
  import opened Matching

  const Greeting := "Hello,\n\nIf you need any help just shout.\n\nBtw I'm O-AI."
  const WelcomeReply := "You are welcome. " + "Let me know if you have any additional questions"
  const ApologyReply := "Sorry, " + "I couldn't process your request at this time. Please try again later."
  const DetailsPrefix := "Here are the details:\n\n"
  const RecentTransactionsPrefix := "Here are your recent transactions:\n\n"
  const WhichTransactionQuestion := "Which transaction do you want details on?"
  const NoTransactionsReply := "We did not find " + "any transactions in your history."
  const InfoPrefix := "Here is some info that may help:\n\n"
  const GenericReply := "In a real app " + "this would be sent to an LLM for processing. Try asking for 'status of transaction' or 'transfer rate'"
  /** Content holding this (case-sensitive) fails on purpose unless retried. */
  const FailTrigger := "fail"
  const TransferFromCurrency := "USD"
  const TransferToCurrency := "PHP"

  /** What a provider call produced: its value, or the error it threw. */
  datatype Fetch<T> = Fetched(value: T) | FetchFailed

  /** The branches of `handleMessageResponse`. */
  datatype Branch = Gratitude | TransactionChoice | TransactionRequest | TransferInquiry | GenericMessage

  /** The branch that answers `content`: the first that applies, in the
      order gratitude, pending choice, transaction phrase, transfer phrase,
      anything else. */
  function Route(phrases: PhraseTables, content: string, awaiting: bool): (r: Branch) {
    if IsThanks(content, phrases.thankYou) then Gratitude
    else if awaiting then TransactionChoice
    else if ContainsPhrase(content, phrases.transaction) then TransactionRequest
    else if ContainsPhrase(content, phrases.transferInquiry) then TransferInquiry
    else GenericMessage
  }

  /** The simulated failure: the content holds "fail" and this is not a retry. */
  predicate SimulatesFailure(content: string, isRetry: bool) {
    Contains(content, FailTrigger) && !isRetry
  }

  /** The effect of one branch: the bot replies it sends, whether it threw,
      whether it marked the message failed itself, and the pending-choice
      state it leaves. */
  datatype Turn = Turn(
    replies: seq<string>,
    threw: bool,
    markedFailed: bool,
    candidates: seq<Choice>,
    awaiting: bool)

  /** `choices.first(where: { $0.line == line })`. */
  function FirstWithLine(choices: seq<Choice>, line: string): (r: Option<Choice>)
    ensures r.None? <==> forall k :: 0 <= k < |choices| ==> choices[k].line != line
    ensures r.Some? ==> exists k :: && 0 <= k < |choices| && choices[k] == r.value
                                    && r.value.line == line
                                    && forall j :: 0 <= j < k ==> choices[j].line != line
    decreases |choices|
  {
    if choices == [] then None
    else if choices[0].line == line then Some(choices[0])
    else
      var r := FirstWithLine(choices[1..], line);
      assert r.Some? ==> exists k :: && 0 <= k < |choices| && choices[k] == r.value
                                     && forall j :: 0 <= j < k ==> choices[j].line != line by {
        if r.Some? {
          var k :| && 0 <= k < |choices[1..]| && choices[1..][k] == r.value
                   && forall j :: 0 <= j < k ==> choices[1..][j].line != line;
          assert choices[k + 1] == r.value;
          assert forall j :: 0 <= j < k + 1 ==> choices[j].line != line by {
            forall j | 0 <= j < k + 1 ensures choices[j].line != line {
              if j > 0 { assert choices[j] == choices[1..][j - 1]; }
            }
          }
        }
      }
      r
  }

  /** The candidate a reply picks: the first one whose line is the
      closest match to the reply, if any line matches. */
  function ChosenCandidate(content: string, candidates: seq<Choice>): (r: Option<Choice>) {
    match FindClosestMatch(LinesOf(candidates), content)
    case None => None
    case Some(closest) => FirstWithLine(candidates, closest)
  }

  /** The reply that details a chosen transaction. */
  function DetailsReply(t: BankTransaction, fmt: Formatting): (r: string)
    ensures Solid(r)
  {
    SolidPrefix(DetailsPrefix, TransactionSummary(t, fmt));
    DetailsPrefix + TransactionSummary(t, fmt)
  }

  /** `handleTransactionChoice`: detail the listed transaction whose line
      matches the reply best; with nothing to match, change nothing. */
  function ChoiceTurn(content: string, candidates: seq<Choice>, awaiting: bool, fmt: Formatting): (r: Turn) {
    ChoiceOutcome(ChosenCandidate(content, candidates), candidates, awaiting, fmt)
  }

  /** What the choice branch does once the candidate is picked: detail it
      and clear the flag, or do nothing when none was picked. */
  function ChoiceOutcome(chosen: Option<Choice>, candidates: seq<Choice>, awaiting: bool, fmt: Formatting): (r: Turn) {
    match chosen
    case None => Turn([], false, false, candidates, awaiting)
    case Some(choice) =>
      Turn([DetailsReply(choice.transaction, fmt)], false, false, candidates, false)
  }

  /** `handleTransactionRequest`. */
  function RequestTurn(content: string, isRetry: bool, candidates: seq<Choice>, awaiting: bool,
                       transactions: Fetch<seq<BankTransaction>>, fmt: Formatting): (r: Turn)
  {
    if SimulatesFailure(content, isRetry) then Turn([], true, false, candidates, awaiting)
    else match transactions
      case FetchFailed => Turn([], true, false, candidates, awaiting)
      case Fetched(txs) =>
        if txs != [] then
          Turn([RecentTransactionsPrefix + ListSummaryText(txs, fmt), WhichTransactionQuestion],
               false, false, Choices(txs, fmt), true)
        else
          Turn([NoTransactionsReply], false, false, candidates, awaiting)
  }

  /** `handleTransferInquiry`, given what the fee provider returned. */
  function InquiryTurn(content: string, isRetry: bool, candidates: seq<Choice>, awaiting: bool,
                       prediction: Fetch<InternationalTransferFeePrediction>, fmt: Formatting): (r: Turn)
  {
    if SimulatesFailure(content, isRetry) then Turn([], true, false, candidates, awaiting)
    else match prediction
      case FetchFailed => Turn([], true, false, candidates, awaiting)
      case Fetched(p) => Turn([InfoPrefix + PredictionSummary(p, fmt)], false, false, candidates, awaiting)
  }

  /** `handleGenericMessage`: it never throws; a simulated failure marks
      the message failed directly. */
  function GenericTurn(content: string, isRetry: bool, candidates: seq<Choice>, awaiting: bool): (r: Turn) {
    Turn([GenericReply], false, SimulatesFailure(content, isRetry), candidates, awaiting)
  }

  /** `handleMessageResponse`. The fee provider is asked for USD to PHP. */
  function Respond(phrases: PhraseTables, content: string, isRetry: bool, candidates: seq<Choice>, awaiting: bool,
                   transactions: Fetch<seq<BankTransaction>>,
                   predictedFee: (string, string) -> Fetch<InternationalTransferFeePrediction>,
                   fmt: Formatting): (r: Turn)
  {
    BranchTurn(Route(phrases, content, awaiting), content, isRetry, candidates, awaiting, transactions, predictedFee, fmt)
  }

  /** The effect of branch `b` on the message. */
  function BranchTurn(b: Branch, content: string, isRetry: bool, candidates: seq<Choice>, awaiting: bool,
                      transactions: Fetch<seq<BankTransaction>>,
                      predictedFee: (string, string) -> Fetch<InternationalTransferFeePrediction>,
                      fmt: Formatting): (r: Turn)
  {
    match b
    case Gratitude => Turn([WelcomeReply], false, false, candidates, awaiting)
    case TransactionChoice => ChoiceTurn(content, candidates, awaiting, fmt)
    case TransactionRequest => RequestTurn(content, isRetry, candidates, awaiting, transactions, fmt)
    case TransferInquiry =>
      InquiryTurn(content, isRetry, candidates, awaiting, predictedFee(TransferFromCurrency, TransferToCurrency), fmt)
    case GenericMessage => GenericTurn(content, isRetry, candidates, awaiting)
  }

  /** Every bot text of the turn: the branch's replies, then the apology
      when the branch threw. */
  function Replies(t: Turn): (r: seq<string>) {
    t.replies + (if t.threw then [ApologyReply] else [])
  }

  /** `removeAll(where: { $0 == x })`: `xs` without any `x`, order kept. */
  function RemoveAll(xs: seq<Uuid>, x: Uuid): (r: seq<Uuid>)
    ensures |r| <= |xs|
    ensures forall y :: y in r <==> y in xs && y != x
    ensures x !in xs ==> r == xs
    ensures forall y :: y != x ==> multiset(r)[y] == multiset(xs)[y]
    decreases |xs|
  {
    if xs == [] then []
    else
      assert xs == [xs[0]] + xs[1..];
      if xs[0] == x then RemoveAll(xs[1..], x)
      else [xs[0]] + RemoveAll(xs[1..], x)
  }

  /** Removing from a concatenation removes from each part in place, so
      the ids kept stay in their order. */
  lemma {:induction false} RemoveAllAppend(a: seq<Uuid>, b: seq<Uuid>, x: Uuid)
    ensures RemoveAll(a + b, x) == RemoveAll(a, x) + RemoveAll(b, x)
    decreases |a|
  {
    if a == [] {
      assert a + b == b;
    } else {
      assert (a + b)[0] == a[0];
      assert (a + b)[1..] == a[1..] + b;
      RemoveAllAppend(a[1..], b, x);
    }
  }

  /** The failed-id list after a turn on message `id`: a throw appends the
      id; a normal return (after the generic branch's own mark, if any)
      removes every occurrence of it. */
  function Settle(failed: seq<Uuid>, id: Uuid, t: Turn): (r: seq<Uuid>) {
    if t.threw then failed + [id]
    else RemoveAll(failed + (if t.markedFailed then [id] else []), id)
  }

  /** Bot messages with consecutive fresh ids from `firstId`, all stamped `now`. */
  function BotMessages(replies: seq<string>, firstId: Uuid, now: Date): (r: seq<Message>)
    ensures |r| == |replies|
  {
    seq(|replies|, i requires 0 <= i < |replies| => Message(firstId + i, replies[i], false, now))
  }

  /** The first id handed to a bot message in a turn: above every id used
      so far and above the user message's id. */
  function FirstBotId(nextId: Uuid, userId: Uuid): (r: Uuid)
    ensures r >= nextId && r > userId
  {
    if nextId <= userId then userId + 1 else nextId
  }

  // ---------------------------------------------------------------------
  // Properties of a turn

  /** Gratitude is answered first, with the one fixed reply, whatever
      choice is pending. */
  lemma GratitudeWins(phrases: PhraseTables, content: string, isRetry: bool, candidates: seq<Choice>, awaiting: bool,
                      transactions: Fetch<seq<BankTransaction>>,
                      predictedFee: (string, string) -> Fetch<InternationalTransferFeePrediction>,
                      fmt: Formatting)
    requires IsThanks(content, phrases.thankYou)
    ensures Respond(phrases, content, isRetry, candidates, awaiting, transactions, predictedFee, fmt)
         == Turn([WelcomeReply], false, false, candidates, awaiting)
  {
  }

  /** Each branch is taken exactly when it applies and nothing before it
      does: a pending choice hides both phrase tables, and a transaction
      phrase hides a transfer phrase in the same message. */
  lemma RoutePriority(phrases: PhraseTables, content: string, awaiting: bool)
    ensures var r := Route(phrases, content, awaiting);
      var thanks := IsThanks(content, phrases.thankYou);
      var txPhrase := ContainsPhrase(content, phrases.transaction);
      var feePhrase := ContainsPhrase(content, phrases.transferInquiry);
      && (r == Gratitude <==> thanks)
      && (r == TransactionChoice <==> !thanks && awaiting)
      && (r == TransactionRequest <==> !thanks && !awaiting && txPhrase)
      && (r == TransferInquiry <==> !thanks && !awaiting && !txPhrase && feePhrase)
      && (r == GenericMessage <==> !thanks && !awaiting && !txPhrase && !feePhrase)
  {
  }

  /** While a choice is pending and there are candidates, the reply always
      resolves: it details the transaction of the first best-scoring line,
      clears the pending flag, keeps the candidates and never throws. */
  lemma ChoiceResolves(phrases: PhraseTables, content: string, isRetry: bool, candidates: seq<Choice>,
                       transactions: Fetch<seq<BankTransaction>>,
                       predictedFee: (string, string) -> Fetch<InternationalTransferFeePrediction>,
                       fmt: Formatting)
    requires !IsThanks(content, phrases.thankYou) && candidates != []
    ensures var t := Respond(phrases, content, isRetry, candidates, true, transactions, predictedFee, fmt);
      && !t.threw && !t.markedFailed && !t.awaiting && t.candidates == candidates
      && exists k :: && IsClosest(LinesOf(candidates), content, k)
                     && t.replies == [DetailsPrefix + TransactionSummary(candidates[k].transaction, fmt)]
  {
    ChoiceTurnResolves(content, candidates, fmt);
  }

  /** The choice branch on its own: with candidates listed, it details the
      best-scoring one and clears the pending flag. */
  lemma ChoiceTurnResolves(content: string, candidates: seq<Choice>, fmt: Formatting)
    requires candidates != []
    ensures var t := ChoiceTurn(content, candidates, true, fmt);
      && !t.threw && !t.markedFailed && !t.awaiting && t.candidates == candidates
      && exists k :: && IsClosest(LinesOf(candidates), content, k)
                     && t.replies == [DetailsPrefix + TransactionSummary(candidates[k].transaction, fmt)]
  {
    var lines := LinesOf(candidates);
    var closest := FindClosestMatch(lines, content).value;
    ClosestMatchIsBest(lines, content);
    var k :| IsClosest(lines, content, k) && lines[k] == closest;
    assert candidates[k].line == closest;
    var choice := FirstWithLine(candidates, closest).value;
    var m :| && 0 <= m < |candidates| && candidates[m] == choice && choice.line == closest
             && forall j :: 0 <= j < m ==> candidates[j].line != closest;
    assert m <= k;
    assert lines[m] == lines[k];
    assert m == k by {
      assert !(ScoreOf(lines[m], content) < ScoreOf(lines[k], content));
    }
  }

  /** While a choice is pending with no candidates, a non-gratitude reply
      changes nothing and sends nothing: the choice stays pending. */
  lemma ChoiceWithoutCandidates(phrases: PhraseTables, content: string, isRetry: bool,
                                transactions: Fetch<seq<BankTransaction>>,
                                predictedFee: (string, string) -> Fetch<InternationalTransferFeePrediction>,
                                fmt: Formatting)
    requires !IsThanks(content, phrases.thankYou)
    ensures Respond(phrases, content, isRetry, [], true, transactions, predictedFee, fmt) == Turn([], false, false, [], true)
  {
  }

  /** A pending choice always has candidates: only a transaction request
      with transactions sets the flag, and it lists one candidate per
      transaction; no branch empties the list. So the state of
      `ChoiceWithoutCandidates` is never reached from a fresh model. */
  lemma RespondKeepsCandidates(phrases: PhraseTables, content: string, isRetry: bool, candidates: seq<Choice>, awaiting: bool,
                               transactions: Fetch<seq<BankTransaction>>,
                               predictedFee: (string, string) -> Fetch<InternationalTransferFeePrediction>,
                               fmt: Formatting)
    requires awaiting ==> candidates != []
    ensures var t := Respond(phrases, content, isRetry, candidates, awaiting, transactions, predictedFee, fmt);
      t.awaiting ==> t.candidates != []
  {
  }

  /** A transaction request that goes through lists the transactions and
      asks which one to detail, making them the candidates and setting
      the pending flag; with no transactions it only says so and leaves
      the flag down. */
  lemma TransactionRequestOutputs(phrases: PhraseTables, content: string, isRetry: bool, candidates: seq<Choice>, awaiting: bool,
                                  txs: seq<BankTransaction>,
                                  predictedFee: (string, string) -> Fetch<InternationalTransferFeePrediction>,
                                  fmt: Formatting)
    requires Route(phrases, content, awaiting) == TransactionRequest && !SimulatesFailure(content, isRetry)
    ensures var t := Respond(phrases, content, isRetry, candidates, awaiting, Fetched(txs), predictedFee, fmt);
      && !t.threw && !t.markedFailed
      && (txs != [] ==>
            && t.replies == [RecentTransactionsPrefix + Join(LinesOf(Choices(txs, fmt)), "\n\n"),
                             WhichTransactionQuestion]
            && t.candidates == Choices(txs, fmt) && TransactionsOf(t.candidates) == txs
            && t.awaiting)
      && (txs == [] ==>
            t.replies == [NoTransactionsReply] && t.candidates == candidates && !t.awaiting)
  {
    assert TransactionsOf(Choices(txs, fmt)) == txs;
  }

  /** A transfer inquiry that goes through sends one reply: the info prefix
      and the summary of the USD to PHP prediction. */
  lemma TransferInquiryOutput(phrases: PhraseTables, content: string, isRetry: bool, candidates: seq<Choice>, awaiting: bool,
                              transactions: Fetch<seq<BankTransaction>>,
                              predictedFee: (string, string) -> Fetch<InternationalTransferFeePrediction>,
                              p: InternationalTransferFeePrediction, fmt: Formatting)
    requires Route(phrases, content, awaiting) == TransferInquiry && !SimulatesFailure(content, isRetry)
    requires predictedFee("USD", "PHP") == Fetched(p)
    ensures var t := Respond(phrases, content, isRetry, candidates, awaiting, transactions, predictedFee, fmt);
      && t == Turn([InfoPrefix + PredictionSummary(p, fmt)], false, false, candidates, awaiting)
      && InfoPrefix <= t.replies[0]
  {
  }

  /** Only the two provider branches throw, and exactly when the failure is
      simulated or their provider failed; a throw sends nothing and leaves
      the pending-choice state as it was. */
  lemma ThrowsExactly(phrases: PhraseTables, content: string, isRetry: bool, candidates: seq<Choice>, awaiting: bool,
                      transactions: Fetch<seq<BankTransaction>>,
                      predictedFee: (string, string) -> Fetch<InternationalTransferFeePrediction>,
                      fmt: Formatting)
    ensures var t := Respond(phrases, content, isRetry, candidates, awaiting, transactions, predictedFee, fmt);
      var b := Route(phrases, content, awaiting);
      && (t.threw <==>
            || (b == TransactionRequest && (SimulatesFailure(content, isRetry) || transactions.FetchFailed?))
            || (b == TransferInquiry && (SimulatesFailure(content, isRetry)
                                         || predictedFee("USD", "PHP").FetchFailed?)))
      && (t.threw ==> t.replies == [] && t.candidates == candidates && t.awaiting == awaiting)
      && (t.markedFailed <==> b == GenericMessage && SimulatesFailure(content, isRetry))
  {
    var b := Route(phrases, content, awaiting);
    if b == TransactionChoice {
      var t := ChoiceTurn(content, candidates, awaiting, fmt);
      assert !t.threw && !t.markedFailed;
    }
  }

  /** Only the generic branch marks a message failed, and it never throws. */
  lemma ThrowNeverMarks(phrases: PhraseTables, content: string, isRetry: bool, candidates: seq<Choice>,
                        awaiting: bool, transactions: Fetch<seq<BankTransaction>>,
                        predictedFee: (string, string) -> Fetch<InternationalTransferFeePrediction>,
                        fmt: Formatting)
    ensures var t := Respond(phrases, content, isRetry, candidates, awaiting, transactions, predictedFee, fmt);
      !(t.threw && t.markedFailed)
  {
    ThrowsExactly(phrases, content, isRetry, candidates, awaiting, transactions, predictedFee, fmt);
  }

  /** After a turn the message's id is in the failed list exactly when the
      branch threw, and no other id's membership changes. */
  lemma FailedIffThrew(failed: seq<Uuid>, id: Uuid, t: Turn)
    ensures id in Settle(failed, id, t) <==> t.threw
    ensures forall y :: y != id ==> (y in Settle(failed, id, t) <==> y in failed)
  {
  }

  /** The generic branch's own failure mark is erased by the normal return. */
  lemma GenericMarkErased(phrases: PhraseTables, content: string, isRetry: bool, candidates: seq<Choice>, awaiting: bool,
                          transactions: Fetch<seq<BankTransaction>>,
                          predictedFee: (string, string) -> Fetch<InternationalTransferFeePrediction>,
                          fmt: Formatting, failed: seq<Uuid>, id: Uuid)
    requires Route(phrases, content, awaiting) == GenericMessage && SimulatesFailure(content, isRetry)
    ensures var t := Respond(phrases, content, isRetry, candidates, awaiting, transactions, predictedFee, fmt);
      && t.markedFailed && !t.threw
      && id !in Settle(failed, id, t)
      && Replies(t) == [GenericReply]
  {
  }

  /** A provider request holding "fail" throws when first sent and, its
      provider answering, goes through when retried: the message is
      marked failed after the first turn and unmarked after the retry. */
  lemma RetryRecovers(phrases: PhraseTables, content: string, candidates: seq<Choice>, awaiting: bool,
                      transactions: Fetch<seq<BankTransaction>>,
                      predictedFee: (string, string) -> Fetch<InternationalTransferFeePrediction>,
                      fmt: Formatting, failed: seq<Uuid>, id: Uuid)
    requires Route(phrases, content, awaiting) in {TransactionRequest, TransferInquiry}
    requires Contains(content, FailTrigger)
    requires transactions.Fetched? && predictedFee("USD", "PHP").Fetched?
    ensures var first := Respond(phrases, content, false, candidates, awaiting, transactions, predictedFee, fmt);
      var retry := Respond(phrases, content, true, first.candidates, first.awaiting, transactions, predictedFee, fmt);
      && first.threw && Replies(first) == [ApologyReply]
      && id in Settle(failed, id, first)
      && !retry.threw && retry.replies != []
      && id !in Settle(Settle(failed, id, first), id, retry)
  {
  }

  /** The text starts with a character that is not whitespace. */
  predicate Solid(r: string) {
    r != [] && !IsWhitespace(r[0])
  }

  lemma SolidPrefix(prefix: string, rest: string)
    requires Solid(prefix)
    ensures Solid(prefix + rest)
  {
    assert (prefix + rest)[0] == prefix[0];
  }

  lemma ChoiceTurnSolid(content: string, candidates: seq<Choice>, awaiting: bool, fmt: Formatting)
    ensures forall r :: r in ChoiceTurn(content, candidates, awaiting, fmt).replies ==> Solid(r)
  {
    match ChosenCandidate(content, candidates)
    case None =>
    case Some(choice) =>
  }

  lemma RequestTurnSolid(content: string, isRetry: bool, candidates: seq<Choice>, awaiting: bool,
                         transactions: Fetch<seq<BankTransaction>>, fmt: Formatting)
    ensures forall r :: r in RequestTurn(content, isRetry, candidates, awaiting, transactions, fmt).replies ==> Solid(r)
  {
    if SimulatesFailure(content, isRetry) {
    } else {
      match transactions
      case FetchFailed =>
      case Fetched(txs) =>
        if txs != [] {
          SolidPrefix(RecentTransactionsPrefix, ListSummaryText(txs, fmt));
          assert WhichTransactionQuestion[0] == 'W';
        } else {
          assert NoTransactionsReply[0] == 'W';
        }
    }
  }

  lemma InquiryTurnSolid(content: string, isRetry: bool, candidates: seq<Choice>, awaiting: bool,
                         prediction: Fetch<InternationalTransferFeePrediction>, fmt: Formatting)
    ensures forall r :: r in InquiryTurn(content, isRetry, candidates, awaiting, prediction, fmt).replies ==> Solid(r)
  {
    if !SimulatesFailure(content, isRetry) && prediction.Fetched? {
      SolidPrefix(InfoPrefix, PredictionSummary(prediction.value, fmt));
    }
  }

  lemma RespondSolid(phrases: PhraseTables, content: string, isRetry: bool, candidates: seq<Choice>, awaiting: bool,
                     transactions: Fetch<seq<BankTransaction>>,
                     predictedFee: (string, string) -> Fetch<InternationalTransferFeePrediction>,
                     fmt: Formatting)
    ensures forall r :: r in Replies(Respond(phrases, content, isRetry, candidates, awaiting, transactions, predictedFee, fmt)) ==> Solid(r)
  {
    BranchSolid(Route(phrases, content, awaiting), content, isRetry, candidates, awaiting, transactions, predictedFee, fmt);
  }

  lemma BranchSolid(b: Branch, content: string, isRetry: bool, candidates: seq<Choice>, awaiting: bool,
                    transactions: Fetch<seq<BankTransaction>>,
                    predictedFee: (string, string) -> Fetch<InternationalTransferFeePrediction>,
                    fmt: Formatting)
    ensures forall r :: r in Replies(BranchTurn(b, content, isRetry, candidates, awaiting, transactions, predictedFee, fmt)) ==> Solid(r)
  {
    match b {
      case Gratitude => assert WelcomeReply[0] == 'Y';
      case TransactionChoice => ChoiceTurnSolid(content, candidates, awaiting, fmt);
      case TransactionRequest => RequestTurnSolid(content, isRetry, candidates, awaiting, transactions, fmt);
      case TransferInquiry =>
        InquiryTurnSolid(content, isRetry, candidates, awaiting, predictedFee(TransferFromCurrency, TransferToCurrency), fmt);
      case GenericMessage => assert GenericReply[0] == 'I';
    }
    assert ApologyReply[0] == 'S';
  }

  lemma SolidNotBlank(rs: seq<string>)
    requires forall r :: r in rs ==> Solid(r)
    ensures forall i :: 0 <= i < |rs| ==> !IsBlank(rs[i])
  {
    forall i | 0 <= i < |rs| ensures !IsBlank(rs[i]) {
      assert rs[i] in rs;
      NotBlankWhenLeadingSolid(rs[i]);
    }
  }

  /** No bot text of a turn is blank, so every one of them is sent. */
  lemma RepliesNotBlank(phrases: PhraseTables, content: string, isRetry: bool, candidates: seq<Choice>, awaiting: bool,
                        transactions: Fetch<seq<BankTransaction>>,
                        predictedFee: (string, string) -> Fetch<InternationalTransferFeePrediction>,
                        fmt: Formatting)
    ensures var rs := Replies(Respond(phrases, content, isRetry, candidates, awaiting, transactions, predictedFee, fmt));
      forall i :: 0 <= i < |rs| ==> !IsBlank(rs[i])
  {
    RespondSolid(phrases, content, isRetry, candidates, awaiting, transactions, predictedFee, fmt);
    SolidNotBlank(Replies(Respond(phrases, content, isRetry, candidates, awaiting, transactions, predictedFee, fmt)));
  }
}
