/** The chat screen's state object: the conversation, the ids of messages
    whose processing failed, the text being composed, and the transactions
    offered for a detail request. Its methods change that state in place;
    each is proved to produce exactly the state the `Dialogue` functions
    describe. */
module ChatViewModels {
  import opened Foundation
  import opened Text
  import opened Messages
  import opened Transactions
  import opened FeePredictions
  import opened Intents
  import opened Matching
  import opened Dialogue

  class ChatViewModel {
    var messages: seq<Message>
    var failedMessageIDs: seq<Uuid>
    var newMessage: string
    var transactionsToChooseFrom: seq<Choice>
    var awaitingTheChoosingOfATransaction: bool
    /** Every id below this one is taken; a new bot message takes it. This
        stands in for the fresh random UUID each message gets. */
    var nextId: Uuid
    /** How dates, amounts and ids are rendered. */
    const fmt: Formatting
    /** The phrase tables the message classifiers consult. */
    const phrases: PhraseTables

    /** Every message's id was handed out already, so a new id is unused,
        and a pending choice has candidates to choose from. */
    ghost predicate Valid()
      reads this
    {
      && IdsBelow(messages, nextId)
      && (awaitingTheChoosingOfATransaction ==> transactionsToChooseFrom != [])
    }

    /** A new conversation holds only the greeting. */
    constructor(fmt: Formatting, now: Date)
      ensures messages == [Message(0, Greeting, false, now)]
      ensures failedMessageIDs == [] && newMessage == ""
      ensures transactionsToChooseFrom == [] && !awaitingTheChoosingOfATransaction
      ensures nextId == 1 && this.fmt == fmt && phrases == StandardPhrases
      ensures Valid()
    {
      messages := [Message(0, Greeting, false, now)];
      failedMessageIDs := [];
      newMessage := "";
      transactionsToChooseFrom := [];
      awaitingTheChoosingOfATransaction := false;
      nextId := 1;
      this.fmt := fmt;
      phrases := StandardPhrases;
    }

    /** Appends a bot message with a fresh id, unless the text is blank. */
    method SendBotResponse(content: string, now: Date)
      requires Valid()
      modifies this`messages, this`nextId
      ensures Valid()
      ensures IsBlank(content) ==> messages == old(messages) && nextId == old(nextId)
      ensures !IsBlank(content) ==>
        && messages == old(messages) + [Message(old(nextId), content, false, now)]
        && nextId == old(nextId) + 1
    {
      if IsBlank(content) {
        return;
      }
      messages := messages + [Message(nextId, content, false, now)];
      nextId := nextId + 1;
    }

    /** Sends each non-blank text as a bot message, in order. */
    method SendBotResponses(replies: seq<string>, now: Date)
      requires Valid()
      requires forall r :: r in replies ==> Solid(r)
      modifies this`messages, this`nextId
      ensures Valid()
      ensures messages == old(messages) + BotMessages(replies, old(nextId), now)
      ensures nextId == old(nextId) + |replies|
    {
      for i := 0 to |replies|
        invariant Valid()
        invariant messages == old(messages) + BotMessages(replies[..i], old(nextId), now)
        invariant nextId == old(nextId) + i
      {
        assert replies[i] in replies;
        NotBlankWhenLeadingSolid(replies[i]);
        SendBotResponse(replies[i], now);
        assert replies[..i + 1] == replies[..i] + [replies[i]];
        BotMessagesSnoc(replies[..i], replies[i], old(nextId), now);
      }
      assert replies[..|replies|] == replies;
    }

    /** Answers a reply while a choice is pending: details the listed
        transaction whose line matches best and clears the flag. */
    method HandleTransactionChoice(message: Message, now: Date)
      requires Valid()
      modifies this`messages, this`nextId, this`awaitingTheChoosingOfATransaction
      ensures Valid()
      ensures var t := ChoiceTurn(message.content, transactionsToChooseFrom,
                                  old(awaitingTheChoosingOfATransaction), fmt);
        && messages == old(messages) + BotMessages(t.replies, old(nextId), now)
        && nextId == old(nextId) + |t.replies|
        && awaitingTheChoosingOfATransaction == t.awaiting
    {
      var choice := ChosenCandidate(message.content, transactionsToChooseFrom);
      DetailChosen(choice, now);
    }

    /** The end of `handleTransactionChoice`: details the picked candidate,
        if there is one, and clears the flag. */
    method DetailChosen(choice: Option<Choice>, now: Date)
      requires Valid()
      modifies this`messages, this`nextId, this`awaitingTheChoosingOfATransaction
      ensures Valid()
      ensures var t := ChoiceOutcome(choice, transactionsToChooseFrom,
                                     old(awaitingTheChoosingOfATransaction), fmt);
        && messages == old(messages) + BotMessages(t.replies, old(nextId), now)
        && nextId == old(nextId) + |t.replies|
        && awaitingTheChoosingOfATransaction == t.awaiting
    {
      if choice.Some? {
        SendBotResponses([DetailsReply(choice.value.transaction, fmt)], now);
        awaitingTheChoosingOfATransaction := false;
      }
    }

    /** Fetches the transactions and offers them for a detail request, or
        says there are none; `threw` reports the simulated failure or the
        provider's error. */
    method HandleTransactionRequest(message: Message, isRetry: bool,
                                    transactions: Fetch<seq<BankTransaction>>, now: Date)
      returns (threw: bool)
      requires Valid()
      modifies this`messages, this`nextId, this`transactionsToChooseFrom,
               this`awaitingTheChoosingOfATransaction
      ensures Valid()
      ensures var t := RequestTurn(message.content, isRetry, old(transactionsToChooseFrom),
                                   old(awaitingTheChoosingOfATransaction), transactions, fmt);
        && threw == t.threw
        && messages == old(messages) + BotMessages(t.replies, old(nextId), now)
        && nextId == old(nextId) + |t.replies|
        && transactionsToChooseFrom == t.candidates
        && awaitingTheChoosingOfATransaction == t.awaiting
    {
      RequestTurnSolid(message.content, isRetry, transactionsToChooseFrom,
                       awaitingTheChoosingOfATransaction, transactions, fmt);
      if Contains(message.content, FailTrigger) && !isRetry {
        return true;
      }
      if transactions.FetchFailed? {
        return true;
      }
      var txs := transactions.value;
      if txs != [] {
        var summary, details := TransactionListSummary(txs, fmt);
        transactionsToChooseFrom := details;
        SendBotResponses([RecentTransactionsPrefix + summary, WhichTransactionQuestion], now);
        awaitingTheChoosingOfATransaction := true;
      } else {
        SendBotResponses([NoTransactionsReply], now);
      }
      threw := false;
    }

    /** Asks the fee provider about a USD to PHP transfer and passes its
        summary on; `threw` reports the simulated failure or the
        provider's error. */
    method HandleTransferInquiry(message: Message, isRetry: bool,
                                 predictedFee: (string, string) -> Fetch<InternationalTransferFeePrediction>,
                                 now: Date)
      returns (threw: bool)
      requires Valid()
      modifies this`messages, this`nextId
      ensures Valid()
      ensures var t := InquiryTurn(message.content, isRetry, transactionsToChooseFrom,
                                   awaitingTheChoosingOfATransaction,
                                   predictedFee(TransferFromCurrency, TransferToCurrency), fmt);
        && threw == t.threw
        && messages == old(messages) + BotMessages(t.replies, old(nextId), now)
        && nextId == old(nextId) + |t.replies|
    {
      var prediction := predictedFee(TransferFromCurrency, TransferToCurrency);
      InquiryTurnSolid(message.content, isRetry, transactionsToChooseFrom,
                       awaitingTheChoosingOfATransaction, prediction, fmt);
      if Contains(message.content, FailTrigger) && !isRetry {
        return true;
      }
      if prediction.FetchFailed? {
        return true;
      }
      SendBotResponses([InfoPrefix + PredictionSummary(prediction.value, fmt)], now);
      threw := false;
    }

    /** Sends the stock reply; a simulated failure only marks the message. */
    method HandleGenericMessage(message: Message, isRetry: bool, now: Date)
      requires Valid()
      modifies this`messages, this`nextId, this`failedMessageIDs
      ensures Valid()
      ensures var t := GenericTurn(message.content, isRetry, transactionsToChooseFrom,
                                   awaitingTheChoosingOfATransaction);
        && messages == old(messages) + BotMessages(t.replies, old(nextId), now)
        && nextId == old(nextId) + |t.replies|
        && failedMessageIDs == old(failedMessageIDs) + (if t.markedFailed then [message.id] else [])
    {
      if Contains(message.content, FailTrigger) && !isRetry {
        failedMessageIDs := failedMessageIDs + [message.id];
      }
      assert GenericReply[0] == 'I';
      SendBotResponses([GenericReply], now);
    }

    /** Marks the message failed and apologises. */
    method HandleMessageError(message: Message, now: Date)
      requires Valid()
      modifies this`messages, this`nextId, this`failedMessageIDs
      ensures Valid()
      ensures failedMessageIDs == old(failedMessageIDs) + [message.id]
      ensures messages == old(messages) + BotMessages([ApologyReply], old(nextId), now)
      ensures nextId == old(nextId) + 1
    {
      failedMessageIDs := failedMessageIDs + [message.id];
      assert ApologyReply[0] == 'S';
      SendBotResponses([ApologyReply], now);
    }

    /** `handleMessageResponse`: picks the first branch that applies to
        the message and runs it. */
    method HandleMessageResponse(message: Message, isRetry: bool,
                                 transactions: Fetch<seq<BankTransaction>>,
                                 predictedFee: (string, string) -> Fetch<InternationalTransferFeePrediction>,
                                 now: Date)
      returns (threw: bool)
      requires Valid()
      modifies this`messages, this`nextId, this`failedMessageIDs, this`transactionsToChooseFrom,
               this`awaitingTheChoosingOfATransaction
      ensures Valid()
      ensures var t := Respond(phrases, message.content, isRetry, old(transactionsToChooseFrom),
                               old(awaitingTheChoosingOfATransaction), transactions, predictedFee, fmt);
        && threw == t.threw
        && messages == old(messages) + BotMessages(t.replies, old(nextId), now)
        && nextId == old(nextId) + |t.replies|
        && failedMessageIDs == old(failedMessageIDs) + (if t.markedFailed then [message.id] else [])
        && transactionsToChooseFrom == t.candidates
        && awaitingTheChoosingOfATransaction == t.awaiting
    {
      var branch := Route(phrases, message.content, awaitingTheChoosingOfATransaction);
      threw := Dispatch(branch, message, isRetry, transactions, predictedFee, now);
    }

    /** Runs the handler of `branch`; the gratitude branch replies directly. */
    method Dispatch(branch: Branch, message: Message, isRetry: bool,
                    transactions: Fetch<seq<BankTransaction>>,
                    predictedFee: (string, string) -> Fetch<InternationalTransferFeePrediction>,
                    now: Date)
      returns (threw: bool)
      requires Valid()
      modifies this`messages, this`nextId, this`failedMessageIDs, this`transactionsToChooseFrom,
               this`awaitingTheChoosingOfATransaction
      ensures Valid()
      ensures var t := BranchTurn(branch, message.content, isRetry, old(transactionsToChooseFrom),
                                  old(awaitingTheChoosingOfATransaction), transactions, predictedFee, fmt);
        && threw == t.threw
        && messages == old(messages) + BotMessages(t.replies, old(nextId), now)
        && nextId == old(nextId) + |t.replies|
        && failedMessageIDs == old(failedMessageIDs) + (if t.markedFailed then [message.id] else [])
        && transactionsToChooseFrom == t.candidates
        && awaitingTheChoosingOfATransaction == t.awaiting
    {
      match branch {
        case Gratitude =>
          assert WelcomeReply[0] == 'Y';
          SendBotResponses([WelcomeReply], now);
          threw := false;
        case TransactionChoice =>
          HandleTransactionChoice(message, now);
          threw := false;
        case TransactionRequest =>
          threw := HandleTransactionRequest(message, isRetry, transactions, now);
        case TransferInquiry =>
          threw := HandleTransferInquiry(message, isRetry, predictedFee, now);
        case GenericMessage =>
          HandleGenericMessage(message, isRetry, now);
          threw := false;
      }
    }

    /** `sendMessage`: ignores a blank message; otherwise shows it (unless
        this is a retry), answers it, and records whether it failed. */
    method SendMessage(userMessage: Message, isRetry: bool,
                       transactions: Fetch<seq<BankTransaction>>,
                       predictedFee: (string, string) -> Fetch<InternationalTransferFeePrediction>,
                       now: Date)
      requires Valid()
      modifies this`messages, this`nextId, this`failedMessageIDs, this`newMessage,
               this`transactionsToChooseFrom, this`awaitingTheChoosingOfATransaction
      ensures Valid()
      ensures IsBlank(userMessage.content) ==>
        && messages == old(messages) && nextId == old(nextId)
        && failedMessageIDs == old(failedMessageIDs) && newMessage == old(newMessage)
        && transactionsToChooseFrom == old(transactionsToChooseFrom)
        && awaitingTheChoosingOfATransaction == old(awaitingTheChoosingOfATransaction)
      ensures !IsBlank(userMessage.content) ==>
        var t := Respond(phrases, userMessage.content, isRetry, old(transactionsToChooseFrom),
                         old(awaitingTheChoosingOfATransaction), transactions, predictedFee, fmt);
        var firstId := FirstBotId(old(nextId), userMessage.id);
        && messages == old(messages) + (if isRetry then [] else [userMessage])
                       + BotMessages(Replies(t), firstId, now)
        && nextId == firstId + |Replies(t)|
        && failedMessageIDs == Settle(old(failedMessageIDs), userMessage.id, t)
        && transactionsToChooseFrom == t.candidates
        && awaitingTheChoosingOfATransaction == t.awaiting
        && newMessage == (if isRetry then old(newMessage) else "")
    {
      if IsBlank(userMessage.content) {
        return;
      }
      var firstId := FirstBotId(nextId, userMessage.id);
      ghost var shown := old(messages) + (if isRetry then [] else [userMessage]);
      if !isRetry {
        IdsBelowRaise(messages, nextId, firstId);
        messages := messages + [userMessage];
      }
      nextId := firstId;
      IdsBelowRaise(old(messages), old(nextId), nextId);
      assert messages == shown;
      Answer(userMessage, isRetry, transactions, predictedFee, now);
      if !isRetry {
        newMessage := "";
      }
    }

    /** The `do`/`catch` around `handleMessageResponse`: a message answered
        without a throw leaves the failed list, a throw adds it there and
        sends the apology after whatever the branch sent. */
    method Answer(userMessage: Message, isRetry: bool,
                  transactions: Fetch<seq<BankTransaction>>,
                  predictedFee: (string, string) -> Fetch<InternationalTransferFeePrediction>,
                  now: Date)
      requires Valid()
      modifies this`messages, this`nextId, this`failedMessageIDs,
               this`transactionsToChooseFrom, this`awaitingTheChoosingOfATransaction
      ensures Valid()
      ensures var t := Respond(phrases, userMessage.content, isRetry, old(transactionsToChooseFrom),
                               old(awaitingTheChoosingOfATransaction), transactions, predictedFee, fmt);
        && messages == old(messages) + BotMessages(Replies(t), old(nextId), now)
        && nextId == old(nextId) + |Replies(t)|
        && failedMessageIDs == Settle(old(failedMessageIDs), userMessage.id, t)
        && transactionsToChooseFrom == t.candidates
        && awaitingTheChoosingOfATransaction == t.awaiting
    {
      ghost var t := Respond(phrases, userMessage.content, isRetry, transactionsToChooseFrom,
                             awaitingTheChoosingOfATransaction, transactions, predictedFee, fmt);
      ThrowNeverMarks(phrases, userMessage.content, isRetry, transactionsToChooseFrom,
                      awaitingTheChoosingOfATransaction, transactions, predictedFee, fmt);
      AnswerLayout(messages, t, nextId, now);
      SettleCases(failedMessageIDs, userMessage.id, t);
      var threw := HandleMessageResponse(userMessage, isRetry, transactions, predictedFee, now);
      if !threw {
        failedMessageIDs := RemoveAll(failedMessageIDs, userMessage.id);
      } else {
        HandleMessageError(userMessage, now);
      }
    }
  }

  /** Every message's id is below `bound`. */
  predicate IdsBelow(ms: seq<Message>, bound: Uuid) {
    forall i :: 0 <= i < |ms| ==> ms[i].id < bound
  }

  lemma IdsBelowRaise(ms: seq<Message>, bound: Uuid, bound': Uuid)
    requires IdsBelow(ms, bound) && bound <= bound'
    ensures IdsBelow(ms, bound')
  {
  }

  /** `UUID()` freshness: the bot messages of a turn carry ids that no
      earlier message has and that differ from each other, and the log
      stays below the advanced counter. */
  lemma BotIdsFresh(ms: seq<Message>, bound: Uuid, replies: seq<string>, firstId: Uuid, now: Date)
    requires IdsBelow(ms, bound) && bound <= firstId
    ensures var bots := BotMessages(replies, firstId, now);
      && (forall i, j :: 0 <= i < |ms| && 0 <= j < |bots| ==> ms[i].id != bots[j].id)
      && (forall i, j :: 0 <= i < j < |bots| ==> bots[i].id != bots[j].id)
      && IdsBelow(ms + bots, firstId + |replies|)
  {
    var bots := BotMessages(replies, firstId, now);
    forall i | 0 <= i < |ms + bots|
      ensures (ms + bots)[i].id < firstId + |replies|
    {
      if i >= |ms| {
        assert (ms + bots)[i] == bots[i - |ms|];
      }
    }
  }

  /** Sending one more text appends one more bot message. */
  lemma BotMessagesSnoc(replies: seq<string>, r: string, firstId: Uuid, now: Date)
    ensures BotMessages(replies + [r], firstId, now)
         == BotMessages(replies, firstId, now) + [Message(firstId + |replies|, r, false, now)]
  {
  }

  /** Where a turn's bot messages land after `shown`: a throw appends the
      apology after the branch's own replies. */
  lemma AnswerLayout(shown: seq<Message>, t: Turn, firstId: Uuid, now: Date)
    ensures |Replies(t)| == |t.replies| + (if t.threw then 1 else 0)
    ensures shown + BotMessages(Replies(t), firstId, now)
         == if t.threw
            then shown + BotMessages(t.replies, firstId, now)
                 + BotMessages([ApologyReply], firstId + |t.replies|, now)
            else shown + BotMessages(t.replies, firstId, now)
  {
    if t.threw {
      BotMessagesAppend(t.replies, [ApologyReply], firstId, now);
    } else {
      assert Replies(t) == t.replies;
    }
  }

  /** The failed list after a turn that did not both throw and mark. */
  lemma SettleCases(failed: seq<Uuid>, id: Uuid, t: Turn)
    requires !(t.threw && t.markedFailed)
    ensures var marked := failed + (if t.markedFailed then [id] else []);
      Settle(failed, id, t) == if t.threw then marked + [id] else RemoveAll(marked, id)
  {
    if t.threw {
      assert failed + [] == failed;
    }
  }

  /** Sending two batches in turn is sending their concatenation. */
  lemma BotMessagesAppend(a: seq<string>, b: seq<string>, firstId: Uuid, now: Date)
    ensures BotMessages(a + b, firstId, now)
         == BotMessages(a, firstId, now) + BotMessages(b, firstId + |a|, now)
  {
  }
}
