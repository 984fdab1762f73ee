/** Intent classification of a user message against three fixed phrase
    tables: gratitude is an exact match, the two requests are substring
    matches, all after lowercasing and trimming. */
module Intents {
  import opened Text

  const ThankYouPhrases: seq<string> := [
    "Thanks", "thank you", "thank", "great thanks", "thank you very much",
    "Thanks a lot", "Thanks so much", "Thank you so much", "Many thanks",
    "Thanks tons", "Thanks a tons", "Much obliged", "Cheers", "Ta",
    "Thanks a million", "Thanks kindly", "Appreciate it", "Greatly appreciated",
    "Thank you kindly", "Big thanks", "Grateful", "Thankful"
  ]

  /** Triggers of a transaction-history request; "dog" is a test trigger. */
  const TransactionPhrases: seq<string> := [
    "Show me my transactions",
    "I want to see my transactions",
    "Can I view my transactions?",
    "List my transactions",
    "Display my transactions",
    "What are my recent transactions?",
    "Show my account activity",
    "Let me see my transaction history",
    "View my transaction history",
    "Check my transactions",
    "Can you show my transaction list?",
    "I\U{2019}d like to see my recent purchases",
    "Show me what I\U{2019}ve spent recently",
    "Can I check my recent payments?",
    "Where can I see my transactions?",
    "Open my transaction history",
    "Can I view my account activity?",
    "What transactions have I made recently?",
    "List my recent account activity",
    "Display my purchase history",
    "Can you pull up my transactions?",
    "How can I see my transactions?",
    "I want to check my account history",
    "Where\U{2019}s my transaction list?",
    "Show me my spending history",
    "Can I get a list of my payments?",
    "View my banking transactions",
    "Show me what I\U{2019}ve paid for recently",
    "Let me see my spending activity",
    "status of a transaction",
    "status of transaction",
    "transaction status",
    "dog"
  ]

  /** Triggers of a transfer-fee inquiry; "cat" is a test trigger. */
  const TransferInquiryPhrases: seq<string> := [
    "transfer rate",
    "What is the current transfer rate?",
    "Show me the transfer fees",
    "How much does it cost to send money?",
    "What are the fees for transferring money?",
    "Tell me the exchange rate",
    "What is the conversion rate right now?",
    "How much will it cost to send money internationally?",
    "Can you show me the transfer rates?",
    "What are the charges for sending money abroad?",
    "I want to know the fees for transferring money",
    "When is the best time to send money?",
    "Is now a good time to send money?",
    "Check the best time to transfer funds",
    "What are the current rates for international transfers?",
    "How much does it cost to send money overseas?",
    "What is the rate for sending USD to EUR?",
    "Tell me the transfer fees for sending money",
    "Can I see the international transfer rates?",
    "How can I find out the cost of a transfer?",
    "What\U{2019}s the fee for sending money to another country?",
    "What is the best time to send money abroad?",
    "Show me the cheapest time to transfer money",
    "What are the fees for an international wire transfer?",
    "What\U{2019}s the rate for sending money right now?",
    "Can you give me the cost of sending money to another country?",
    "How much does a wire transfer cost?",
    "What\U{2019}s the transfer fee for today?",
    "when the best time to send a payment to the Philippines",
    "cat"
  ]

  /** `lowercased().trimmingCharacters(in: .whitespacesAndNewlines)`. */
  function Normalize(s: string): (r: string)
    ensures |r| <= |s|
  {
    Trim(Lower(s))
  }

  /** Normalizing a normalized text changes nothing. */
  lemma NormalizeIdempotent(s: string)
    ensures Normalize(Normalize(s)) == Normalize(s)
  {
    TrimLowerCommute(Trim(Lower(s)));
    TrimIdempotent(Lower(s));
    LowerIdempotent(Trim(Lower(s)));
    TrimLowerCommute(s);
    LowerIdempotent(Trim(s));
  }

  /** `isJustThanking` against a gratitude table: scans the table for a
      phrase whose normalized form is the normalized message. */
  predicate IsThanks(message: string, phrases: seq<string>)
    decreases |phrases|
  {
    phrases != [] && (Normalize(phrases[0]) == Normalize(message) || IsThanks(message, phrases[1..]))
  }

  /** `containsPhrase`: scans the table for a phrase whose normalized form
      occurs in the normalized message. */
  predicate ContainsPhrase(message: string, phrases: seq<string>)
    decreases |phrases|
  {
    phrases != [] && (Contains(Normalize(message), Normalize(phrases[0])) || ContainsPhrase(message, phrases[1..]))
  }

  /** The scan finds gratitude exactly when some phrase of the table
      normalizes to the normalized message. */
  lemma {:induction false} IsThanksMeans(message: string, phrases: seq<string>)
    ensures IsThanks(message, phrases) <==>
            exists i :: 0 <= i < |phrases| && Normalize(phrases[i]) == Normalize(message)
    decreases |phrases|
  {
    if phrases != [] {
      IsThanksMeans(message, phrases[1..]);
      if exists i :: 0 <= i < |phrases| && Normalize(phrases[i]) == Normalize(message) {
        var i :| 0 <= i < |phrases| && Normalize(phrases[i]) == Normalize(message);
        if i > 0 {
          assert phrases[1..][i - 1] == phrases[i];
        }
      }
      if IsThanks(message, phrases[1..]) {
        var i :| 0 <= i < |phrases[1..]| && Normalize(phrases[1..][i]) == Normalize(message);
        assert phrases[i + 1] == phrases[1..][i];
      }
    }
  }

  /** The scan finds a phrase exactly when some phrase of the table, once
      normalized, occurs in the normalized message. */
  lemma {:induction false} ContainsPhraseMeans(message: string, phrases: seq<string>)
    ensures ContainsPhrase(message, phrases) <==>
            exists i :: 0 <= i < |phrases| && Contains(Normalize(message), Normalize(phrases[i]))
    decreases |phrases|
  {
    if phrases != [] {
      ContainsPhraseMeans(message, phrases[1..]);
      if exists i :: 0 <= i < |phrases| && Contains(Normalize(message), Normalize(phrases[i])) {
        var i :| 0 <= i < |phrases| && Contains(Normalize(message), Normalize(phrases[i]));
        if i > 0 {
          assert phrases[1..][i - 1] == phrases[i];
        }
      }
      if ContainsPhrase(message, phrases[1..]) {
        var i :| 0 <= i < |phrases[1..]| && Contains(Normalize(message), Normalize(phrases[1..][i]));
        assert phrases[i + 1] == phrases[1..][i];
      }
    }
  }

  /** The three tables the classifiers consult. */
  datatype PhraseTables = PhraseTables(thankYou: seq<string>, transaction: seq<string>, transferInquiry: seq<string>)

  /** The tables the chat uses. */
  const StandardPhrases := PhraseTables(ThankYouPhrases, TransactionPhrases, TransferInquiryPhrases)

  predicate IsJustThanking(message: string) {
    IsThanks(message, ThankYouPhrases)
  }

  predicate ContainsTransactionPhrase(message: string) {
    ContainsPhrase(message, TransactionPhrases)
  }

  predicate ContainsTransferInquiryPhrase(message: string) {
    ContainsPhrase(message, TransferInquiryPhrases)
  }

  /** The classifiers see only the normalized text, so letter case and
      surrounding whitespace never change an intent. */
  lemma ClassifiersIgnoreCaseAndPadding(message: string, phrases: seq<string>)
    ensures IsThanks(Normalize(message), phrases) <==> IsThanks(message, phrases)
    ensures ContainsPhrase(Normalize(message), phrases) <==> ContainsPhrase(message, phrases)
  {
    NormalizeIdempotent(message);
    IsThanksMeans(message, phrases);
    IsThanksMeans(Normalize(message), phrases);
    ContainsPhraseMeans(message, phrases);
    ContainsPhraseMeans(Normalize(message), phrases);
  }

  /** A phrase of the table that occurs in the normalized message triggers it. */
  lemma PhraseTriggers(message: string, phrases: seq<string>, p: string)
    requires p in phrases && Contains(Normalize(message), Normalize(p))
    ensures ContainsPhrase(message, phrases)
  {
    var i :| 0 <= i < |phrases| && phrases[i] == p;
    ContainsPhraseMeans(message, phrases);
  }

  /** The tables hold the test triggers. */
  lemma TestTriggersListed()
    ensures "dog" in TransactionPhrases
    ensures "cat" in TransferInquiryPhrases
  {
    assert TransactionPhrases[|TransactionPhrases| - 1] == "dog";
    assert TransferInquiryPhrases[|TransferInquiryPhrases| - 1] == "cat";
  }

  /** A lowercase text without surrounding whitespace normalizes to itself. */
  lemma NormalizeFixed(p: string)
    requires p != [] && Lower(p) == p && !IsWhitespace(p[0]) && !IsWhitespace(p[|p| - 1])
    ensures Normalize(p) == p
  {
  }

  /** The two test triggers are already in normal form. */
  lemma TestTriggersNormal()
    ensures Normalize("dog") == "dog"
    ensures Normalize("cat") == "cat"
  {
    assert Lower("dog") == "dog";
    assert Lower("cat") == "cat";
    NormalizeFixed("dog");
    NormalizeFixed("cat");
  }

  /** Every text whose normalized form contains "dog" asks for the
      transaction history, however unrelated the rest of it is. */
  lemma DogTriggersTransactions(message: string)
    requires Contains(Normalize(message), "dog")
    ensures ContainsTransactionPhrase(message)
  {
    TestTriggersNormal();
    TestTriggersListed();
    PhraseTriggers(message, TransactionPhrases, "dog");
  }

  /** Every text whose normalized form contains "cat" is a transfer
      inquiry, however unrelated the rest of it is. */
  lemma CatTriggersTransferInquiry(message: string)
    requires Contains(Normalize(message), "cat")
    ensures ContainsTransferInquiryPhrase(message)
  {
    TestTriggersNormal();
    TestTriggersListed();
    PhraseTriggers(message, TransferInquiryPhrases, "cat");
  }
}
