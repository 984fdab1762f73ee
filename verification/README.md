# BankAIChatExample chat core in Dafny

This project models the conversation logic of the BankAIChatExample iOS app.
`ChatViewModel` is the object behind the chat screen. It holds:

- the message log;
- the ids of messages whose processing failed;
- the text being composed;
- the transactions offered to the user to choose from.

When the user sends a message, the view model:

1. Ignores it if it is blank.
2. Appends it to the log, unless this is a retry.
3. Picks the first branch that applies, in this order:
   - gratitude;
   - a pending transaction choice;
   - a transaction-history request;
   - a transfer-fee inquiry;
   - a generic answer.
4. Runs that branch. It appends the bot replies and records whether the message failed.

The model covers that flow, the phrase tables and intent classifiers, and the word-and-number scoring that resolves a transaction choice. It also covers the textual summaries of transactions and fee predictions, message identity and the transcript.

## How the model is organised

| module | file | what it holds |
|---|---|---|
| `Foundation` | `foundation.dfy` | `Option`, `Date`, `Decimal`, ids, and a `Formatting` value that renders dates, decimals and ids |
| `Text` | `text.dfy` | Foundation string operations the core uses: trimming whitespace and newlines, lowercasing, substring search, joining, splitting |
| `Matching` | `matching.dfy` | `findClosestMatch`, `calculateMatchScore`, `matchPattern`, `extractMatches` and the two regular expressions |
| `Intents` | `intents.dfy` | The three phrase tables, `isJustThanking`, `containsPhrase`, `containsTransactionPhrase`, `containsTransferInquiryPhrase` |
| `Messages` | `messages.dfy` | `Message`, its id-based `==`, and `generateTranscript` |
| `Transactions` | `transactions.dfy` | Transaction status and type with their raw values, `summary()`, `transactionListSummary()` |
| `FeePredictions` | `fee_predictions.dfy` | Fee type raw values and the three `summary()` functions |
| `Dialogue` | `dialogue.dfy` | What one message does, stated as values (see below) |
| `ChatViewModels` | `chat_view_model.dfy` | The `ChatViewModel` class, whose methods change its fields in place |

`Dialogue` states the effect of one message as values:

- `Route` says which branch answers the message.
- A `Turn` records the branch's replies, whether it threw, whether it marked the message failed, and the pending-choice state it leaves.
- `Settle` gives the failed-id list after the turn.

Each handler of `ChatViewModel` is a method. Its postcondition says the new fields are exactly what these functions give. The properties of the conversation are lemmas about the functions.

Every method keeps the class invariant `ChatViewModel.Valid`:

- every logged message has an id below `nextId`;
- a pending choice has candidates. `transactionsToChooseFrom` is filled before the flag is set (`ChatViewModel.swift:98`, `:103`), and nothing empties it while the flag stays up.

Two behaviours of the code are easy to miss. The model keeps both as written:

- **The generic branch's failure mark does not survive.** `handleGenericMessage` appends the message's id to the failed list when the text holds "fail" outside a retry (`ChatViewModel.swift:119-121`). That branch does not throw, so `sendMessage` then removes every occurrence of the id (`ChatViewModel.swift:41`). `Dialogue.GenericMarkErased` proves the mark never outlives the call.
- **Failed ids can repeat.** `failedMessageIDs` is an array (`ChatViewModel.swift:19`), and every throw appends to it (`ChatViewModel.swift:76`). A message that fails twice is listed twice, until a call on it that does not throw removes every occurrence.

## Model

| member | source | states |
|---|---|---|
| `Text.TrimStartSpec` | BankAIChatExample/ChatView/ChatViewModel.swift:141 | Trimming the front of a text: the result is a suffix; everything removed is whitespace or a newline; it does not start with whitespace, and it is empty exactly when the text is blank |
| `Text.TrimEndSpec` | BankAIChatExample/ChatView/ChatViewModel.swift:141 | Trimming the end of a text: the result is a prefix; everything removed is whitespace; it does not end with whitespace, and it is empty exactly when the text is blank |
| `Text.TrimSpec` | BankAIChatExample/ChatView/ChatViewModel.swift:141 | `trimmingCharacters(in: .whitespacesAndNewlines)`: the result is a contiguous slice of the text; everything outside it is whitespace; it neither starts nor ends with whitespace, and it is empty exactly when the text is blank, so the `isEmpty` guard rejects exactly the all-whitespace messages |
| `Text.TrimIdempotent` | BankAIChatExample/ChatView/ChatViewModel.swift:147 | Trimming a trimmed text changes nothing |
| `Text.LowerIdempotent` | BankAIChatExample/ChatView/ChatViewModel.swift:147 | Lowercasing a lowercased text changes nothing |
| `Text.TrimLowerCommute` | BankAIChatExample/ChatView/ChatViewModel.swift:141 | Lowercasing and trimming can be done in either order |
| `Text.NotBlankWhenLeadingSolid` | BankAIChatExample/ChatView/ChatViewModel.swift:127 | A text whose first character is not whitespace passes the blank guard |
| `Text.ContainsAt` | BankAIChatExample/ChatView/ChatViewModel.swift:149 | `contains` holds when the needle occurs at some position of the text |
| `Text.ContainsOccurrence` | BankAIChatExample/ChatView/ChatViewModel.swift:149 | When `contains` holds, it returns a position where the needle occurs |
| `Text.JoinSnoc` | BankAIChatExample/Models/Message.swift:40 | Joining one more part adds the separator and that part at the end |
| `Text.JoinPrefix` | BankAIChatExample/Models/Message.swift:40 | Joining a longer list extends the shorter list's join |
| `Text.SplitJoin` | BankAIChatExample/ChatView/ChatViewModel.swift:154 | Splitting a join of parts that do not hold the separator gives the parts back |
| `Text.JoinSplit` | BankAIChatExample/ChatView/ChatViewModel.swift:154 | Joining the pieces of a split gives the text back |
| `Matching.NonEmpty` | BankAIChatExample/ChatView/ChatViewModel.swift:154 | Dropping the empty pieces keeps every non-empty piece as often as it occurs, and changes nothing when no piece is empty |
| `Matching.NonEmptyAppend` | BankAIChatExample/ChatView/ChatViewModel.swift:154 | Dropping empty pieces works piece by piece, so the kept pieces stay in their order |
| `Matching.Words` | BankAIChatExample/ChatView/ChatViewModel.swift:154 | `split(separator: " ")` yields non-empty pieces without spaces: every non-empty piece between spaces, as often as it occurs |
| `Matching.WordsOfJoin` | BankAIChatExample/ChatView/ChatViewModel.swift:164 | Splitting space-joined words gives the words back |
| `Matching.NumeralEnd` | BankAIChatExample/ChatView/ChatViewModel.swift:168 | From a digit, the greedy `\d+(\.\d+)?` match is a numeral, the next character is not a digit, and no numeral starting there is longer |
| `Matching.NumeralSpans` | BankAIChatExample/ChatView/ChatViewModel.swift:168 | The numeral matches lie within the text from the start position on, in increasing order without overlap (`InOrder`), each starting at a digit |
| `Matching.ShortDateSpans` | BankAIChatExample/ChatView/ChatViewModel.swift:169 | The date matches lie within the text from the start position on, in increasing order without overlap (`InOrder`), each an 8-character `dd-dd-dd` window |
| `Matching.NumeralSpansScan` | BankAIChatExample/ChatView/ChatViewModel.swift:182-186 | The numeral matches are in increasing order without overlap, each the longest numeral at its start, and no digit lies before, between or after them |
| `Matching.ShortDateSpansScan` | BankAIChatExample/ChatView/ChatViewModel.swift:182-186 | The date matches are in increasing order without overlap, and no `dd-dd-dd` window starts before, between or after them |
| `Matching.NumeralScanUnique` | BankAIChatExample/ChatView/ChatViewModel.swift:182-186 | Those conditions on numeral matches allow exactly one list of matches for a text |
| `Matching.ShortDateScanUnique` | BankAIChatExample/ChatView/ChatViewModel.swift:182-186 | Those conditions on date matches allow exactly one list of matches for a text |
| `Matching.ExtractMatches` | BankAIChatExample/ChatView/ChatViewModel.swift:182-186 | Every extracted match fits the pattern; a text with no digit has no match |
| `Matching.ExtractMatchesIsScan` | BankAIChatExample/ChatView/ChatViewModel.swift:182-186 | `extractMatches` returns exactly the pieces of the text that a left-to-right, non-overlapping, miss-nothing search marks out |
| `Matching.MatchesOccur` | BankAIChatExample/ChatView/ChatViewModel.swift:182-186 | Every extracted match is a substring of the text |
| `Matching.CountShared` | BankAIChatExample/ChatView/ChatViewModel.swift:165 | `filter { … contains($0) }.count` never exceeds the number of target items |
| `Matching.CountSharedExtremes` | BankAIChatExample/ChatView/ChatViewModel.swift:179 | The count is zero exactly when no target item is in the other list, and full exactly when all are |
| `Matching.MatchPattern` | BankAIChatExample/ChatView/ChatViewModel.swift:174-180 | The points are at most the weight times the number of target matches |
| `Matching.MatchPatternZero` | BankAIChatExample/ChatView/ChatViewModel.swift:174-180 | No points exactly when the weight is zero or the element shares none of the target's matches |
| `Matching.MatchScore` | BankAIChatExample/ChatView/ChatViewModel.swift:163-172 | The score is at most: target words + 2 × target numbers + 3 × target dates |
| `Matching.MatchScoreZero` | BankAIChatExample/ChatView/ChatViewModel.swift:163-172 | A candidate scores zero exactly when it shares no word, no number and no date with the target |
| `Matching.MaxByScore` | BankAIChatExample/ChatView/ChatViewModel.swift:160 | `max(by:)` is none only for an empty list; otherwise it is the first entry with the highest score |
| `Matching.FirstContaining` | BankAIChatExample/ChatView/ChatViewModel.swift:160 | `first(where: { $0.contains(target) })` is none exactly when no candidate contains the target; otherwise it is the first candidate that does |
| `Matching.Fallback` | BankAIChatExample/ChatView/ChatViewModel.swift:160 | The `??` fallbacks are none only for an empty list. They give the first candidate containing the target, or else the first candidate |
| `Matching.FindClosestMatch` | BankAIChatExample/ChatView/ChatViewModel.swift:153-161 | None exactly for an empty list; otherwise one of the candidates. `max(by:)` always answers for a non-empty list, so the fallbacks are never reached |
| `Matching.ClosestMatchIsBest` | BankAIChatExample/ChatView/ChatViewModel.swift:153-161 | The candidate picked is the first one with the highest score for the target |
| `Matching.ClosestIsUnique` | BankAIChatExample/ChatView/ChatViewModel.swift:160 | The first-highest rule singles out one position |
| `Matching.SingleCandidateChosen` | BankAIChatExample/ChatView/ChatViewModel.swift:153-161 | A single candidate is chosen whatever the reply says |
| `Intents.NormalizeIdempotent` | BankAIChatExample/ChatView/ChatViewModel.swift:141 | Normalizing (lowercase, then trim) a normalized text changes nothing |
| `Intents.IsThanksMeans` | BankAIChatExample/ChatView/ChatViewModel.swift:140-144 | `isJustThanking` holds exactly when some table phrase normalizes to the normalized message |
| `Intents.ContainsPhraseMeans` | BankAIChatExample/ChatView/ChatViewModel.swift:146-150 | `containsPhrase` holds exactly when some normalized table phrase occurs in the normalized message |
| `Intents.ClassifiersIgnoreCaseAndPadding` | BankAIChatExample/ChatView/ChatViewModel.swift:140-150 | Case and surrounding whitespace never change whether a message classifies as gratitude or as containing a phrase |
| `Intents.PhraseTriggers` | BankAIChatExample/ChatView/ChatViewModel.swift:146-150 | A table phrase occurring in the normalized message triggers the classifier |
| `Intents.TestTriggersListed` | BankAIChatExample/CONSTANTS.swift:95 | "dog" is a transaction phrase and "cat" a transfer-inquiry phrase |
| `Intents.NormalizeFixed` | BankAIChatExample/ChatView/ChatViewModel.swift:148 | A lowercase text without surrounding whitespace is already normalized |
| `Intents.TestTriggersNormal` | BankAIChatExample/CONSTANTS.swift:129 | The test triggers "dog" and "cat" are already normalized |
| `Intents.DogTriggersTransactions` | BankAIChatExample/CONSTANTS.swift:62-96 | Any message whose normalized text contains "dog" is classified as containing a transaction phrase |
| `Intents.CatTriggersTransferInquiry` | BankAIChatExample/CONSTANTS.swift:99-130 | Any message whose normalized text contains "cat" is classified as containing a transfer-inquiry phrase |
| `Messages.SameMessageIsIdentityOfIds` | BankAIChatExample/Models/Message.swift:25-27 | Message `==` is an equivalence that depends only on the ids and ignores content, sender and time |
| `Messages.EmptyTranscript` | BankAIChatExample/Models/Message.swift:30-40 | A log with no messages has an empty transcript |
| `Messages.TranscriptAppend` | BankAIChatExample/Models/Message.swift:30-40 | A later message adds a newline and its own `[time] sender: content` entry at the end |
| `Messages.TranscriptGrows` | BankAIChatExample/Models/Message.swift:30-40 | As the log grows, the earlier transcript stays a prefix |
| `Messages.TranscriptLines` | BankAIChatExample/Models/Message.swift:30-40 | With single-line entries, the transcript's lines are the entries in order: `[time] User: …` or `[time] BankChatAI: …` |
| `Transactions.StatusRawValueRoundTrip` | BankAIChatExample/Models/TransactionModels.swift:10-15 | Each status decodes back from its raw value, and only its own raw value decodes to it |
| `Transactions.TypeRawValueRoundTrip` | BankAIChatExample/Models/TransactionModels.swift:17-22 | Each transaction type decodes back from its raw value, and only its own raw value decodes to it |
| `Transactions.SummaryLayout` | BankAIChatExample/Models/TransactionModels.swift:36-57 | Read back line by line, `summary()` is the header and the eight labelled fields in order, with "N/A" and "No description" for missing values |
| `Transactions.SummaryLinesSingle` | BankAIChatExample/Models/TransactionModels.swift:46-56 | With single-line fields, no summary line holds a line break |
| `Transactions.TransactionListSummary` | BankAIChatExample/Models/TransactionModels.swift:77-97 | No transactions: the fixed notice and no choices. Otherwise: one choice per transaction in order, carrying that transaction and its `<type> of <currency> <amount> on <date>` line, with the lines joined by blank lines |
| `FeePredictions.FeeTypeRawValueRoundTrip` | BankAIChatExample/Models/FeePredictionModels.swift:10-14 | Each fee type decodes back from its raw value, and only its own raw value decodes to it |
| `FeePredictions.PredictedFeeSummaryShape` | BankAIChatExample/Models/FeePredictionModels.swift:24-27 | `PredictedFee.summary()` starts with the type and currency, ends with the parenthesised description ("No description provided" when absent), and holds exactly the formatted amount between the two |
| `FeePredictions.BestTimeSummaryLines` | BankAIChatExample/Models/FeePredictionModels.swift:98-104 | With no dates, the best-time summary is the header and a newline, so its lines are the header and one empty line; with dates, its lines are the header and then each date in order |
| `FeePredictions.PredictionSummaryLayout` | BankAIChatExample/Models/FeePredictionModels.swift:49-57 | The summary starts with the total fee in the source currency, holds the rate between its own two currencies, and ends with the best-time summary |
| `FeePredictions.PredictionSummaryLines` | BankAIChatExample/Models/FeePredictionModels.swift:49-57 | When the currencies, the two formatted decimals and every formatted date are single-line: read back line by line, the summary is total fees, the rate caption, the rate, a blank line, the best-dates header, then each date. With no dates, one empty line follows the header |
| `FeePredictions.PredictionSummaryAsLines` | BankAIChatExample/Models/FeePredictionModels.swift:50-56 | The summary is its first four lines joined by newlines, a newline, then the best-time block |
| `FeePredictions.PredictionSummaryIgnores` | BankAIChatExample/Models/FeePredictionModels.swift:49-57 | Only the currencies, total fee, exchange rate and best dates show. The fee list, transfer amount, destination total and markup never do |
| `Dialogue.FirstWithLine` | BankAIChatExample/ChatView/ChatViewModel.swift:83 | `first(where: { $0.line == closest })` is none exactly when no choice has that line; otherwise it is the first choice that has it |
| `Dialogue.RemoveAll` | BankAIChatExample/ChatView/ChatViewModel.swift:41 | `removeAll(where:)` drops every occurrence of the id, keeps every other id as often as it occurs, never grows the list, and changes nothing when the id is absent |
| `Dialogue.RemoveAllAppend` | BankAIChatExample/ChatView/ChatViewModel.swift:41 | Removing works element by element, so the ids kept stay in their order |
| `Dialogue.FirstBotId` | BankAIChatExample/Models/Message.swift:18 | A new bot message's id is above every id handed out so far and above the user message's id |
| `Dialogue.GratitudeWins` | BankAIChatExample/ChatView/ChatViewModel.swift:52-55 | Gratitude is answered first with the one welcome reply, pending choice or not, and nothing else changes |
| `Dialogue.RoutePriority` | BankAIChatExample/ChatView/ChatViewModel.swift:51-73 | `handleMessageResponse`'s order: each branch is taken exactly when it applies and no earlier one does. A pending choice hides both phrase tables, and a transaction phrase hides a transfer phrase in the same message |
| `Dialogue.ChoiceResolves` | BankAIChatExample/ChatView/ChatViewModel.swift:57-60 | With a choice pending and candidates listed, a non-gratitude reply details the transaction of the first best-scoring line. It clears the flag, keeps the candidates and never fails |
| `Dialogue.ChoiceTurnResolves` | BankAIChatExample/ChatView/ChatViewModel.swift:81-87 | With candidates listed, the choice handler details the best-scoring transaction and clears the pending flag |
| `Dialogue.ChoiceWithoutCandidates` | BankAIChatExample/ChatView/ChatViewModel.swift:81-87 | With a choice pending and no candidates, a non-gratitude reply would send nothing and leave the choice pending. No view model reaches this state: `ChatViewModel.Valid` excludes it and every method keeps `Valid` (see `RespondKeepsCandidates`) |
| `Dialogue.RespondKeepsCandidates` | BankAIChatExample/ChatView/ChatViewModel.swift:80-107 | If a pending choice had candidates before a message, it still has candidates after it. Only a request with transactions sets the flag, and it lists one candidate per transaction |
| `Dialogue.TransactionRequestOutputs` | BankAIChatExample/ChatView/ChatViewModel.swift:89-107 | A request that goes through lists the transactions and asks which to detail, making them the candidates and setting the flag. With no transactions it only says so |
| `Dialogue.TransferInquiryOutput` | BankAIChatExample/ChatView/ChatViewModel.swift:109-116 | An inquiry that goes through sends one reply: the info prefix and the summary of the USD-to-PHP prediction |
| `Dialogue.ThrowsExactly` | BankAIChatExample/ChatView/ChatViewModel.swift:51-123 | Only the two provider branches throw, and exactly when "fail" appears outside a retry or their provider fails. A throw sends nothing and keeps the choice state. Only the generic branch marks, and exactly on a simulated failure |
| `Dialogue.ThrowNeverMarks` | BankAIChatExample/ChatView/ChatViewModel.swift:118-123 | No branch both throws and marks the message failed |
| `Dialogue.FailedIffThrew` | BankAIChatExample/ChatView/ChatViewModel.swift:39-44 | After the do/catch, the message's id is in the failed list exactly when the branch threw; no other id changes membership |
| `Dialogue.GenericMarkErased` | BankAIChatExample/ChatView/ChatViewModel.swift:118-123 | The generic branch's own failure mark is removed again by `sendMessage`, and only the stock reply is sent |
| `Dialogue.RetryRecovers` | BankAIChatExample/ChatView/ChatViewModel.swift:89-116 | A provider request holding "fail" throws and is marked failed when first sent. With the provider answering, it goes through and is unmarked when retried |
| `Dialogue.RepliesNotBlank` | BankAIChatExample/ChatView/ChatViewModel.swift:126-130 | No bot text a turn produces is blank, so `sendBotResponse`'s guard never drops one |
| `ChatViewModels.ChatViewModel.constructor` | BankAIChatExample/ChatView/ChatViewModel.swift:16-29 | A new conversation holds only the greeting, with no failures, no draft and no pending choice |
| `ChatViewModels.ChatViewModel.SendBotResponse` | BankAIChatExample/ChatView/ChatViewModel.swift:126-130 | A blank text changes nothing. Otherwise one bot message with a fresh id is appended |
| `ChatViewModels.ChatViewModel.SendBotResponses` | BankAIChatExample/ChatView/ChatViewModel.swift:126-130 | Sending several non-blank texts appends one bot message per text, in order, with consecutive fresh ids |
| `ChatViewModels.ChatViewModel.HandleTransactionChoice` | BankAIChatExample/ChatView/ChatViewModel.swift:80-86 | The log and the pending flag become what `ChoiceTurn` gives: the picked candidate (`ChosenCandidate`) detailed and the flag cleared, or nothing when none is picked |
| `ChatViewModels.ChatViewModel.DetailChosen` | BankAIChatExample/ChatView/ChatViewModel.swift:83-84 | With a picked candidate, sends its details and clears the flag; with none, changes nothing (`ChoiceOutcome`) |
| `ChatViewModels.ChatViewModel.HandleTransactionRequest` | BankAIChatExample/ChatView/ChatViewModel.swift:89-107 | The throw flag, log, candidates and pending flag become what `RequestTurn` gives |
| `ChatViewModels.ChatViewModel.HandleTransferInquiry` | BankAIChatExample/ChatView/ChatViewModel.swift:109-116 | The throw flag and log become what `InquiryTurn` gives for the USD-to-PHP prediction |
| `ChatViewModels.ChatViewModel.HandleGenericMessage` | BankAIChatExample/ChatView/ChatViewModel.swift:118-123 | Sends the stock reply and appends the id to the failed list exactly on a simulated failure |
| `ChatViewModels.ChatViewModel.HandleMessageError` | BankAIChatExample/ChatView/ChatViewModel.swift:75-78 | Appends the id to the failed list, then the apology as a bot message |
| `ChatViewModels.ChatViewModel.HandleMessageResponse` | BankAIChatExample/ChatView/ChatViewModel.swift:51-73 | The throw flag and every field become what `Respond` gives for the routed branch |
| `ChatViewModels.ChatViewModel.Dispatch` | BankAIChatExample/ChatView/ChatViewModel.swift:52-72 | Running the chosen branch's handler leaves exactly that branch's `Turn` effect |
| `ChatViewModels.ChatViewModel.Answer` | BankAIChatExample/ChatView/ChatViewModel.swift:39-44 | After the do/catch: the replies, then the apology if the branch threw, are logged, and the failed list becomes `Settle` of the turn |
| `ChatViewModels.ChatViewModel.SendMessage` | BankAIChatExample/ChatView/ChatViewModel.swift:32-49 | A blank message changes nothing. Otherwise the message is logged unless retried, followed by the turn's bot messages, with the failed list settled and the draft cleared unless retried |
| `ChatViewModels.BotIdsFresh` | BankAIChatExample/Models/Message.swift:18 | A turn's bot messages have ids that no earlier message has and that differ from each other |

## Left out

- Concurrency is left out: `async`/`await`, `@MainActor`, and the half-second `Task.sleep` between the two transaction-request replies. A call is one atomic step.
- The `ObservableObject`/`@Published` plumbing, the SwiftUI views (`ChatView`, `MessageBubble`, `MainView`) and SwiftData persistence of messages are not part of this model.
- `APIManager` is not part of this model: no network calls and no JSON decoding.
  - The transaction provider's outcome is a `Fetch` parameter.
  - The fee provider is a function from the currency pair to a `Fetch`, called with "USD" and "PHP".
  - The error a branch throws is reduced to a `threw` flag.
  - `URLError(.badURL)` and the provider's own errors are not distinguished.
- `Date()` is a `now` parameter. All bot messages of one call carry the same timestamp; the source reads the clock once per message.
- `UUID()` is a counter, `nextId`. Each call raises it above the user message's id, so new ids are fresh rather than random.
- `DateFormatter` output and the descriptions of `Decimal` and `UUID` depend on the locale and the library. They enter as the function-valued fields of `Foundation.Formatting`.
- Line-by-line readings of the summaries and the transcript require those renderings to hold no line break.
- `Text.Lower`: lowercases ASCII letters only. The source's `lowercased()` also folds other Unicode letters, and full Unicode case mapping is out of scope.
- `Matching.IsDigit`: `\d` is taken as ASCII 0-9. The source's regular expression engine also accepts digits of other scripts.
- Only the two regular expressions `calculateMatchScore` uses are modelled, as hand-written scanners. The general `NSRegularExpression` engine and its UTF-16 ranges are not.
- String equality and `contains` compare Unicode code points. Swift compares extended grapheme clusters under canonical equivalence.
- The sample data `BankTransaction.exampleTransaction` and `InternationalTransferFeePrediction.example()` are left out. So are the `Codable` conformances beyond the raw-value round trips.
- The screen sizes, the image URL and the gradients in `CONSTANTS.swift` are display settings and are left out.
- The view model's `apiManager` dependency is not a field. Its results are passed to each call instead.
