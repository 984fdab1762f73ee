/** A chat message and the transcript of a conversation. */
module Messages {
  import opened Foundation
  import opened Text

  /** One chat entry; never changed once made. */
  datatype Message = Message(id: Uuid, content: string, isUser: bool, timestamp: Date)

  /** `==` on messages: two messages are the same message when their ids
      agree, whatever they say, who sent them and when. */
  predicate SameMessage(a: Message, b: Message) {
    a.id == b.id
  }

  /** Identity by id is an equivalence that ignores every other field. */
  lemma SameMessageIsIdentityOfIds(a: Message, b: Message, c: Message)
    ensures SameMessage(a, a)
    ensures SameMessage(a, b) ==> SameMessage(b, a)
    ensures SameMessage(a, b) && SameMessage(b, c) ==> SameMessage(a, c)
    ensures SameMessage(a, b) <==> SameMessage(a.(content := b.content, isUser := b.isUser, timestamp := b.timestamp), b)
  {
  }

  function SenderLabel(isUser: bool): (r: string) {
    if isUser then "User" else "BankChatAI"
  }

  /** One transcript line: `[<timestamp>] <sender>: <content>`. */
  function TranscriptEntry(m: Message, fmt: Formatting): (r: string) {
    "[" + fmt.mediumDateShortTime(m.timestamp) + "] " + SenderLabel(m.isUser) + ": " + m.content
  }

  function TranscriptEntries(ms: seq<Message>, fmt: Formatting): (r: seq<string>)
    ensures |r| == |ms|
  {
    seq(|ms|, i requires 0 <= i < |ms| => TranscriptEntry(ms[i], fmt))
  }

  /** `generateTranscript`: the entries of the messages joined by newlines. */
  function GenerateTranscript(ms: seq<Message>, fmt: Formatting): (r: string) {
    Join(TranscriptEntries(ms, fmt), "\n")
  }

  /** A conversation with no messages has an empty transcript. */
  lemma EmptyTranscript(fmt: Formatting)
    ensures GenerateTranscript([], fmt) == ""
  {
  }

  /** A later message adds one newline and its own entry at the end. */
  lemma TranscriptAppend(ms: seq<Message>, m: Message, fmt: Formatting)
    requires ms != []
    ensures GenerateTranscript(ms + [m], fmt)
         == GenerateTranscript(ms, fmt) + "\n" + TranscriptEntry(m, fmt)
  {
    assert TranscriptEntries(ms + [m], fmt) == TranscriptEntries(ms, fmt) + [TranscriptEntry(m, fmt)];
    JoinSnoc(TranscriptEntries(ms, fmt), TranscriptEntry(m, fmt), "\n");
  }

  /** As the log grows, its earlier transcript stays a prefix. */
  lemma TranscriptGrows(ms: seq<Message>, more: seq<Message>, fmt: Formatting)
    requires ms != []
    ensures GenerateTranscript(ms, fmt) <= GenerateTranscript(ms + more, fmt)
  {
    assert TranscriptEntries(ms + more, fmt) == TranscriptEntries(ms, fmt) + TranscriptEntries(more, fmt);
    JoinPrefix(TranscriptEntries(ms, fmt), TranscriptEntries(more, fmt), "\n");
  }

  /** When no entry spans lines, the transcript's lines are exactly the
      entries, one per message, in order. */
  lemma TranscriptLines(ms: seq<Message>, fmt: Formatting)
    requires ms != []
    requires forall i :: 0 <= i < |ms| ==> '\n' !in TranscriptEntry(ms[i], fmt)
    ensures SplitOn(GenerateTranscript(ms, fmt), '\n') == TranscriptEntries(ms, fmt)
    ensures forall i :: 0 <= i < |ms| ==>
      SplitOn(GenerateTranscript(ms, fmt), '\n')[i]
        == "[" + fmt.mediumDateShortTime(ms[i].timestamp) + "] "
           + (if ms[i].isUser then "User" else "BankChatAI") + ": " + ms[i].content
  {
    SplitJoin(TranscriptEntries(ms, fmt), '\n');
  }
}
