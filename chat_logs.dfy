/**
 * The plain-text transcript written after every change to the conversation
 * (utils/chat_logs.py). The filesystem is a map from paths to file contents.
 */
module ChatLogs {
  import opened Base
  import opened Strings
  import opened Content
  import opened Messages

  /** The line of sixty '#' written after every message. */
  const DIVIDER: string := "############################################################"

  /** The timestamp a message is written with: its own, or the time of saving. */
  function TimestampOf(m: Message, now: int): (t: int)
    ensures m.timestamp.Some? ==> t == m.timestamp.value
    ensures m.timestamp.None? ==> t == now
  {
    match m.timestamp
    case Some(t) => t
    case None => now
  }

  /**
   * One message in the transcript: "<Role> [<timestamp>]:", the unshortened text
   * and a blank line, then the divider and another blank line.
   */
  function MessageBlock(m: Message, now: int): string
  {
    var entry := Capitalize(m.role) + " [" + IntToString(TimestampOf(m, now)) + "]:\n" + FlatText(m.content) + "\n\n";
    entry + (DIVIDER + "\n\n")
  }

  /** A block opens with the capitalised role and the timestamp, and closes with the text and the divider. */
  lemma MessageBlockShape(m: Message, now: int)
    ensures var head := Capitalize(m.role) + " [" + IntToString(TimestampOf(m, now)) + "]:\n";
            |head| <= |MessageBlock(m, now)| && MessageBlock(m, now)[..|head|] == head
    ensures EndsWith(MessageBlock(m, now), FlatText(m.content) + ("\n\n" + (DIVIDER + "\n\n")))
  {
    var head := Capitalize(m.role) + " [" + IntToString(TimestampOf(m, now)) + "]:\n";
    PiecesEdges(head, FlatText(m.content), "\n\n", DIVIDER + "\n\n");
  }

  /** The whole file: one block per message, in conversation order. */
  function TranscriptText(conversation: seq<Message>, now: int): string
  {
    ConcatMap(conversation, (m: Message) => MessageBlock(m, now))
  }

  /** The transcript of two conversations one after the other is the two transcripts one after the other. */
  lemma TranscriptConcat(a: seq<Message>, b: seq<Message>, now: int)
    ensures TranscriptText(a + b, now) == TranscriptText(a, now) + TranscriptText(b, now)
  {
    ConcatMapAppend(a, b, (m: Message) => MessageBlock(m, now));
  }

  /** Saving does not look at image metadata: a sanitized conversation gives the same file. */
  lemma {:induction false} TranscriptSanitized(conversation: seq<Message>, now: int)
    ensures TranscriptText(Sanitize(conversation), now) == TranscriptText(conversation, now)
    decreases |conversation|
  {
    if conversation != [] {
      var n := |conversation|;
      var init := conversation[..n - 1];
      var s := Sanitize(conversation);
      assert s[..n - 1] == Sanitize(init);
      TranscriptSanitized(init, now);
      SanitizeKeepsText(conversation[n - 1].content);
      assert MessageBlock(s[n - 1], now) == MessageBlock(conversation[n - 1], now);
    }
  }

  /** The loop of `save_conversation_to_text_file` that builds the file text. */
  method ConversationText(conversation: seq<Message>, now: int) returns (text: string)
    ensures text == TranscriptText(conversation, now)
  {
    text := "";
    var i := 0;
    while i < |conversation|
      invariant 0 <= i <= |conversation|
      invariant text == TranscriptText(conversation[..i], now)
    {
      assert conversation[..i + 1] == conversation[..i] + [conversation[i]];
      ConcatMapSnoc(conversation[..i], conversation[i], (m: Message) => MessageBlock(m, now));
      var message := conversation[i];
      var role := Capitalize(message.role);
      var timestamp := TimestampOf(message, now);
      var messageText := ExtractMessageText(message.content, false, 30);
      ExtractUnshortened(message.content, 30);
      var entry := role + " [" + IntToString(timestamp) + "]:\n" + messageText + "\n\n";
      ghost var before := text;
      text := text + entry;
      text := text + (DIVIDER + "\n\n");
      assert entry + (DIVIDER + "\n\n") == MessageBlock(message, now);
      assert text == before + (entry + (DIVIDER + "\n\n"));
      i := i + 1;
    }
    assert conversation[..|conversation|] == conversation;
  }

  /** The files on disk, by path. */
  class FileStore {
    var files: map<string, string>

    constructor (files: map<string, string>)
      ensures this.files == files
    {
      this.files := files;
    }
  }

  /**
   * `save_conversation_to_text_file`: the file at directory/filename is written
   * from scratch with the transcript; no other file changes.
   */
  method SaveConversationToTextFile(
    store: FileStore, conversation: seq<Message>, directory: string, filename: string, now: int)
    modifies store
    ensures store.files == old(store.files)[PathJoin(directory, filename) := TranscriptText(conversation, now)]
  {
    var filePath := PathJoin(directory, filename);
    var conversationText := ConversationText(conversation, now);
    store.files := store.files[filePath := conversationText];
  }
}
