/**
 * The conversation state of the chat window (utils/conversation_manager.py): the
 * message list shared with the GUI, whether the next message is the first (and
 * so gets the context document), and the transcript file it is saved to.
 */
module Conversations {
  import opened Base
  import opened Strings
  import opened Config
  import opened Content
  import opened Plugins
  import opened Context
  import opened Messages
  import opened ChatLogs

  /** The placeholder message shown while the assistant's reply is awaited. */
  const THINKING_MESSAGE: Message := Message("assistant", [Text(THINKING_PLACEHOLDER)], None)

  lemma ThinkingMessageIsPlaceholder()
    ensures IsPlaceholder(THINKING_MESSAGE) && THINKING_MESSAGE.role == "assistant"
  {
    FlatTextSingle(THINKING_PLACEHOLDER);
  }

  /** The transcript file name for a conversation started at `stamp` (formatted "%Y%m%d_%H%M%S"). */
  function NewFilename(stamp: string): (r: string)
    ensures |r| == |stamp| + 17
    ensures r[..13] == "conversation_" && r[13..13 + |stamp|] == stamp && EndsWith(r, ".txt")
  {
    var r := "conversation_" + stamp + ".txt";
    EndsWithAppend("conversation_" + stamp, ".txt");
    assert r[13..13 + |stamp|] == stamp;
    r
  }

  /** The conversation after `remove_thinking_placeholder`: only a trailing placeholder is dropped. */
  function WithoutTrailingPlaceholder(conversation: seq<Message>): (r: seq<Message>)
    ensures conversation != [] && IsPlaceholder(conversation[|conversation| - 1]) ==>
              r == conversation[..|conversation| - 1]
    ensures conversation == [] || !IsPlaceholder(conversation[|conversation| - 1]) ==> r == conversation
  {
    if conversation != [] && IsPlaceholder(conversation[|conversation| - 1]) then conversation[..|conversation| - 1]
    else conversation
  }

  /** A conversation with no placeholder in it. */
  predicate Settled(conversation: seq<Message>)
  {
    forall m :: m in conversation ==> !IsPlaceholder(m)
  }

  /** Giving up on a reply right after a submit takes back just the placeholder. */
  lemma SubmitThenRemove(conversation: seq<Message>, message: Message)
    ensures WithoutTrailingPlaceholder(conversation + [message, THINKING_MESSAGE]) == conversation + [message]
  {
    ThinkingMessageIsPlaceholder();
    var c := conversation + [message, THINKING_MESSAGE];
    assert c[..|c| - 1] == conversation + [message];
  }

  /**
   * A turn on a settled conversation: after the submit and the completion the
   * conversation is the old one, the user's message and the reply, in that order.
   */
  lemma SubmitThenComplete(conversation: seq<Message>, message: Message, getResponse: seq<Message> -> string)
    requires Settled(conversation) && !IsPlaceholder(message)
    ensures Completed(conversation + [message, THINKING_MESSAGE], getResponse)
            == conversation + [message, AssistantReply(getResponse(Sanitize(conversation + [message])))]
  {
    ThinkingMessageIsPlaceholder();
    var kept := conversation + [message];
    assert conversation + [message, THINKING_MESSAGE] == kept + [THINKING_MESSAGE];
    WithoutPlaceholdersConcat(kept, [THINKING_MESSAGE]);
    assert WithoutPlaceholders([THINKING_MESSAGE]) == [];
    assert Settled(kept);
    WithoutPlaceholdersNone(kept);
    assert WithoutPlaceholders(conversation + [message, THINKING_MESSAGE]) == kept;
    var r := Completed(conversation + [message, THINKING_MESSAGE], getResponse);
    assert r == r[..|r| - 1] + [r[|r| - 1]];
  }

  /** Unless the reply reads like the placeholder, a completed turn leaves the conversation settled. */
  lemma TurnKeepsSettled(conversation: seq<Message>, message: Message, getResponse: seq<Message> -> string)
    requires Settled(conversation) && !IsPlaceholder(message)
    requires getResponse(Sanitize(conversation + [message])) != THINKING_PLACEHOLDER
    ensures Settled(Completed(conversation + [message, THINKING_MESSAGE], getResponse))
    ensures |Completed(conversation + [message, THINKING_MESSAGE], getResponse)| == |conversation| + 2
  {
    SubmitThenComplete(conversation, message, getResponse);
    var reply := AssistantReply(getResponse(Sanitize(conversation + [message])));
    assert !IsPlaceholder(reply);
  }

  class ConversationManager {
    /** The message list; the GUI holds the same list. */
    const conversation: ListRef<Message>
    const saveDirectory: string
    var saveFilename: string
    /** Whether the next user message is the first one, which gets the context document. */
    var firstMessage: bool
    /** Where transcripts are written. */
    const store: FileStore

    /**
     * A new manager: an empty conversation, the next message is the first, and the
     * file name is the given one or a fresh one from `stamp`.
     */
    constructor (saveDirectory: string, saveFilename: Option<string>, stamp: string, store: FileStore)
      ensures fresh(conversation) && conversation.items == []
      ensures firstMessage
      ensures this.saveDirectory == saveDirectory && this.store == store
      ensures saveFilename.None? ==> this.saveFilename == NewFilename(stamp)
      ensures saveFilename.Some? ==> this.saveFilename == saveFilename.value
    {
      conversation := new ListRef([]);
      this.saveDirectory := saveDirectory;
      firstMessage := true;
      this.saveFilename := if saveFilename.None? then NewFilename(stamp) else saveFilename.value;
      this.store := store;
    }

    /** `save_conversation`: the transcript file is rewritten. */
    method SaveConversation(directory: string, filename: string, now: int)
      modifies store
      ensures store.files == old(store.files)[PathJoin(directory, filename) := TranscriptText(conversation.items, now)]
    {
      SaveConversationToTextFile(store, conversation.items, directory, filename, now);
    }

    /**
     * `add_user_message`: the message is prepared (with context exactly when it is
     * the first message); then the message and the thinking placeholder are
     * appended, the file is saved, and the next message is no longer the first.
     * When preparing raises, nothing changes.
     */
    method AddUserMessage(userInput: string, plugins: seq<Plugin>, env: Environment, now: int)
      returns (r: Result<(), PrepareError>)
      modifies conversation, this`firstMessage, store
      ensures r.Err? <==> PrepareUserMessage(userInput, old(firstMessage), plugins, env).Err?
      ensures r.Err? ==> r.error == PrepareUserMessage(userInput, old(firstMessage), plugins, env).error
      ensures r.Err? ==> conversation.items == old(conversation.items) && firstMessage == old(firstMessage)
                         && store.files == old(store.files)
      ensures r.Ok? ==> conversation.items == old(conversation.items)
                          + [PrepareUserMessage(userInput, old(firstMessage), plugins, env).value, THINKING_MESSAGE]
      ensures r.Ok? ==> !firstMessage
      ensures r.Ok? ==> store.files == old(store.files)[PathJoin(saveDirectory, saveFilename) := TranscriptText(conversation.items, now)]
    {
      var includeContext := firstMessage;
      var userMessage := PrepareUserMessage(userInput, includeContext, plugins, env);
      if userMessage.Err? {
        return Err(userMessage.error);
      }
      conversation.items := conversation.items + [userMessage.value];
      var thinkingContent := [Text(THINKING_PLACEHOLDER)];
      conversation.items := conversation.items + [Message("assistant", thinkingContent, None)];
      assert conversation.items == old(conversation.items) + [userMessage.value, THINKING_MESSAGE];
      SaveConversation(saveDirectory, saveFilename, now);
      firstMessage := false;
      return Ok(());
    }

    /** `remove_thinking_placeholder`: pops the last message only when it is the placeholder. */
    method RemoveThinkingPlaceholder()
      modifies conversation
      ensures conversation.items == WithoutTrailingPlaceholder(old(conversation.items))
    {
      if |conversation.items| > 0 {
        var lastText := ExtractMessageText(conversation.items[|conversation.items| - 1].content, false, 30);
        ExtractUnshortened(conversation.items[|conversation.items| - 1].content, 30);
        if lastText == THINKING_PLACEHOLDER {
          conversation.items := conversation.items[..|conversation.items| - 1];
        }
      }
    }

    /** `process_assistant_response`: completes the turn in place, then saves. */
    method ProcessAssistantResponse(getResponse: seq<Message> -> string, now: int)
      modifies conversation, store
      ensures conversation.items == Completed(old(conversation.items), getResponse)
      ensures store.files == old(store.files)[PathJoin(saveDirectory, saveFilename) := TranscriptText(conversation.items, now)]
    {
      var _ := Messages.ProcessAssistantResponse(conversation, getResponse);
      SaveConversation(saveDirectory, saveFilename, now);
    }

    /**
     * `reset_conversation`: the list is emptied in place, a new file name is taken
     * from `stamp`, and the next message is the first again.
     */
    method ResetConversation(stamp: string)
      modifies conversation, this`saveFilename, this`firstMessage
      ensures conversation.items == [] && saveFilename == NewFilename(stamp) && firstMessage
    {
      conversation.items := [];
      saveFilename := NewFilename(stamp);
      firstMessage := true;
    }
  }
}
