/**
 * The message helpers of the chat client (utils/messages.py): flattening content
 * to text, sanitizing a conversation before it is sent, the Markdown chat
 * history, preparing the user's message, and completing a turn with the
 * assistant's reply.
 */
module Messages {
  import opened Base
  import opened Strings
  import opened Config
  import opened Content
  import opened Plugins
  import opened Context
  import opened Images
  import opened ImageInput

  /** How an image element reads when content is flattened to text. */
  const IMAGE_TEXT: string := "![Image](image_placeholder.png)"

  /** The text one element contributes when content is flattened. */
  function ElementText(e: ContentElement): string
  {
    match e
    case Text(t) => t
    case Image(_, _, _, _) => IMAGE_TEXT
  }

  /** The texts of the elements, in content order. */
  function ElementTexts(content: seq<ContentElement>): (r: seq<string>)
    ensures |r| == |content| && forall i :: 0 <= i < |content| ==> r[i] == ElementText(content[i])
  {
    if content == [] then [] else ElementTexts(content[..|content| - 1]) + [ElementText(content[|content| - 1])]
  }

  /** The unshortened text of a content list: the element texts joined by newlines. */
  function FlatText(content: seq<ContentElement>): string
  {
    Join("\n", ElementTexts(content))
  }

  /**
   * The optional shortening of `extract_message_text`. The thinking placeholder is
   * never touched; any other text gets its newlines replaced by spaces and, when
   * longer than `shortenLen`, is cut there and marked as shortened.
   */
  function Shortened(res: string, shorten: bool, shortenLen: nat): (r: string)
    ensures !shorten || res == THINKING_PLACEHOLDER ==> r == res
    ensures shorten && res != THINKING_PLACEHOLDER ==> '\n' !in r && |r| <= shortenLen + |SHORTENED_MESSAGE_PLACEHOLDER|
    ensures shorten && res != THINKING_PLACEHOLDER && |res| <= shortenLen ==> r == ReplaceNewlines(res)
    ensures shorten && res != THINKING_PLACEHOLDER && |res| > shortenLen ==>
              |r| == shortenLen + |SHORTENED_MESSAGE_PLACEHOLDER|
              && r[..shortenLen] == ReplaceNewlines(res)[..shortenLen]
              && EndsWith(r, SHORTENED_MESSAGE_PLACEHOLDER)
  {
    if shorten && res != THINKING_PLACEHOLDER then
      var flat := ReplaceNewlines(res);
      if |flat| > shortenLen then
        var r := flat[..shortenLen] + SHORTENED_MESSAGE_PLACEHOLDER;
        assert '\n' !in SHORTENED_MESSAGE_PLACEHOLDER;
        assert forall i :: 0 <= i < shortenLen ==> r[i] == flat[i];
        EndsWithAppend(flat[..shortenLen], SHORTENED_MESSAGE_PLACEHOLDER);
        r
      else flat
    else res
  }

  /** `extract_message_text` on a content list. */
  function ExtractText(content: seq<ContentElement>, shorten: bool, shortenLen: nat): string
  {
    Shortened(FlatText(content), shorten, shortenLen)
  }

  /** Without shortening, the extracted text is the flattened text. */
  lemma ExtractUnshortened(content: seq<ContentElement>, shortenLen: nat)
    ensures ExtractText(content, false, shortenLen) == FlatText(content)
  {
  }

  /** `extract_message_text`: the loop that collects the element texts, then the join and the shortening. */
  method ExtractMessageText(content: seq<ContentElement>, shorten: bool, shortenLen: nat) returns (res: string)
    ensures res == ExtractText(content, shorten, shortenLen)
  {
    var texts: seq<string> := [];
    var i := 0;
    while i < |content|
      invariant 0 <= i <= |content|
      invariant texts == ElementTexts(content[..i])
    {
      assert content[..i + 1][..i] == content[..i];
      if content[i].Text? {
        texts := texts + [content[i].text];
      } else {
        texts := texts + [IMAGE_TEXT];
      }
      i := i + 1;
    }
    assert content[..|content|] == content;
    res := Join("\n", texts);
    if shorten {
      if res != THINKING_PLACEHOLDER {
        res := ReplaceNewlines(res);
        if |res| > shortenLen {
          res := res[..shortenLen] + SHORTENED_MESSAGE_PLACEHOLDER;
        }
      }
    }
  }

  /** A single text element flattens to its own text; an empty list to "". */
  lemma FlatTextSingle(t: string)
    ensures FlatText([Text(t)]) == t
    ensures FlatText([]) == ""
  {
    assert ElementTexts([Text(t)]) == [t];
  }

  /** Flattening goes element by element: one more element adds a newline and its text. */
  lemma FlatTextSnoc(content: seq<ContentElement>, e: ContentElement)
    requires content != []
    ensures FlatText(content + [e]) == FlatText(content) + "\n" + ElementText(e)
  {
    var c := content + [e];
    assert c[..|c| - 1] == content;
    JoinSnoc("\n", ElementTexts(content), ElementText(e));
  }

  // ---------------------------------------------------------------------------
  // Sanitizing

  /** An image element that still carries its local path or its size. */
  predicate HasMetadata(e: ContentElement)
  {
    e.Image? && (e.path.Some? || e.width.Some? || e.height.Some?)
  }

  /** An element with `path`, `width` and `height` removed from images; text elements untouched. */
  function SanitizeElement(e: ContentElement): (r: ContentElement)
    ensures e.Text? ==> r == e
    ensures e.Image? ==> r.Image? && r.source == e.source
    ensures !HasMetadata(r)
    ensures !HasMetadata(e) ==> r == e
  {
    match e
    case Text(_) => e
    case Image(_, _, _, source) => Image(None, None, None, source)
  }

  function SanitizeContent(content: seq<ContentElement>): (r: seq<ContentElement>)
    ensures |r| == |content| && forall i :: 0 <= i < |content| ==> r[i] == SanitizeElement(content[i])
  {
    seq(|content|, i requires 0 <= i < |content| => SanitizeElement(content[i]))
  }

  function SanitizeMessage(m: Message): (r: Message)
    ensures r.role == m.role && r.timestamp == m.timestamp
    ensures r.content == SanitizeContent(m.content)
  {
    m.(content := SanitizeContent(m.content))
  }

  /** The conversation as it is sent to the provider. */
  function Sanitize(conversation: seq<Message>): (r: seq<Message>)
    ensures |r| == |conversation|
    ensures forall i :: 0 <= i < |conversation| ==> r[i] == SanitizeMessage(conversation[i])
  {
    seq(|conversation|, i requires 0 <= i < |conversation| => SanitizeMessage(conversation[i]))
  }

  /** No element of any message still carries image metadata. */
  predicate NoMetadata(conversation: seq<Message>)
  {
    forall i, j :: 0 <= i < |conversation| && 0 <= j < |conversation[i].content| ==>
      !HasMetadata(conversation[i].content[j])
  }

  /**
   * Sanitizing removes all image metadata, and a conversation is left as it is
   * exactly when it has none: so sanitizing twice is sanitizing once.
   */
  lemma SanitizeFixpoint(conversation: seq<Message>)
    ensures NoMetadata(Sanitize(conversation))
    ensures Sanitize(conversation) == conversation <==> NoMetadata(conversation)
    ensures Sanitize(Sanitize(conversation)) == Sanitize(conversation)
  {
    var s := Sanitize(conversation);
    if NoMetadata(conversation) {
      forall i | 0 <= i < |conversation|
        ensures s[i] == conversation[i]
      {
        assert SanitizeContent(conversation[i].content) == conversation[i].content;
      }
    }
    if s == conversation {
      forall i, j | 0 <= i < |conversation| && 0 <= j < |conversation[i].content|
        ensures !HasMetadata(conversation[i].content[j])
      {
        assert conversation[i].content[j] == s[i].content[j];
      }
    }
    var ss := Sanitize(s);
    forall i | 0 <= i < |s|
      ensures ss[i] == s[i]
    {
      assert SanitizeContent(s[i].content) == s[i].content;
    }
  }

  /** Sanitizing does not change any message's flattened text. */
  lemma SanitizeKeepsText(content: seq<ContentElement>)
    ensures FlatText(SanitizeContent(content)) == FlatText(content)
  {
    assert ElementTexts(SanitizeContent(content)) == ElementTexts(content);
  }

  /**
   * `sanitize_conversation`: builds a sanitized copy; the caller's list is not
   * modified (the method may not change it).
   */
  method SanitizeConversation(conversation: ListRef<Message>) returns (sanitized: seq<Message>)
    ensures sanitized == Sanitize(conversation.items)
  {
    var messages := conversation.items;
    sanitized := [];
    var i := 0;
    while i < |messages|
      invariant 0 <= i <= |messages|
      invariant sanitized == Sanitize(messages[..i])
    {
      var content := messages[i].content;
      var elements: seq<ContentElement> := [];
      var j := 0;
      while j < |content|
        invariant 0 <= j <= |content|
        invariant elements == SanitizeContent(content[..j])
      {
        var element := content[j];
        if element.Image? {
          element := Image(None, None, None, element.source);
        }
        elements := elements + [element];
        j := j + 1;
      }
      assert content[..|content|] == content;
      sanitized := sanitized + [messages[i].(content := elements)];
      i := i + 1;
    }
    assert messages[..|messages|] == messages;
  }

  // ---------------------------------------------------------------------------
  // Chat history

  /** What one message adds to the Markdown history; roles other than user and assistant add nothing. */
  function HistoryEntry(m: Message): (r: string)
    ensures m.role == "user" ==> r == "**You:** " + FlatText(m.content) + "\n\n"
    ensures m.role == "assistant" ==> r == "**Assistant:** " + FlatText(m.content) + "\n\n"
    ensures m.role != "user" && m.role != "assistant" ==> r == ""
  {
    var text := ExtractText(m.content, false, 30);
    ExtractUnshortened(m.content, 30);
    if m.role == "user" then "**You:** " + text + "\n\n"
    else if m.role == "assistant" then "**Assistant:** " + text + "\n\n"
    else ""
  }

  /** `build_chat_history`: one entry per message, in conversation order. */
  function ChatHistory(conversation: seq<Message>): string
  {
    ConcatMap(conversation, HistoryEntry)
  }

  method BuildChatHistory(conversation: seq<Message>) returns (chatHistory: string)
    ensures chatHistory == ChatHistory(conversation)
  {
    chatHistory := "";
    var i := 0;
    while i < |conversation|
      invariant 0 <= i <= |conversation|
      invariant chatHistory == ChatHistory(conversation[..i])
    {
      assert conversation[..i + 1] == conversation[..i] + [conversation[i]];
      ConcatMapSnoc(conversation[..i], conversation[i], HistoryEntry);
      var message := conversation[i];
      var messageText := ExtractMessageText(message.content, false, 30);
      ExtractUnshortened(message.content, 30);
      var entry := "";
      if message.role == "user" {
        entry := "**You:** " + messageText + "\n\n";
      } else if message.role == "assistant" {
        entry := "**Assistant:** " + messageText + "\n\n";
      }
      assert entry == HistoryEntry(message);
      chatHistory := chatHistory + entry;
      i := i + 1;
    }
    assert conversation[..|conversation|] == conversation;
  }

  /** The history of two conversations one after the other is the two histories one after the other. */
  lemma ChatHistoryConcat(a: seq<Message>, b: seq<Message>)
    ensures ChatHistory(a + b) == ChatHistory(a) + ChatHistory(b)
  {
    ConcatMapAppend(a, b, HistoryEntry);
  }

  /** The history is the same before and after sanitizing: metadata is never shown. */
  lemma {:induction false} ChatHistorySanitized(conversation: seq<Message>)
    ensures ChatHistory(Sanitize(conversation)) == ChatHistory(conversation)
    decreases |conversation|
  {
    if conversation != [] {
      var n := |conversation|;
      var init := conversation[..n - 1];
      var s := Sanitize(conversation);
      assert s[..n - 1] == Sanitize(init);
      ChatHistorySanitized(init);
      SanitizeKeepsText(conversation[n - 1].content);
      assert HistoryEntry(s[n - 1]) == HistoryEntry(conversation[n - 1]);
    }
  }

  // ---------------------------------------------------------------------------
  // Preparing the user's message

  /** Why preparing a message raises. */
  datatype PrepareError =
    | PluginFailed(message: string)        // what the applicable plugin raised (e.g. an unreadable image)
    | ContextUnavailable(message: string)  // the ValueError of `build_context_data`
    | FirstElementNotText                  // the IndexError/KeyError of `content[0]["text"]`

  /** `prepare_message_content`: one text element, then the plugins; a plugin's exception propagates. */
  function PrepareMessageContent(userInput: string, plugins: seq<Plugin>): (r: Result<seq<ContentElement>, string>)
    ensures (forall p :: p in plugins ==> !p.isApplicable(userInput)) ==> r == Ok([Text(userInput)])
  {
    ProcessedInputDispatch(plugins, [Text(userInput)]);
    ProcessedInput(plugins, [Text(userInput)])
  }

  /**
   * `prepare_user_message`: the content is prepared first, so a plugin's
   * exception comes before any context is read. With context requested and a
   * non-empty context document, the whole content is replaced by one text
   * element holding the first element's text, a newline and the context.
   */
  function PrepareUserMessage(userInput: string, includeContext: bool, plugins: seq<Plugin>, env: Environment)
    : (r: Result<Message, PrepareError>)
    ensures r.Ok? ==> r.value.role == "user" && r.value.timestamp.None?
    ensures PrepareMessageContent(userInput, plugins).Err? ==>
              r == Err(PluginFailed(PrepareMessageContent(userInput, plugins).error))
    ensures r.Err? && !r.error.PluginFailed? ==> includeContext && env.dirPath.Some?
  {
    match PrepareMessageContent(userInput, plugins)
    case Err(e) => Err(PluginFailed(e))
    case Ok(content) =>
      if !includeContext then Ok(Message("user", content, None))
      else
        match ContextData(env)
        case Err(e) => Err(ContextUnavailable(e))
        case Ok(None) => Ok(Message("user", content, None))
        case Ok(Some(contextData)) =>
          if contextData == "" then Ok(Message("user", content, None))
          else if content == [] || !content[0].Text? then Err(FirstElementNotText)
          else Ok(Message("user", [Text(content[0].text + "\n" + contextData)], None))
  }

  /**
   * Once the content is prepared: without context, or without a configured
   * context directory, the message is the prepared content. With an unreachable
   * directory it raises. With a non-empty context document it is a single text
   * element: the user's text, a newline, the context (any plugin-added elements
   * are dropped).
   */
  lemma PrepareUserMessageCases(userInput: string, includeContext: bool, plugins: seq<Plugin>, env: Environment)
    ensures var content := PrepareMessageContent(userInput, plugins);
            content.Ok? && (!includeContext || env.dirPath.None?) ==>
              PrepareUserMessage(userInput, includeContext, plugins, env) == Ok(Message("user", content.value, None))
    ensures PrepareMessageContent(userInput, plugins).Ok? && includeContext && env.dirPath.Some? && !env.dirValid ==>
              PrepareUserMessage(userInput, includeContext, plugins, env)
              == Err(ContextUnavailable("Can't access the dir path " + env.dirPath.value))
    ensures var content := PrepareMessageContent(userInput, plugins);
            content.Ok? && includeContext && ContextData(env).Ok? && ContextData(env).value.Some?
            && ContextData(env).value.value != "" && content.value != [] && content.value[0].Text? ==>
              PrepareUserMessage(userInput, includeContext, plugins, env)
              == Ok(Message("user", [Text(content.value[0].text + "\n" + ContextData(env).value.value)], None))
  {
  }

  /** A plain text that no plugin claims, with the context document appended. */
  lemma PrepareWithContextNoPlugin(userInput: string, plugins: seq<Plugin>, env: Environment)
    requires forall p :: p in plugins ==> !p.isApplicable(userInput)
    requires env.dirPath.Some? && env.dirValid && env.txtFiles != []
    ensures PrepareUserMessage(userInput, true, plugins, env)
            == Ok(Message("user", [Text(userInput + "\n" + Join("\n\n", WrappedBlocks(env.txtFiles)))], None))
  {
    var j := Join("\n\n", WrappedBlocks(env.txtFiles));
    ContextIsJoinedBlocks(env);
    JoinFirst("\n\n", WrappedBlocks(env.txtFiles));
    var content := PrepareMessageContent(userInput, plugins);
    assert content == Ok([Text(userInput)]);
    PrepareUserMessageCases(userInput, true, plugins, env);
  }

  /**
   * A text that passes the image-path test but names a file the encoder cannot
   * read (a directory called "x.png", a corrupt image) makes preparing raise,
   * with or without context.
   */
  lemma UnreadableImageRaises(
    encode: Encoder, isValidPath: string -> bool, userInput: string, includeContext: bool, env: Environment)
    requires IsImagePath(userInput, isValidPath) && encode(userInput).Err?
    ensures PrepareUserMessage(userInput, includeContext, [ImagePlugin(encode, isValidPath)], env)
            == Err(PluginFailed(encode(userInput).error))
  {
    ImagePluginDispatch(encode, isValidPath, userInput);
  }

  // ---------------------------------------------------------------------------
  // Completing a turn

  /** The message `handle_assistant_response` appends. */
  function AssistantReply(text: string): (m: Message)
    ensures m.role == "assistant" && FlatText(m.content) == text && m.timestamp.None?
  {
    FlatTextSingle(text);
    Message("assistant", [Text(text)], None)
  }

  method HandleAssistantResponse(conversation: ListRef<Message>, assistantMessage: string)
    modifies conversation
    ensures conversation.items == old(conversation.items) + [AssistantReply(assistantMessage)]
  {
    conversation.items := conversation.items + [Message("assistant", [Text(assistantMessage)], None)];
  }

  /**
   * A message whose text, as `extract_message_text` gives it without shortening,
   * is the thinking placeholder, whatever its role.
   */
  predicate IsPlaceholder(m: Message)
  {
    FlatText(m.content) == THINKING_PLACEHOLDER
  }

  predicate NotPlaceholder(m: Message)
  {
    !IsPlaceholder(m)
  }

  /** The conversation without its placeholder messages, in order. */
  function WithoutPlaceholders(conversation: seq<Message>): seq<Message>
  {
    Filter(conversation, NotPlaceholder)
  }

  /** A message survives the filter exactly when it was there and is not a placeholder. */
  lemma WithoutPlaceholdersMembers(conversation: seq<Message>, m: Message)
    ensures m in WithoutPlaceholders(conversation) <==> m in conversation && !IsPlaceholder(m)
  {
    FilterMembers(conversation, NotPlaceholder, m);
  }

  /** The filter keeps order: it works on each part of a conversation separately. */
  lemma WithoutPlaceholdersConcat(a: seq<Message>, b: seq<Message>)
    ensures WithoutPlaceholders(a + b) == WithoutPlaceholders(a) + WithoutPlaceholders(b)
  {
    FilterConcat(a, b, NotPlaceholder);
  }

  /** A conversation without placeholders passes the filter unchanged. */
  lemma WithoutPlaceholdersNone(conversation: seq<Message>)
    requires forall m :: m in conversation ==> !IsPlaceholder(m)
    ensures WithoutPlaceholders(conversation) == conversation
  {
    FilterAll(conversation, NotPlaceholder);
  }

  /**
   * The conversation after `process_assistant_response`: the placeholders are
   * filtered out, and the reply to the sanitized remainder is appended.
   * `getResponse` stands for the provider call, failures included as text.
   */
  function Completed(conversation: seq<Message>, getResponse: seq<Message> -> string): (r: seq<Message>)
    ensures |r| == |WithoutPlaceholders(conversation)| + 1
    ensures r[..|r| - 1] == WithoutPlaceholders(conversation)
    ensures r[|r| - 1] == AssistantReply(getResponse(Sanitize(WithoutPlaceholders(conversation))))
  {
    var kept := WithoutPlaceholders(conversation);
    var r := kept + [AssistantReply(getResponse(Sanitize(kept)))];
    assert r[..|kept|] == kept;
    r
  }

  /**
   * Unless the reply itself is the placeholder text, no placeholder is left after
   * completion, and the last message is the assistant's.
   */
  lemma CompletedHasNoPlaceholder(conversation: seq<Message>, getResponse: seq<Message> -> string)
    requires getResponse(Sanitize(WithoutPlaceholders(conversation))) != THINKING_PLACEHOLDER
    ensures forall m :: m in Completed(conversation, getResponse) ==> !IsPlaceholder(m)
    ensures Completed(conversation, getResponse)[|Completed(conversation, getResponse)| - 1].role == "assistant"
  {
    var r := Completed(conversation, getResponse);
    var kept := WithoutPlaceholders(conversation);
    assert r == kept + [r[|r| - 1]];
    forall m | m in r
      ensures !IsPlaceholder(m)
    {
      if m in kept {
        WithoutPlaceholdersMembers(conversation, m);
      } else {
        assert m == r[|r| - 1];
        FlatTextSingle(getResponse(Sanitize(kept)));
      }
    }
  }

  /**
   * The filter does not look at roles: a user message that reads exactly like the
   * placeholder is dropped as well.
   */
  lemma UserPlaceholderDropped(conversation: seq<Message>, getResponse: seq<Message> -> string, m: Message)
    requires m.role == "user" && m.content == [Text(THINKING_PLACEHOLDER)]
    ensures m !in Completed(conversation, getResponse)
  {
    FlatTextSingle(THINKING_PLACEHOLDER);
    var r := Completed(conversation, getResponse);
    assert r == WithoutPlaceholders(conversation) + [r[|r| - 1]];
    WithoutPlaceholdersMembers(conversation, m);
  }

  /**
   * `process_assistant_response`: the caller's list is filtered in place, the
   * provider is asked about its sanitized copy, the reply is appended, and the
   * same list is returned.
   */
  method ProcessAssistantResponse(conversationWithMetadata: ListRef<Message>, getResponse: seq<Message> -> string)
    returns (r: ListRef<Message>)
    modifies conversationWithMetadata
    ensures r == conversationWithMetadata
    ensures conversationWithMetadata.items == Completed(old(conversationWithMetadata.items), getResponse)
  {
    var messages := conversationWithMetadata.items;
    var kept: seq<Message> := [];
    var i := 0;
    while i < |messages|
      invariant 0 <= i <= |messages|
      invariant kept == WithoutPlaceholders(messages[..i])
    {
      assert messages[..i + 1][..i] == messages[..i];
      var text := ExtractMessageText(messages[i].content, false, 30);
      ExtractUnshortened(messages[i].content, 30);
      if text != THINKING_PLACEHOLDER {
        kept := kept + [messages[i]];
      }
      i := i + 1;
    }
    assert messages[..|messages|] == messages;
    conversationWithMetadata.items := kept;
    var sanitizedConversation := SanitizeConversation(conversationWithMetadata);
    var assistantMessage := getResponse(sanitizedConversation);
    HandleAssistantResponse(conversationWithMetadata, assistantMessage);
    r := conversationWithMetadata;
  }
}
