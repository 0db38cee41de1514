# dearbot chat core, modelled in Dafny

This project models the non-GUI core of *dearbot*, a desktop chat client for the
Claude API written in Python with Dear PyGui. It covers the following parts:

- **Message helpers.** The message/content structures, and flattening content to text
  with optional shortening. Sanitizing the conversation before it is sent. The Markdown
  chat history. Preparing the user's message, with plugins and the one-time context
  document. Completing a turn: drop the "[Thinking...]" placeholders, ask the provider,
  append the reply.
- **Conversation manager.** The conversation list shared with the GUI, the
  first-message flag and the transcript file name.
- **Plugin registry** and the image plugin. The first applicable plugin, in
  registration order, augments the content.
- **Serialisers:** the plain-text transcript file, the `<name>…</name>` context
  document, and the API cost log with its monthly total and the per-call cost formula.
- **Small arithmetic and state machines:**
  - the image-path test, and the long-edge and thumbnail size arithmetic;
  - the font-size buttons and the configuration sanity checks;
  - the queue of GUI calls deferred until startup.

One Dafny module per source file: `Messages`, `Conversations`, `Plugins`,
`ImageInput`, `ChatLogs`, `Context`, `Costs`, `Images`, `Fonts`, `Config`,
`StartupCalls`. Supporting modules:

- `Base`: Option, Result, and `ListRef`, a Python list object that is mutated in place and shared.
- `Strings`: Python's `strip`, `lower`, `capitalize`, `endswith`, `split`, `join`,
  `str(int)`, `os.path.basename` and `os.path.join`.
- `Content`: content elements and messages.
- `AiProvider`: the provider's reply, with failures reported in-band as "Error: …".

Where the Python code mutates state, the model does too:

- The manager's conversation and the content list extended by the image plugin are
  `ListRef` objects.
- The managers are classes whose methods carry `modifies` clauses.
- Each loop of the source is a method with a `while` loop, except the nested loops of
  `calculate_api_call_cost`, a pure function modelled as recursive functions
  (`Costs.ApiCallCost`). Each method is proved against a specification function, and
  the properties are lemmas about those functions.

The environment is passed in as parameters:

- Filesystem contents, directory listings, path validity and the plugin module loader.
- Clock values, the provider call, the tokenizer, `encode_image` (which may fail), and
  the timestamp and float parsers and printers.

The filesystem written by the transcript saver is a `FileStore` map from path to contents.
The cost log is one string, the file's text, which `log_call` appends to and
`get_monthly_cost` reads back line by line (`Strings.Lines`, Python's iteration over a
text file, each line keeping its "\n").

Behaviour of the code worth noting:

- A plugin module that fails to load is not skipped. `load_plugins` does not catch the
  exception, so `Plugins.PluginManager.LoadPlugins` returns `Err` and keeps the plugins
  registered before it.
- The image plugin does not replace the text element with the image. It keeps
  `content[0]` and appends the image element and a text element repeating the path
  (`ImageInput.AugmentedShape`).
- The placeholder filter drops messages of any role. A user message that is exactly
  "[Thinking...]" is dropped as well (`Messages.UserPlaceholderDropped`).
- A plugin that raises is not caught. An image path whose file `encode_image` cannot read
  makes `prepare_user_message` raise, with or without a context request
  (`Messages.UnreadableImageRaises`).
- `log_call` appends to the file as it finds it. If the file's last line has no "\n",
  the new record is glued onto it and both are read back as one line
  (`Costs.LogAfterUnterminatedLine`).

## Model

| member | source | states |
|---|---|---|
| Config.CalculateInputFieldWidth | config.py:79-82 | the input field, the send button and two paddings fill the given width exactly; the button is BUTTON_WIDTH wide |
| Config.CheckFontSizes | config.py:86-105 | loading succeeds iff the step is non-zero and divides both max − min and default − min (Python's floor `%`); on success the number of sizes n satisfies (n − 1)·step = max − min |
| Config.ShippedFontSizesPass | config.py:12-17 | the shipped font settings pass both checks, with six sizes |
| Config.CheckContextDir | config.py:115-122 | no configured directory always passes; a configured one passes iff it is reachable and holds at least one .txt file |
| Fonts.FontExistsIffOnGrid | gui/font_manager.py:25-30 | a font is created for a size iff it is min + k·step and at most max |
| Fonts.FontCountMatchesConfig | gui/font_manager.py:26-30 | the number of fonts created is the `number_of_sizes` the configuration computes |
| Fonts.ShippedFontSizes | gui/font_manager.py:26-30 | with the shipped settings, fonts are created for 20, 24, 28, 32, 36 and 40 |
| Fonts.Increased | gui/font_manager.py:69-82 | below max: the size grows and is clamped to max; the message is "Max font" exactly when it clamped and "" otherwise; at or above max: size kept, message TEXT_LABEL_MAX_FONT |
| Fonts.Decreased | gui/font_manager.py:84-97 | the mirror image of Increased, with min, "Min font" and TEXT_LABEL_MIN_FONT |
| Fonts.ClickStaysInBounds | gui/font_manager.py:69-97 | one button press keeps a size within [min, max] inside [min, max] |
| Fonts.ClicksStayInBounds | gui/font_manager.py:69-97 | any sequence of presses keeps the size within [min, max] |
| Fonts.ClickStaysOnGrid | gui/font_manager.py:71-92 | when the step divides max − min, a press from a size on the grid lands on the grid and never takes a clamping branch |
| Fonts.ClicksStayOnGrid | gui/font_manager.py:69-97 | every size reachable from a size on the grid has a font |
| Fonts.ShippedSizesAlwaysHaveFont | gui/font_manager.py:19 | from the shipped initial size, every reachable size is one of 20, 24, …, 40 |
| Fonts.FontManager.constructor | gui/font_manager.py:17-19 | the current size starts at FONT_INFO's font_size |
| Fonts.FontManager.CreateFonts | gui/font_manager.py:23-30 | the loop creates fonts for exactly `range(min, max + 1, step)` |
| Fonts.FontManager.IncreaseFontSize | gui/font_manager.py:69-82 | the new size and message are those of Increased on the old size |
| Fonts.FontManager.DecreaseFontSize | gui/font_manager.py:84-97 | the new size and message are those of Decreased on the old size |
| Images.ImagePathLength | utils/images.py:13-18 | anything accepted as an image path has at least four characters, so it is never empty |
| Images.NoExtensionNoImage | utils/images.py:15-17 | without one of the five extensions (after strip and lower), the answer is false whatever the filesystem holds |
| Images.ImagePathExample | utils/images.py:16 | surrounding whitespace and upper case do not hide an extension: " Cat.PNG\n" is decided by the filesystem alone |
| Images.ResizeLongEdge | utils/images.py:64-75 | the size is unchanged when the long edge fits; otherwise both sides are at most the cap and the long side equals it; no side grows |
| Images.GetThumbSize | utils/images.py:166-185 | landscape: width = max_size and height is max_size·h/w rounded down; otherwise height = max_size and width is max_size·w/h rounded down; a square gives max_size × max_size |
| AiProvider.ReplyText | utils/ai_provider.py:13-48 | a reply is passed through; a failure becomes "Error: " followed by its message |
| AiProvider.FailureIsNotPlaceholder | utils/ai_provider.py:46-47 | a reported failure is never the thinking placeholder |
| Messages.Shortened | utils/messages.py:80-85 | without shortening, or for the placeholder itself, the text is unchanged; otherwise it has no newline and is at most shorten_len + len(SHORTENED_MESSAGE_PLACEHOLDER) long; a text of at most shorten_len only has its newlines replaced, a longer one is cut at shorten_len and ends with the marker |
| Messages.ExtractMessageText | utils/messages.py:66-85 | the loop computes the flattened text (element texts joined by "\n", images as the Markdown image placeholder), then shortens it |
| Messages.ExtractUnshortened | utils/messages.py:66-85 | with shortening off, the extracted text is exactly the flattened text |
| Messages.FlatTextSingle | utils/messages.py:66-75 | a single text element flattens to its own text; empty content to "" |
| Messages.FlatTextSnoc | utils/messages.py:69-75 | flattening follows content order: one more element adds "\n" and its text |
| Messages.SanitizeElement | utils/messages.py:162-169 | text elements are untouched; image elements keep their source and lose path, width and height |
| Messages.SanitizeFixpoint | utils/messages.py:155-170 | the result carries no image metadata; a conversation is unchanged iff it has none; sanitizing is idempotent |
| Messages.SanitizeKeepsText | utils/messages.py:160-169 | sanitizing never changes a message's flattened text |
| Messages.SanitizeConversation | utils/messages.py:155-170 | returns the sanitized copy; the caller's list is not modified |
| Messages.HistoryEntry | utils/messages.py:121-131 | a user message gives "**You:** text\n\n", an assistant message "**Assistant:** text\n\n", any other role nothing |
| Messages.BuildChatHistory | utils/messages.py:118-132 | the loop builds one entry per message, in conversation order |
| Messages.ChatHistoryConcat | utils/messages.py:118-132 | the history of a concatenation is the concatenation of the histories |
| Messages.ChatHistorySanitized | utils/messages.py:118-132 | the history does not depend on image metadata |
| Messages.PrepareMessageContent | utils/messages.py:38-49 | without an applicable plugin the content is exactly [user_input] and nothing raises |
| Messages.PrepareUserMessage | utils/messages.py:135-146 | the message's role is always "user" and it has no timestamp; a plugin that raises makes the whole call raise with its error; any other error needs a requested context and a configured directory |
| Messages.PrepareUserMessageCases | utils/messages.py:135-146 | when the content is prepared: with no context requested or configured, the message holds that content; with an unreachable directory it raises "Can't access the dir path …"; with a non-empty context, the content becomes one text element holding content[0]'s text, "\n", and the context |
| Messages.PrepareWithContextNoPlugin | utils/messages.py:139-144 | a plain text plus a context directory gives one text element: the text, "\n", and the tagged blocks joined by blank lines |
| Messages.UnreadableImageRaises | plugins/image_input.py:36-45 | an image path that encode_image cannot read makes the user message fail with encode_image's error, whether or not context was requested |
| Messages.AssistantReply | utils/messages.py:52-57 | the appended message is from the assistant and flattens to exactly the reply |
| Messages.HandleAssistantResponse | utils/messages.py:52-57 | appends exactly that one message to the caller's list |
| Messages.WithoutPlaceholdersMembers | utils/messages.py:176-180 | a message survives iff it was there and is not a placeholder, whatever its role |
| Messages.WithoutPlaceholdersConcat | utils/messages.py:176-180 | the filter keeps order: it distributes over concatenation |
| Messages.WithoutPlaceholdersNone | utils/messages.py:176-180 | a conversation without placeholders passes unchanged |
| Messages.Completed | utils/messages.py:173-191 | the result is the filtered conversation followed by exactly one assistant message holding the provider's reply to the sanitized filtered conversation |
| Messages.CompletedHasNoPlaceholder | utils/messages.py:173-191 | unless the reply is the placeholder text, no placeholder is left and the last message is the assistant's |
| Messages.UserPlaceholderDropped | utils/messages.py:176-180 | a user message reading exactly "[Thinking...]" is removed too |
| Messages.ProcessAssistantResponse | utils/messages.py:173-191 | filters the caller's list in place, asks the provider about its sanitized copy, appends the reply, returns the same list |
| Conversations.ThinkingMessageIsPlaceholder | utils/conversation_manager.py:32-33 | the message appended on submit is an assistant message that the filter treats as a placeholder |
| Conversations.NewFilename | utils/conversation_manager.py:19-20 | the file name is "conversation_" + timestamp + ".txt" |
| Conversations.WithoutTrailingPlaceholder | utils/conversation_manager.py:38-45 | only a trailing placeholder is dropped; an empty list or any other last message leaves the list unchanged |
| Conversations.SubmitThenRemove | utils/conversation_manager.py:38-45 | removing the placeholder right after a submit leaves the conversation plus the user's message |
| Conversations.SubmitThenComplete | utils/conversation_manager.py:24-51 | a turn on a conversation without placeholders yields the old conversation, the user's message and the reply, in order |
| Conversations.TurnKeepsSettled | utils/conversation_manager.py:47-51 | unless the reply is the placeholder text, a completed turn leaves no placeholder and the conversation two messages longer |
| Conversations.ConversationManager.constructor | utils/conversation_manager.py:11-22 | an empty conversation; the next message is the first; the given file name or a fresh one |
| Conversations.ConversationManager.AddUserMessage | utils/conversation_manager.py:24-36 | context is requested iff the first-message flag was set. On success: the user message and the placeholder are appended, the file is saved and the flag cleared. If preparing raises, nothing changes. The file name never changes. |
| Conversations.ConversationManager.RemoveThinkingPlaceholder | utils/conversation_manager.py:38-45 | the conversation becomes WithoutTrailingPlaceholder of the old one |
| Conversations.ConversationManager.ProcessAssistantResponse | utils/conversation_manager.py:47-51 | the conversation is completed in place and saved; the file name is kept |
| Conversations.ConversationManager.SaveConversation | utils/conversation_manager.py:63-71 | the transcript file is rewritten from the current conversation |
| Conversations.ConversationManager.ResetConversation | utils/conversation_manager.py:73-79 | empty conversation, a new file name from the timestamp, and the next message is the first again |
| Plugins.PluginFiles | utils/plugins_manager.py:25-29 | every discovered name was listed and ends in ".py" |
| Plugins.PluginFilesMembers | utils/plugins_manager.py:25-29 | a name is discovered iff it is listed and ends in ".py" |
| Plugins.PluginFilesAppend | utils/plugins_manager.py:25-29 | discovery keeps listing order |
| Plugins.PluginManager.DiscoverPluginFiles | utils/plugins_manager.py:15-29 | the loop computes PluginFiles of the listing |
| Plugins.PluginName | utils/plugins_manager.py:85 | the file name without its last three characters |
| Plugins.PluginNameOfPy | utils/plugins_manager.py:85 | the plugin name of "name.py" is "name" |
| Plugins.Registered | utils/plugins_manager.py:61-73 | a new name is appended; an existing name keeps its position and gets the new functions; other entries are untouched; names stay unique |
| Plugins.RegisterExports | utils/plugins_manager.py:89-96 | a module lacking either function is skipped; names stay unique |
| Plugins.LoadedKeepsNamesUnique | utils/plugins_manager.py:75-96 | loading keeps the registry keyed by name |
| Plugins.LoadedKeepsNames | utils/plugins_manager.py:75-96 | loading never drops a registered name |
| Plugins.LoadedRegistersAll | utils/plugins_manager.py:75-96 | when every module loads and has both functions, loading completes and every file's plugin name is registered |
| Plugins.PluginManager.LoadPlugins | utils/plugins_manager.py:75-96 | the loop leaves the registry and outcome of Loaded: files in order, a load failure ends loading |
| Plugins.PluginManager.RegisterPlugin | utils/plugins_manager.py:61-73 | the registry becomes Registered of the old one |
| Plugins.FirstApplicableIndex | utils/plugins_manager.py:108-112 | the index found accepts the input and every earlier plugin rejects it; none is found iff every plugin rejects it |
| Plugins.PluginManager.FindApplicablePlugin | utils/plugins_manager.py:98-112 | the loop returns the plugin at FirstApplicableIndex, or nothing |
| Plugins.ProcessedInputDispatch | utils/plugins_manager.py:124-135 | with no applicable plugin the content is returned unchanged; otherwise it is the first applicable plugin's augmentation |
| Plugins.PluginManager.ProcessInput | utils/plugins_manager.py:114-135 | content must start with a text element; the result is ProcessedInput |
| ImageInput.AddedElements | plugins/image_input.py:36-62 | one image element: the path, width and height from encode_image, and a base64 image/jpeg source. Then one text element with the path if the path is non-empty. |
| ImageInput.AugmentedShape | plugins/image_input.py:15-23 | not an image path: unchanged; an image path that encode_image cannot read: its error; otherwise the original elements, then the image element, then the path as text (exactly two more) |
| ImageInput.PluginSpecificContentAugmenter | plugins/image_input.py:36-66 | when encode_image succeeds, extends the caller's list in place with AddedElements and returns the same list; when it fails, returns its error and leaves the list as it was |
| ImageInput.AugmentMessageContent | plugins/image_input.py:15-23 | raises exactly when Augmented does, with its error; otherwise the same list is returned, extended only when its first text is an image path |
| ImageInput.ImagePlugin | plugins/image_input.py:11-12 | the registered plugin's name is the one derived from "image_input.py" |
| ImageInput.ImagePluginDispatch | utils/messages.py:38-49 | with the image plugin registered, a readable image path becomes [text, image, text], an unreadable one raises encode_image's error, and any other text stays [text] |
| ChatLogs.TimestampOf | utils/chat_logs.py:27 | the message's own timestamp, or the time of saving when it has none |
| ChatLogs.MessageBlockShape | utils/chat_logs.py:24-33 | a message's block starts with "<Capitalized role> [<timestamp>]:\n"; ends with the unshortened text, a blank line, the '#' divider and a blank line |
| ChatLogs.TranscriptConcat | utils/chat_logs.py:23-33 | blocks follow conversation order: the file of a concatenation is the concatenation of the files |
| ChatLogs.TranscriptSanitized | utils/chat_logs.py:29 | the file does not depend on image metadata |
| ChatLogs.ConversationText | utils/chat_logs.py:22-33 | the loop builds TranscriptText; an empty conversation gives "" |
| ChatLogs.SaveConversationToTextFile | utils/chat_logs.py:6-40 | the file at join(directory, filename) is overwritten with the transcript; no other file changes |
| Strings.LinesAppend | utils/cost_manager.py:49-50 | after text ending in a complete line, appended text is read back as further lines, the earlier ones unchanged |
| Strings.SingleLine | utils/cost_manager.py:37 | text without "\n" followed by one "\n" is read back as exactly one line |
| Strings.BasenameShape | utils/context.py:19 | the base name has no '/', ends the path, and is the whole path or follows a '/' |
| Context.Wrapped | utils/context.py:19-22 | a block starts with '<' and ends with '>' |
| Context.ContextData | utils/context.py:5-24 | None without a directory or without .txt files. A ValueError naming the path if it is unreachable. Otherwise a text with no whitespace at either end. |
| Context.BuildContextData | utils/context.py:5-24 | the loop computes ContextData |
| Context.AccumulatedIsJoin | utils/context.py:17-22 | the accumulated text is the blocks joined by blank lines, plus a trailing blank line |
| Context.JoinedBlocksTight | utils/context.py:17-24 | the joined tagged blocks begin with '<' and end with '>', so the final strip leaves them alone |
| Context.ContextIsJoinedBlocks | utils/context.py:17-24 | the context is exactly "<name>\nstripped\n</name>" per file, in order, separated by one blank line |
| Costs.MalformedLineSkipped | utils/cost_manager.py:51-59 | a line that cannot be split into two fields adds nothing, without raising |
| Costs.LoggedLineReadsBack | utils/cost_manager.py:35-56 | a line written by log_call reads back as its cost when its timestamp is in the month, else 0 |
| Costs.MonthlyCostAppend | utils/cost_manager.py:46-60 | each line contributes independently: one more line adds its own share |
| Costs.LogThenMonthly | utils/cost_manager.py:28-60 | on a log whose last line is complete, the new record reads back as one more line; logging a call in the current month raises the monthly total by exactly its cost, and a call outside it leaves it unchanged |
| Costs.LogAfterUnterminatedLine | utils/cost_manager.py:36-37 | a record appended after a last line without "\n" is read back merged with it, as a single line |
| Costs.CostManager.constructor | utils/cost_manager.py:20-26 | the log is the existing file's text; an absent file starts empty |
| Costs.CostManager.LogCall | utils/cost_manager.py:28-37 | exactly "<timestamp>,<cost>\n" is appended to the text; earlier text is untouched and the log ends in a complete line |
| Costs.CostManager.GetMonthlyCost | utils/cost_manager.py:39-60 | the loop over the file's lines sums the costs of the well-formed lines in the month; an empty log gives 0 |
| Costs.ImageElementTokens | utils/cost_manager.py:93-99 | non-negative; zero for text, and for images without width or height |
| Costs.ImageTokens | utils/cost_manager.py:86-99 | image tokens are never negative |
| Costs.ApiCallCost | utils/cost_manager.py:63-119 | images are priced at the input-text rate; the total is the sum of the three components; every component and the total are non-negative |
| Costs.SanitizedImagesAreFree | utils/cost_manager.py:95-99 | a sanitized conversation's images cost no tokens |
| Costs.ImageCostExample | utils/cost_manager.py:98 | a 1500 × 750 image is 1500 tokens, 0.0045 USD |
| StartupCalls.Step | gui/call_when_started.py:8-28 | before startup append queues and runs nothing; after it, append runs at once and leaves the queue; execute at frame ≤ 1 or after startup changes nothing; otherwise it marks startup, runs the queue in order and empties it |
| StartupCalls.RunAccounted | gui/call_when_started.py:8-28 | at every point, the calls run so far followed by the queue are exactly the calls appended, in order; after startup the queue is empty |
| StartupCalls.StartupStaysDone | gui/call_when_started.py:19-22 | once startup is done it stays done |
| StartupCalls.AllCallsRunInOrder | gui/call_when_started.py:18-28 | after an execute past the first frame, every appended call has run exactly once, in append order, whether or not earlier ones raised |
| StartupCalls.CallWhenStarted.Append | gui/call_when_started.py:8-16 | the new state is Step of the old one on this append |
| StartupCalls.CallWhenStarted.Execute | gui/call_when_started.py:18-28 | the drain loop leaves the state Step gives for this execute |

## Left out

- The Dear PyGui windows, widgets, themes and layout. Nothing in them is part of the modelled logic.
- Threads, the conversation lock and the queue delivering replies to the GUI. The manager is modelled single-threaded.
- The Anthropic client call. Its result is a parameter (`getResponse`), with failures already turned into "Error: …" text (`AiProvider.ReplyText`). The mock mode of `get_claude_response` is not modelled.
- The cost logging done inside `get_claude_response` is not chained into `Messages.ProcessAssistantResponse`. `Costs.ApiCallCost`, `Costs.CostManager.LogCall` and `Costs.CostManager.GetMonthlyCost` are modelled on their own.
- PIL, numpy and base64. `encode_image` is a parameter returning the data and the size, or the error it raises. Only the size arithmetic of `resize_long_edge` and `get_thumb_size` is modelled.
- Strings.Lines: only "\n" ends a line. The other line endings of Python's universal-newline reading ("\r", "\r\n") are not modelled.
- StartupCalls.Step: a queued call that itself calls `append` while the queue is drained runs at once, in the middle of the drain, because STARTUP_DONE is already set. Events here are sequential, so such nesting is not modelled; a call that raises is caught and printed, so whether it raised does not change what runs.
- Float rounding.
  - Sizes are exact rational floors over naturals.
  - Costs and image tokens are exact reals; `str(float)` and `float(...)` are parameters.
  - Python int/float division differences are not reproduced.
- tiktoken. The token count is a parameter returning a natural number.
- The filesystem and the clock.
  - Listings, file contents, path validity, `datetime.now`/`utcnow` and `time.time()` are parameters.
  - `os.makedirs` and the "new file" print are not modelled.
  - One `now` value serves all messages of one save.
- Timestamps in the cost log are compared as integers. The TypeError Python raises when comparing naive and aware datetimes is not modelled.
- `print` output: the plugin load messages and the config warning about more than ten font sizes.
- Case mapping (`lower`, `capitalize`) is ASCII only. Unicode case folding is not modelled.
- Content that is a dict or a string rather than a list (the fallbacks of `extract_message_text`), content elements of other types, and messages without a `content` key. Content is always a list of text or image elements here.
- Messages.Shortened: shorten_len is a natural number. Python's slice with a negative length is not modelled.
- ImageInput.ImagePlugin: content that does not start with a text element is returned as it is. The Python plugin raises there, but `process_input` never passes such content.
- Plugins.PluginManager.constructor: it builds the empty registry. `__init__` then calls `load_plugins`, modelled separately as `LoadPlugins`.
- Plugins.PluginManager.LoadPlugins: the loader stands for `importlib`'s module loading; what happens inside it is not modelled.
- Images.GetThumbSize: a zero height is excluded, because Python raises ZeroDivisionError there.
- `terminal_chat.py` and the other entry points.
- The commented-out code kept in string literals (`process_image_input`, `process_image_input_gui`, `prepare_image_message`, `add_image_message`).
