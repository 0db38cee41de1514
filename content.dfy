/**
 * The message structures the chat client passes around (the dictionaries of
 * utils/messages.py, plugins/image_input.py and utils/conversation_manager.py):
 * content elements, messages and conversations.
 */
module Content {
  import opened Base

  /** The `source` dictionary of an image element: `type`, `media_type`, `data`. */
  datatype ImageSource = ImageSource(kind: string, mediaType: string, data: string)

  /**
   * One element of a message's content list. An image element carries its local
   * `path` and its `width`/`height` only until the conversation is sanitized.
   */
  datatype ContentElement =
    | Text(text: string)
    | Image(path: Option<string>, width: Option<int>, height: Option<int>, source: ImageSource)

  /** A message: its role ("user", "assistant", ...), its content list and an optional timestamp. */
  datatype Message = Message(role: string, content: seq<ContentElement>, timestamp: Option<int>)
}
