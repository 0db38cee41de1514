/**
 * The image plugin (plugins/image_input.py): when the user's text is the path
 * of an image file, the message content list is extended in place with the
 * encoded image and with the path as text.
 */
module ImageInput {
  import opened Base
  import opened Strings
  import opened Images
  import opened Content
  import opened Plugins

  /**
   * `encode_image`: a path to its base64 JPEG data and the (width, height) after
   * resizing, or the message of what opening or encoding the file raised (an
   * existing path that is not a decodable image).
   */
  type Encoder = string -> Result<(string, (int, int)), string>

  /** `is_plugin_applicable`: the user's text names an image file. */
  predicate IsPluginApplicable(userInput: string, isValidPath: string -> bool)
  {
    IsImagePath(userInput, isValidPath)
  }

  /**
   * What `plugin_specific_content_augmenter` adds after the existing elements for
   * an encoded image: the image element (path, size, base64 JPEG source) and,
   * when the path text is not empty, a text element holding the path.
   */
  function AddedElements(imagePath: string, encoded: (string, (int, int))): (r: seq<ContentElement>)
    ensures |r| == (if imagePath == "" then 1 else 2)
    ensures r[0].Image? && r[0].path == Some(imagePath)
    ensures r[0].width == Some(encoded.1.0) && r[0].height == Some(encoded.1.1)
    ensures r[0].source == ImageSource("base64", "image/jpeg", encoded.0)
    ensures |r| == 2 ==> r[1] == Text(imagePath)
  {
    var (data, size) := encoded;
    var image := Image(Some(imagePath), Some(size.0), Some(size.1), ImageSource("base64", "image/jpeg", data));
    [image] + (if imagePath != "" then [Text(imagePath)] else [])
  }

  /**
   * `augment_message_content` on the list's contents: unchanged when the text is
   * not an image path, the encoder's exception when encoding fails, otherwise the
   * added elements after the existing ones.
   */
  function Augmented(content: seq<ContentElement>, encode: Encoder, isValidPath: string -> bool)
    : Result<seq<ContentElement>, string>
    requires content != [] && content[0].Text?
  {
    if !IsPluginApplicable(content[0].text, isValidPath) then Ok(content)
    else
      match encode(content[0].text)
      case Err(e) => Err(e)
      case Ok(encoded) => Ok(content + AddedElements(content[0].text, encoded))
  }

  /**
   * Not applicable: the content is left alone. Applicable but not encodable: the
   * encoder's exception. Applicable and encoded: the original elements stay in
   * front, followed by exactly one image element for the path and one text
   * element repeating the path.
   */
  lemma AugmentedShape(content: seq<ContentElement>, encode: Encoder, isValidPath: string -> bool)
    requires content != [] && content[0].Text?
    ensures !IsImagePath(content[0].text, isValidPath) ==> Augmented(content, encode, isValidPath) == Ok(content)
    ensures IsImagePath(content[0].text, isValidPath) && encode(content[0].text).Err? ==>
              Augmented(content, encode, isValidPath) == Err(encode(content[0].text).error)
    ensures IsImagePath(content[0].text, isValidPath) && encode(content[0].text).Ok? ==>
              Augmented(content, encode, isValidPath).Ok? &&
              var r := Augmented(content, encode, isValidPath).value;
              && |r| == |content| + 2
              && r[..|content|] == content
              && r[|content|].Image? && r[|content|].path == Some(content[0].text)
              && r[|content| + 1] == Text(content[0].text)
  {
    if IsImagePath(content[0].text, isValidPath) && encode(content[0].text).Ok? {
      ImagePathLength(content[0].text, isValidPath);
      var r := Augmented(content, encode, isValidPath).value;
      assert r[..|content|] == content;
    }
  }

  /**
   * `plugin_specific_content_augmenter`: the image is encoded first, so a failing
   * encoder leaves the caller's list as it was; otherwise the list is extended in
   * place and the same list is returned.
   */
  method PluginSpecificContentAugmenter(messageContent: ListRef<ContentElement>, encode: Encoder)
    returns (r: Result<ListRef<ContentElement>, string>)
    requires messageContent.items != [] && messageContent.items[0].Text?
    modifies messageContent
    ensures var encoded := encode(old(messageContent.items[0].text));
            encoded.Err? ==> r == Err(encoded.error) && messageContent.items == old(messageContent.items)
    ensures var encoded := encode(old(messageContent.items[0].text));
            encoded.Ok? ==> r == Ok(messageContent)
                            && messageContent.items
                               == old(messageContent.items) + AddedElements(old(messageContent.items[0].text), encoded.value)
  {
    var imagePath := messageContent.items[0].text;
    var encoded := encode(imagePath);
    if encoded.Err? {
      return Err(encoded.error);
    }
    var (data, size) := encoded.value;
    var content := [Image(Some(imagePath), Some(size.0), Some(size.1), ImageSource("base64", "image/jpeg", data))];
    if imagePath != "" {
      content := content + [Text(imagePath)];
    }
    messageContent.items := messageContent.items + content;
    r := Ok(messageContent);
  }

  /** `augment_message_content`: the list is extended only when its first text names an encodable image. */
  method AugmentMessageContent(
    messageContent: ListRef<ContentElement>, encode: Encoder, isValidPath: string -> bool)
    returns (r: Result<ListRef<ContentElement>, string>)
    requires messageContent.items != [] && messageContent.items[0].Text?
    modifies messageContent
    ensures r.Err? <==> Augmented(old(messageContent.items), encode, isValidPath).Err?
    ensures r.Err? ==> r.error == Augmented(old(messageContent.items), encode, isValidPath).error
                       && messageContent.items == old(messageContent.items)
    ensures r.Ok? ==> r.value == messageContent
                      && messageContent.items == Augmented(old(messageContent.items), encode, isValidPath).value
  {
    r := Ok(messageContent);
    if IsPluginApplicable(messageContent.items[0].text, isValidPath) {
      r := PluginSpecificContentAugmenter(messageContent, encode);
    }
  }

  /**
   * The plugin as the registry holds it, loaded from "image_input.py". Content
   * that does not start with a text element is returned as it is.
   */
  function ImagePlugin(encode: Encoder, isValidPath: string -> bool): (p: Plugin)
    ensures p.name == PluginName("image_input.py")
  {
    PluginNameOfPy("image_input");
    Plugin(
      "image_input",
      (u: string) => IsPluginApplicable(u, isValidPath),
      (c: seq<ContentElement>) => if c != [] && c[0].Text? then Augmented(c, encode, isValidPath) else Ok(c))
  }

  /**
   * With the image plugin as the only plugin, a text that names an encodable
   * image becomes the text, the image and the text again; a text that names a
   * path the encoder cannot read raises; any other text stays a single element.
   */
  lemma ImagePluginDispatch(encode: Encoder, isValidPath: string -> bool, userInput: string)
    ensures IsImagePath(userInput, isValidPath) && encode(userInput).Ok? ==>
              ProcessedInput([ImagePlugin(encode, isValidPath)], [Text(userInput)])
              == Ok([Text(userInput)] + AddedElements(userInput, encode(userInput).value))
    ensures IsImagePath(userInput, isValidPath) && encode(userInput).Ok? ==>
              |ProcessedInput([ImagePlugin(encode, isValidPath)], [Text(userInput)]).value| == 3
    ensures IsImagePath(userInput, isValidPath) && encode(userInput).Err? ==>
              ProcessedInput([ImagePlugin(encode, isValidPath)], [Text(userInput)]) == Err(encode(userInput).error)
    ensures !IsImagePath(userInput, isValidPath) ==>
              ProcessedInput([ImagePlugin(encode, isValidPath)], [Text(userInput)]) == Ok([Text(userInput)])
  {
    var plugins := [ImagePlugin(encode, isValidPath)];
    ProcessedInputDispatch(plugins, [Text(userInput)]);
    if IsImagePath(userInput, isValidPath) {
      ImagePathLength(userInput, isValidPath);
    }
  }
}
