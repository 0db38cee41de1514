/**
 * The context document injected into the first message of a conversation
 * (utils/context.py): every .txt file under the configured directory, each
 * wrapped in `<name>` ... `</name>` tags.
 */
module Context {
  import opened Base
  import opened Strings

  /** A .txt file found under the context directory: its path and what reading it gives. */
  datatype TextFile = TextFile(path: string, contents: string)

  /**
   * What `build_context_data` learns from configuration and filesystem: the
   * configured directory (CONTEXT_TEXTS_DIR_PATH), whether that path is valid,
   * and the .txt files found under it, in walk order.
   */
  datatype Environment = Environment(dirPath: Option<string>, dirValid: bool, txtFiles: seq<TextFile>)

  /** One file's contents wrapped in tags named after the file's base name. */
  function Wrapped(f: TextFile): (r: string)
    ensures r != [] && r[0] == '<' && r[|r| - 1] == '>'
  {
    var name := Basename(f.path);
    "<" + name + ">\n" + Strip(f.contents) + "\n</" + name + ">"
  }

  /** What one file adds to the accumulated context: its wrapped block and a blank line. */
  function Block(f: TextFile): string
  {
    Wrapped(f) + "\n\n"
  }

  /** The accumulated context text before the final strip. */
  function Accumulated(files: seq<TextFile>): string
  {
    ConcatMap(files, Block)
  }

  /** Each file's wrapped block, in file order. */
  function WrappedBlocks(files: seq<TextFile>): seq<string>
  {
    MapStrings(files, Wrapped)
  }

  /**
   * `build_context_data`: no context when no directory is configured or no .txt
   * file is found; a ValueError (here `Err`) when the configured directory is
   * not reachable; otherwise the stripped accumulated blocks.
   */
  function ContextData(env: Environment): (r: Result<Option<string>, string>)
    ensures env.dirPath.None? ==> r == Ok(None)
    ensures r.Err? <==> env.dirPath.Some? && !env.dirValid
    ensures r.Err? ==> r.error == "Can't access the dir path " + env.dirPath.value
    ensures r == Ok(None) <==> env.dirPath.None? || (env.dirValid && env.txtFiles == [])
    ensures r.Ok? && r.value.Some? ==> TightEdges(r.value.value)
  {
    StripShape(Accumulated(env.txtFiles));
    match env.dirPath
    case None => Ok(None)
    case Some(p) =>
      if !env.dirValid then Err("Can't access the dir path " + p)
      else if env.txtFiles == [] then Ok(None)
      else Ok(Some(Strip(Accumulated(env.txtFiles))))
  }

  /** The loop of `build_context_data`, accumulating one block per file. */
  method BuildContextData(env: Environment) returns (r: Result<Option<string>, string>)
    ensures r == ContextData(env)
  {
    if env.dirPath.None? {
      return Ok(None);
    }
    if !env.dirValid {
      return Err("Can't access the dir path " + env.dirPath.value);
    }
    var files := env.txtFiles;
    if |files| == 0 {
      return Ok(None);
    }
    var contextData := "";
    var i := 0;
    while i < |files|
      invariant 0 <= i <= |files|
      invariant contextData == Accumulated(files[..i])
    {
      assert files[..i + 1] == files[..i] + [files[i]];
      ConcatMapSnoc(files[..i], files[i], Block);
      contextData := contextData + Block(files[i]);
      i := i + 1;
    }
    assert files[..|files|] == files;
    return Ok(Some(Strip(contextData)));
  }

  /** Tagged blocks joined by blank lines start with '<' and end with '>'. */
  lemma JoinedBlocksTight(files: seq<TextFile>)
    requires files != []
    ensures TightEdges(Join("\n\n", WrappedBlocks(files)))
  {
    var blocks := WrappedBlocks(files);
    var first, last := Wrapped(files[0]), Wrapped(files[|files| - 1]);
    assert blocks[0] == first && blocks[|blocks| - 1] == last;
    assert first[0] == '<' && last[|last| - 1] == '>';
    JoinFirst("\n\n", blocks);
    JoinLast("\n\n", blocks);
  }

  /** The accumulated text is the blocks joined by blank lines, plus one trailing blank line. */
  lemma AccumulatedIsJoin(files: seq<TextFile>)
    requires files != []
    ensures Accumulated(files) == Join("\n\n", WrappedBlocks(files)) + "\n\n"
  {
    assert forall f :: Block(f) == Wrapped(f) + "\n\n";
    ConcatMapIsJoin(files, Wrapped, Block, "\n\n");
  }

  /**
   * With a reachable directory holding .txt files, the context is exactly each
   * file's tagged block, in order, separated by one blank line.
   */
  lemma ContextIsJoinedBlocks(env: Environment)
    requires env.dirPath.Some? && env.dirValid && env.txtFiles != []
    ensures ContextData(env) == Ok(Some(Join("\n\n", WrappedBlocks(env.txtFiles))))
  {
    var j := Join("\n\n", WrappedBlocks(env.txtFiles));
    AccumulatedIsJoin(env.txtFiles);
    JoinedBlocksTight(env.txtFiles);
    StripTrailing(j, "\n\n");
  }
}
