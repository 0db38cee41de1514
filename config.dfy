/**
 * The application's configuration (config.py): the constants the core reads,
 * the input-field width formula, and the sanity checks run when the
 * configuration is loaded.
 */
module Config {
  import opened Base

  const THINKING_PLACEHOLDER: string := "[Thinking...]"
  const SHORTENED_MESSAGE_PLACEHOLDER: string := "... [click for full message]"
  const TEXT_LABEL_MAX_FONT: string := "Max!"
  const TEXT_LABEL_MIN_FONT: string := "Min!"

  const BUTTON_WIDTH: int := 80
  const PADDING: int := 20
  const IMG_THUMB_MAX_SIZE: nat := 100

  /** USD per million input (text and image) tokens and per million output tokens. */
  const INPUT_TEXT_COST_MTOK_USD: real := 3.0
  const OUTPUT_TEXT_COST_MTOK_USD: real := 15.0
  /** An image costs width * height / IMAGE_COST_DENOMINATOR tokens. */
  const IMAGE_COST_DENOMINATOR: nat := 750

  /** No context directory is configured in the shipped configuration. */
  const CONTEXT_TEXTS_DIR_PATH: Option<string> := None

  /** The numeric part of FONT_INFO. */
  datatype FontInfo = FontInfo(fontSize: int, maxFontSize: int, minFontSize: int, fontSizeStep: int)

  const FONT_INFO: FontInfo := FontInfo(32, 40, 20, 4)

  /** The width left for the input field next to the send button, and the button's width. */
  function CalculateInputFieldWidth(width: int): (r: (int, int))
    ensures r.1 == BUTTON_WIDTH
    ensures r.0 + r.1 + 2 * PADDING == width
  {
    (width - BUTTON_WIDTH - PADDING * 2, BUTTON_WIDTH)
  }

  /** Python's `a // b`: the quotient rounded toward negative infinity. */
  function FloorDiv(a: int, b: int): (q: int)
    requires b != 0
    ensures b > 0 ==> q * b <= a < q * b + b
    ensures b < 0 ==> q * b >= a > q * b + b
  {
    if b > 0 then a / b else (-a) / (-b)
  }

  /** Python's `a % b`: it has the sign of `b`. */
  function FloorMod(a: int, b: int): int
    requires b != 0
  {
    a - b * FloorDiv(a, b)
  }

  /** What loading the configuration raises. */
  datatype ConfigError =
    | ZeroDivision
    | StepDoesNotDivideRange
    | DefaultNotOnStep
    | ContextDirUnreachable(path: string)
    | NoContextFiles(path: string)

  /**
   * The font-size sanity checks: the step must divide both the min..max range and
   * default - min. On success, the number of font sizes.
   */
  function CheckFontSizes(info: FontInfo): (r: Result<int, ConfigError>)
    ensures r.Ok? <==> (info.fontSizeStep != 0
                        && FloorMod(info.maxFontSize - info.minFontSize, info.fontSizeStep) == 0
                        && FloorMod(info.fontSize - info.minFontSize, info.fontSizeStep) == 0)
    ensures r.Ok? && info.fontSizeStep > 0 ==>
              (r.value - 1) * info.fontSizeStep == info.maxFontSize - info.minFontSize
  {
    if info.fontSizeStep == 0 then Err(ZeroDivision)
    else if FloorMod(info.maxFontSize - info.minFontSize, info.fontSizeStep) != 0 then Err(StepDoesNotDivideRange)
    else if FloorMod(info.fontSize - info.minFontSize, info.fontSizeStep) != 0 then Err(DefaultNotOnStep)
    else Ok(FloorDiv(info.maxFontSize - info.minFontSize, info.fontSizeStep) + 1)
  }

  /** The shipped font settings pass both checks and give six sizes: 20, 24, ..., 40. */
  lemma ShippedFontSizesPass()
    ensures CheckFontSizes(FONT_INFO) == Ok(6)
  {
    assert FloorDiv(20, 4) == 5;
    assert FloorDiv(12, 4) == 3;
  }

  /**
   * The context-directory sanity check: when a directory is configured it must
   * exist and hold at least one .txt file.
   */
  function CheckContextDir(path: Option<string>, pathValid: bool, txtFileCount: nat): (r: Result<(), ConfigError>)
    ensures path.None? ==> r.Ok?
    ensures r.Ok? <==> path.None? || (pathValid && txtFileCount > 0)
  {
    match path
    case None => Ok(())
    case Some(p) =>
      if !pathValid then Err(ContextDirUnreachable(p))
      else if txtFileCount == 0 then Err(NoContextFiles(p))
      else Ok(())
  }
}
