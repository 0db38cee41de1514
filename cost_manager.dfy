/**
 * API cost accounting (utils/cost_manager.py): the cost log file (text to which
 * one "<timestamp>,<cost>" line is appended per call), the month-to-date total
 * read back from its lines, and the per-call cost formula. Amounts and token counts are exact reals.
 */
module Costs {
  import opened Base
  import opened Strings
  import opened Config
  import opened Content
  import opened Messages

  /** The line `log_call` writes. */
  function LogLine(timestamp: string, costText: string): string
  {
    timestamp + "," + costText + "\n"
  }

  /**
   * What one log line adds to the monthly total: it must strip and split on ','
   * into exactly two fields, the first must parse as a timestamp and the second
   * as a number, and the timestamp must not be before the month's start; any
   * other line adds nothing.
   */
  function LineCost(
    line: string, monthStart: int,
    parseTimestamp: string -> Option<int>, parseCost: string -> Option<real>): real
  {
    var fields := Split(Strip(line), ',');
    if |fields| != 2 then 0.0
    else
      match (parseTimestamp(fields[0]), parseCost(fields[1]))
      case (Some(t), Some(c)) => if t >= monthStart then c else 0.0
      case _ => 0.0
  }

  /** `get_monthly_cost` over the log's lines. */
  function MonthlyCost(
    lines: seq<string>, monthStart: int,
    parseTimestamp: string -> Option<int>, parseCost: string -> Option<real>): real
  {
    if lines == [] then 0.0
    else MonthlyCost(lines[..|lines| - 1], monthStart, parseTimestamp, parseCost)
         + LineCost(lines[|lines| - 1], monthStart, parseTimestamp, parseCost)
  }

  /** A line without a comma cannot be split into two fields and is skipped. */
  lemma MalformedLineSkipped(
    line: string, monthStart: int,
    parseTimestamp: string -> Option<int>, parseCost: string -> Option<real>)
    requires ',' !in line
    ensures LineCost(line, monthStart, parseTimestamp, parseCost) == 0.0
  {
    StripShape(line);
    var i, j :| 0 <= i <= j <= |line| && Strip(line) == line[i..j];
    assert forall c :: c in line[i..j] ==> c in line;
    SplitNone(Strip(line), ',');
  }

  /**
   * A logged line reads back as what was logged: its cost counts exactly when its
   * timestamp is in the month. The timestamp and the cost text must not contain
   * ',' nor start or end with whitespace, and must parse.
   */
  lemma LoggedLineReadsBack(
    timestamp: string, costText: string, monthStart: int,
    parseTimestamp: string -> Option<int>, parseCost: string -> Option<real>)
    requires timestamp != [] && costText != []
    requires ',' !in timestamp && ',' !in costText
    requires !IsSpace(timestamp[0]) && !IsSpace(costText[|costText| - 1])
    requires parseTimestamp(timestamp).Some? && parseCost(costText).Some?
    ensures LineCost(LogLine(timestamp, costText), monthStart, parseTimestamp, parseCost)
            == if parseTimestamp(timestamp).value >= monthStart then parseCost(costText).value else 0.0
  {
    var body := timestamp + "," + costText;
    assert LogLine(timestamp, costText) == body + "\n";
    assert body[0] == timestamp[0] && body[|body| - 1] == costText[|costText| - 1];
    StripTrailing(body, "\n");
    assert body == timestamp + [','] + costText;
    SplitAt(timestamp, ',', costText);
    SplitNone(costText, ',');
  }

  /** The total over a longer log is the total over the shorter one plus the new line's share. */
  lemma MonthlyCostAppend(
    lines: seq<string>, line: string, monthStart: int,
    parseTimestamp: string -> Option<int>, parseCost: string -> Option<real>)
    ensures MonthlyCost(lines + [line], monthStart, parseTimestamp, parseCost)
            == MonthlyCost(lines, monthStart, parseTimestamp, parseCost)
               + LineCost(line, monthStart, parseTimestamp, parseCost)
  {
    assert (lines + [line])[..|lines|] == lines;
  }

  /** The cost log file, as the text it holds. */
  class CostManager {
    var log: string

    /** The log file is created empty when it does not exist yet; an existing file is kept as it is. */
    constructor (existing: Option<string>)
      ensures existing.None? ==> log == []
      ensures existing.Some? ==> log == existing.value
    {
      log := if existing.None? then [] else existing.value;
    }

    /**
     * `log_call`: appends one record to the file; `timestamp` is the ISO time of
     * the call and `formatCost` Python's `str` of a float. Afterwards the file
     * ends with a complete line.
     */
    method LogCall(cost: real, timestamp: string, formatCost: real -> string)
      modifies this
      ensures log == old(log) + LogLine(timestamp, formatCost(cost))
      ensures Terminated(log)
    {
      log := log + (timestamp + "," + formatCost(cost) + "\n");
    }

    /** `get_monthly_cost`: the loop over the lines of the file. */
    method GetMonthlyCost(monthStart: int, parseTimestamp: string -> Option<int>, parseCost: string -> Option<real>)
      returns (totalCost: real)
      ensures totalCost == MonthlyCost(Lines(log), monthStart, parseTimestamp, parseCost)
    {
      var lines := Lines(log);
      totalCost := 0.0;
      var i := 0;
      while i < |lines|
        invariant 0 <= i <= |lines|
        invariant totalCost == MonthlyCost(lines[..i], monthStart, parseTimestamp, parseCost)
      {
        assert lines[..i + 1][..i] == lines[..i];
        var fields := Split(Strip(lines[i]), ',');
        if |fields| == 2 {
          var timestamp := parseTimestamp(fields[0]);
          var cost := parseCost(fields[1]);
          if timestamp.Some? && cost.Some? && timestamp.value >= monthStart {
            totalCost := totalCost + cost.value;
          }
        }
        i := i + 1;
      }
      assert lines[..|lines|] == lines;
    }
  }

  /**
   * Logging a call and reading the month back: when the file ended with a
   * complete line, the record is a line of its own, and the total grows by the
   * logged cost when the call falls in the month, provided the cost's text
   * parses back to the cost.
   */
  lemma LogThenMonthly(
    log: string, cost: real, timestamp: string, formatCost: real -> string, monthStart: int,
    parseTimestamp: string -> Option<int>, parseCost: string -> Option<real>)
    requires Terminated(log)
    requires timestamp != [] && ',' !in timestamp && '\n' !in timestamp && !IsSpace(timestamp[0])
    requires formatCost(cost) != [] && ',' !in formatCost(cost) && '\n' !in formatCost(cost)
    requires !IsSpace(formatCost(cost)[|formatCost(cost)| - 1])
    requires parseTimestamp(timestamp).Some? && parseCost(formatCost(cost)) == Some(cost)
    ensures Lines(log + LogLine(timestamp, formatCost(cost))) == Lines(log) + [LogLine(timestamp, formatCost(cost))]
    ensures MonthlyCost(Lines(log + LogLine(timestamp, formatCost(cost))), monthStart, parseTimestamp, parseCost)
            == MonthlyCost(Lines(log), monthStart, parseTimestamp, parseCost)
               + if parseTimestamp(timestamp).value >= monthStart then cost else 0.0
  {
    var line := LogLine(timestamp, formatCost(cost));
    var body := timestamp + "," + formatCost(cost);
    assert line == body + "\n";
    assert '\n' !in body;
    SingleLine(body);
    LinesAppend(log, line);
    MonthlyCostAppend(Lines(log), line, monthStart, parseTimestamp, parseCost);
    LoggedLineReadsBack(timestamp, formatCost(cost), monthStart, parseTimestamp, parseCost);
  }

  /**
   * When the file does not end with a complete line (an existing file written by
   * something else), the next record continues that line instead of starting
   * its own: the reader sees one merged line.
   */
  lemma LogAfterUnterminatedLine(last: string, timestamp: string, costText: string)
    requires last != [] && '\n' !in last && '\n' !in timestamp && '\n' !in costText
    ensures Lines(last + LogLine(timestamp, costText)) == [last + LogLine(timestamp, costText)]
  {
    var merged := last + (timestamp + "," + costText);
    assert last + LogLine(timestamp, costText) == merged + "\n";
    assert '\n' !in merged;
    SingleLine(merged);
  }

  // ---------------------------------------------------------------------------
  // The cost of one call

  /** The dictionary `calculate_api_call_cost` returns. */
  datatype CostBreakdown = CostBreakdown(
    inputTextTokens: nat, inputImageTokens: real, outputTextTokens: nat,
    inputTextCostUsd: real, inputImageCostUsd: real, outputTextCostUsd: real, totalCostUsd: real)

  /** The tokens an image element is charged: width * height / 750 when both are positive (missing counts as 0). */
  function ImageElementTokens(e: ContentElement): (r: real)
    ensures r >= 0.0
    ensures !e.Image? || e.width.None? || e.height.None? ==> r == 0.0
  {
    match e
    case Text(_) => 0.0
    case Image(_, width, height, _) =>
      var w := if width.Some? then width.value else 0;
      var h := if height.Some? then height.value else 0;
      if w > 0 && h > 0 then (w * h) as real / IMAGE_COST_DENOMINATOR as real else 0.0
  }

  /** The tokenizer's count for the text elements of a content list. */
  function ContentTextTokens(content: seq<ContentElement>, countTokens: string -> nat): nat
  {
    if content == [] then 0
    else
      var e := content[|content| - 1];
      ContentTextTokens(content[..|content| - 1], countTokens) + (if e.Text? then countTokens(e.text) else 0)
  }

  function ContentImageTokens(content: seq<ContentElement>): (r: real)
    ensures r >= 0.0
  {
    if content == [] then 0.0
    else ContentImageTokens(content[..|content| - 1]) + ImageElementTokens(content[|content| - 1])
  }

  function TextTokens(conversation: seq<Message>, countTokens: string -> nat): nat
  {
    if conversation == [] then 0
    else TextTokens(conversation[..|conversation| - 1], countTokens)
         + ContentTextTokens(conversation[|conversation| - 1].content, countTokens)
  }

  function ImageTokens(conversation: seq<Message>): (r: real)
    ensures r >= 0.0
  {
    if conversation == [] then 0.0
    else ImageTokens(conversation[..|conversation| - 1]) + ContentImageTokens(conversation[|conversation| - 1].content)
  }

  /**
   * `calculate_api_call_cost`: text and image input are priced at the input
   * rate, the reply at the output rate, all per million tokens.
   */
  function ApiCallCost(conversation: seq<Message>, assistantMessage: string, countTokens: string -> nat)
    : (r: CostBreakdown)
    ensures r.inputTextTokens == TextTokens(conversation, countTokens)
    ensures r.inputImageTokens == ImageTokens(conversation)
    ensures r.outputTextTokens == countTokens(assistantMessage)
    ensures r.inputImageCostUsd == r.inputImageTokens / 1000000.0 * INPUT_TEXT_COST_MTOK_USD
    ensures r.totalCostUsd == r.inputTextCostUsd + r.inputImageCostUsd + r.outputTextCostUsd
    ensures r.inputTextCostUsd >= 0.0 && r.inputImageCostUsd >= 0.0 && r.outputTextCostUsd >= 0.0
    ensures r.totalCostUsd >= 0.0
  {
    var inputTextTokens := TextTokens(conversation, countTokens);
    var inputImageTokens := ImageTokens(conversation);
    var outputTextTokens := countTokens(assistantMessage);
    var inputTextCost := (inputTextTokens as real / 1000000.0) * INPUT_TEXT_COST_MTOK_USD;
    var inputImageCost := (inputImageTokens / 1000000.0) * INPUT_TEXT_COST_MTOK_USD;
    var outputTextCost := (outputTextTokens as real / 1000000.0) * OUTPUT_TEXT_COST_MTOK_USD;
    CostBreakdown(
      inputTextTokens, inputImageTokens, outputTextTokens,
      inputTextCost, inputImageCost, outputTextCost, inputTextCost + inputImageCost + outputTextCost)
  }

  /** A sanitized conversation has no image sizes left, so its images cost nothing. */
  lemma {:induction false} SanitizedImagesAreFree(conversation: seq<Message>)
    ensures ImageTokens(Sanitize(conversation)) == 0.0
    decreases |conversation|
  {
    if conversation != [] {
      var n := |conversation|;
      assert Sanitize(conversation)[..n - 1] == Sanitize(conversation[..n - 1]);
      SanitizedImagesAreFree(conversation[..n - 1]);
      SanitizedContentIsFree(conversation[n - 1].content);
    }
  }

  lemma {:induction false} SanitizedContentIsFree(content: seq<ContentElement>)
    ensures ContentImageTokens(SanitizeContent(content)) == 0.0
    decreases |content|
  {
    if content != [] {
      var n := |content|;
      assert SanitizeContent(content)[..n - 1] == SanitizeContent(content[..n - 1]);
      SanitizedContentIsFree(content[..n - 1]);
    }
  }

  /** A 1500 x 750 image is 1500 tokens, which cost 0.0045 USD at the input rate. */
  lemma ImageCostExample(source: ImageSource, assistantMessage: string, countTokens: string -> nat)
    ensures var conversation := [Message("user", [Image(None, Some(1500), Some(750), source)], None)];
            ImageTokens(conversation) == 1500.0
            && ApiCallCost(conversation, assistantMessage, countTokens).inputImageCostUsd == 0.0045
  {
    var e := Image(None, Some(1500), Some(750), source);
    assert ImageElementTokens(e) == 1500.0;
    assert [e][..0] == [];
    assert ContentImageTokens([e]) == 1500.0;
    var conversation := [Message("user", [e], None)];
    assert conversation[..0] == [];
  }
}
