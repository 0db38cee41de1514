/**
 * The font-size controls (gui/font_manager.py): the sizes a font is created for,
 * and the increase/decrease buttons that step the current size and clamp it to
 * the configured range.
 */
module Fonts {
  import opened Config

  /** Python's `range(start, stop, step)`. */
  function Range(start: int, stop: int, step: int): (r: seq<int>)
    requires step != 0
    decreases if step > 0 then stop - start else start - stop
  {
    if (step > 0 && start < stop) || (step < 0 && start > stop) then [start] + Range(start + step, stop, step)
    else []
  }

  /** A multiple of a positive step leaves no remainder, and its quotient is the multiplier. */
  lemma MultipleOfStep(a: int, k: int, step: int)
    requires step > 0 && a == k * step
    ensures a % step == 0 && a / step == k
  {
    var q, r := a / step, a % step;
    assert a == q * step + r && 0 <= r < step;
    assert (k - q) * step == r;
    if k - q >= 1 {
      assert false;
    } else if k - q <= -1 {
      assert false;
    }
  }

  /** No remainder means a whole number of steps. */
  lemma StepMultiple(a: int, step: int)
    requires step > 0 && a % step == 0
    ensures a == (a / step) * step
  {
  }

  /** The difference of two values on the grid is on the grid. */
  lemma GridDifference(a: int, b: int, step: int)
    requires step > 0 && a % step == 0 && b % step == 0
    ensures (a - b) % step == 0
  {
    StepMultiple(a, step);
    StepMultiple(b, step);
    assert a - b == (a / step - b / step) * step;
    MultipleOfStep(a - b, a / step - b / step, step);
  }

  /** A positive value on the grid is at least one step. */
  lemma GridPositive(a: int, step: int)
    requires step > 0 && a % step == 0 && a > 0
    ensures a >= step
  {
    StepMultiple(a, step);
    var q := a / step;
    if q <= 0 {
      assert false;
    }
    assert q * step >= step;
  }

  /** Adding or removing one step keeps a value on the grid of its start. */
  lemma GridShift(a: int, step: int)
    requires step > 0
    ensures a % step == 0 <==> (a - step) % step == 0
  {
    if a % step == 0 {
      StepMultiple(a, step);
      MultipleOfStep(a - step, a / step - 1, step);
    }
    if (a - step) % step == 0 {
      StepMultiple(a - step, step);
      MultipleOfStep(a, (a - step) / step + 1, step);
    }
  }

  /** An upward range holds exactly the values from start below stop on the step grid. */
  lemma {:induction false} RangeMembers(start: int, stop: int, step: int, x: int)
    requires step > 0
    ensures x in Range(start, stop, step) <==> start <= x < stop && (x - start) % step == 0
    decreases stop - start
  {
    if start < stop {
      RangeMembers(start + step, stop, step, x);
      GridShift(x - start, step);
      assert x - (start + step) == x - start - step;
      if start < x < start + step {
        assert (x - start) % step == x - start by {
          MultipleOfStep(0, 0, step);
          assert x - start == 0 * step + (x - start);
        }
      }
    }
  }

  /** An upward range has one element per step: the ceiling of (stop - start) / step. */
  lemma {:induction false} RangeLength(start: int, stop: int, step: int, n: nat)
    requires step > 0 && stop - start == n * step
    ensures |Range(start, stop, step)| == n
    decreases n
  {
    if n > 0 {
      RangeLength(start + step, stop, step, n - 1);
    }
  }

  /** The sizes `create_fonts` registers a font for. */
  function FontSizes(info: FontInfo): seq<int>
    requires info.fontSizeStep != 0
  {
    Range(info.minFontSize, info.maxFontSize + 1, info.fontSizeStep)
  }

  /** A size between min and max that is min plus a whole number of steps. */
  predicate OnGrid(info: FontInfo, size: int)
    requires info.fontSizeStep > 0
  {
    info.minFontSize <= size <= info.maxFontSize && (size - info.minFontSize) % info.fontSizeStep == 0
  }

  /** A font exists for a size exactly when the size is on the grid. */
  lemma FontExistsIffOnGrid(info: FontInfo, size: int)
    requires info.fontSizeStep > 0
    ensures size in FontSizes(info) <==> OnGrid(info, size)
  {
    RangeMembers(info.minFontSize, info.maxFontSize + 1, info.fontSizeStep, size);
  }

  /** An upward range whose stop lies in (start + (n-1)*step, start + n*step] has n values. */
  lemma {:induction false} RangeCount(start: int, stop: int, step: int, n: nat)
    requires step > 0
    requires start + (n - 1) * step < stop <= start + n * step
    ensures |Range(start, stop, step)| == n
    decreases n
  {
    if n > 0 {
      assert (n - 1) * step >= 0;
      assert (start + step) + (n - 2) * step == start + (n - 1) * step;
      assert (start + step) + (n - 1) * step == start + n * step;
      RangeCount(start + step, stop, step, n - 1);
    }
  }

  /** When the configuration checks pass, create_fonts makes `number_of_sizes` fonts. */
  lemma FontCountMatchesConfig(info: FontInfo)
    requires info.fontSizeStep > 0 && info.minFontSize <= info.maxFontSize
    requires CheckFontSizes(info).Ok?
    ensures |FontSizes(info)| == CheckFontSizes(info).value
  {
    var n := CheckFontSizes(info).value;
    var step := info.fontSizeStep;
    assert (n - 1) * step == info.maxFontSize - info.minFontSize;
    assert n >= 1;
    assert info.minFontSize + n * step == info.maxFontSize + step;
    RangeCount(info.minFontSize, info.maxFontSize + 1, step, n);
  }

  /** The shipped settings create fonts for 20, 24, 28, 32, 36 and 40. */
  lemma ShippedFontSizes()
    ensures FontSizes(FONT_INFO) == [20, 24, 28, 32, 36, 40]
  {
    assert Range(44, 41, 4) == [];
  }

  /** The size and the message text after one click of a font button. */
  datatype FontStep = FontStep(size: int, text: string)

  /** What `increase_font_size` does to the size and to the message text. */
  function Increased(info: FontInfo, size: int): (r: FontStep)
    ensures size >= info.maxFontSize ==> r == FontStep(size, TEXT_LABEL_MAX_FONT)
    ensures size < info.maxFontSize && info.fontSizeStep > 0 ==> size < r.size <= info.maxFontSize
    ensures size < info.maxFontSize ==>
              (r.text == "Max font" <==> size + info.fontSizeStep > info.maxFontSize)
              && (r.text == "" <==> size + info.fontSizeStep <= info.maxFontSize)
  {
    if size < info.maxFontSize then
      var bigger := size + info.fontSizeStep;
      if bigger > info.maxFontSize then FontStep(info.maxFontSize, "Max font") else FontStep(bigger, "")
    else
      FontStep(size, TEXT_LABEL_MAX_FONT)
  }

  /** What `decrease_font_size` does to the size and to the message text. */
  function Decreased(info: FontInfo, size: int): (r: FontStep)
    ensures size <= info.minFontSize ==> r == FontStep(size, TEXT_LABEL_MIN_FONT)
    ensures size > info.minFontSize && info.fontSizeStep > 0 ==> info.minFontSize <= r.size < size
    ensures size > info.minFontSize ==>
              (r.text == "Min font" <==> size - info.fontSizeStep < info.minFontSize)
              && (r.text == "" <==> size - info.fontSizeStep >= info.minFontSize)
  {
    if size > info.minFontSize then
      var smaller := size - info.fontSizeStep;
      if smaller < info.minFontSize then FontStep(info.minFontSize, "Min font") else FontStep(smaller, "")
    else
      FontStep(size, TEXT_LABEL_MIN_FONT)
  }

  datatype Click = IncreaseClick | DecreaseClick

  function Clicked(info: FontInfo, size: int, c: Click): FontStep
  {
    match c
    case IncreaseClick => Increased(info, size)
    case DecreaseClick => Decreased(info, size)
  }

  /** The size after a sequence of clicks, in order. */
  function AfterClicks(info: FontInfo, size: int, clicks: seq<Click>): int
    decreases |clicks|
  {
    if clicks == [] then size else AfterClicks(info, Clicked(info, size, clicks[0]).size, clicks[1..])
  }

  /** One click keeps a size that lies in [min, max] inside [min, max]. */
  lemma ClickStaysInBounds(info: FontInfo, size: int, c: Click)
    requires info.fontSizeStep > 0
    requires info.minFontSize <= size <= info.maxFontSize
    ensures info.minFontSize <= Clicked(info, size, c).size <= info.maxFontSize
  {
  }

  /** Any sequence of clicks keeps a size that starts in [min, max] inside [min, max]. */
  lemma {:induction false} ClicksStayInBounds(info: FontInfo, size: int, clicks: seq<Click>)
    requires info.fontSizeStep > 0
    requires info.minFontSize <= size <= info.maxFontSize
    ensures info.minFontSize <= AfterClicks(info, size, clicks) <= info.maxFontSize
    decreases |clicks|
  {
    if clicks != [] {
      ClickStaysInBounds(info, size, clicks[0]);
      ClicksStayInBounds(info, Clicked(info, size, clicks[0]).size, clicks[1..]);
    }
  }

  /**
   * When the step divides max - min, a click from a size on the grid lands on the
   * grid and never takes a clamping branch: the message is never "Max font" or
   * "Min font".
   */
  lemma ClickStaysOnGrid(info: FontInfo, size: int, c: Click)
    requires info.fontSizeStep > 0
    requires (info.maxFontSize - info.minFontSize) % info.fontSizeStep == 0
    requires OnGrid(info, size)
    ensures OnGrid(info, Clicked(info, size, c).size)
    ensures Clicked(info, size, c).text != "Max font" && Clicked(info, size, c).text != "Min font"
  {
    var step, lo, hi := info.fontSizeStep, info.minFontSize, info.maxFontSize;
    GridDifference(hi - lo, size - lo, step);
    assert hi - size == (hi - lo) - (size - lo);
    if size < hi {
      GridPositive(hi - size, step);
      GridShift(size + step - lo, step);
      assert size + step - lo - step == size - lo;
    }
    if size > lo {
      GridPositive(size - lo, step);
      GridShift(size - lo, step);
      assert size - step - lo == size - lo - step;
    }
  }

  /**
   * With a step that divides max - min, every size reachable from a size on the
   * grid has a font: apply_font_size always finds one.
   */
  lemma {:induction false} ClicksStayOnGrid(info: FontInfo, size: int, clicks: seq<Click>)
    requires info.fontSizeStep > 0
    requires (info.maxFontSize - info.minFontSize) % info.fontSizeStep == 0
    requires OnGrid(info, size)
    ensures OnGrid(info, AfterClicks(info, size, clicks))
    ensures AfterClicks(info, size, clicks) in FontSizes(info)
    decreases |clicks|
  {
    if clicks == [] {
      FontExistsIffOnGrid(info, size);
    } else {
      ClickStaysOnGrid(info, size, clicks[0]);
      ClicksStayOnGrid(info, Clicked(info, size, clicks[0]).size, clicks[1..]);
    }
  }

  /** With the shipped settings, every size reachable from the initial one has a font. */
  lemma ShippedSizesAlwaysHaveFont(clicks: seq<Click>)
    ensures AfterClicks(FONT_INFO, FONT_INFO.fontSize, clicks) in [20, 24, 28, 32, 36, 40]
  {
    ClicksStayOnGrid(FONT_INFO, FONT_INFO.fontSize, clicks);
    ShippedFontSizes();
  }

  /** The font-size state of the window: the current size and the message under the buttons. */
  class FontManager {
    const info: FontInfo
    var currentFontSize: int
    var message: string

    constructor (info: FontInfo)
      ensures this.info == info
      ensures currentFontSize == info.fontSize && message == ""
    {
      this.info := info;
      currentFontSize := info.fontSize;
      message := "";
    }

    /** The sizes `create_fonts` makes a font for, in creation order. */
    method CreateFonts() returns (sizes: seq<int>)
      requires info.fontSizeStep != 0
      ensures sizes == FontSizes(info)
    {
      sizes := [];
      var size := info.minFontSize;
      var stop := info.maxFontSize + 1;
      while (info.fontSizeStep > 0 && size < stop) || (info.fontSizeStep < 0 && size > stop)
        invariant sizes + Range(size, stop, info.fontSizeStep) == FontSizes(info)
        decreases if info.fontSizeStep > 0 then stop - size else size - stop
      {
        sizes := sizes + [size];
        size := size + info.fontSizeStep;
      }
    }

    method IncreaseFontSize()
      modifies this`currentFontSize, this`message
      ensures currentFontSize == Increased(info, old(currentFontSize)).size
      ensures message == Increased(info, old(currentFontSize)).text
    {
      if currentFontSize < info.maxFontSize {
        currentFontSize := currentFontSize + info.fontSizeStep;
        if currentFontSize > info.maxFontSize {
          currentFontSize := info.maxFontSize;
          message := "Max font";
        } else {
          message := "";
        }
      } else {
        message := TEXT_LABEL_MAX_FONT;
      }
    }

    method DecreaseFontSize()
      modifies this`currentFontSize, this`message
      ensures currentFontSize == Decreased(info, old(currentFontSize)).size
      ensures message == Decreased(info, old(currentFontSize)).text
    {
      if currentFontSize > info.minFontSize {
        currentFontSize := currentFontSize - info.fontSizeStep;
        if currentFontSize < info.minFontSize {
          currentFontSize := info.minFontSize;
          message := "Min font";
        } else {
          message := "";
        }
      } else {
        message := TEXT_LABEL_MIN_FONT;
      }
    }
  }
}
