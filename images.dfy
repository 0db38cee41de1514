/**
 * The image helpers the core relies on (utils/images.py): recognising an image
 * path, and the size arithmetic of the long-edge cap and of thumbnails. Pixel
 * data, JPEG encoding and file access are not part of this model.
 */
module Images {
  import opened Strings

  const IMAGE_EXTENSIONS: seq<string> := [".png", ".jpg", ".jpeg", ".gif", ".webp"]

  /** The stripped, lower-cased path ends with one of the image extensions. */
  predicate HasImageExtension(path: string)
  {
    exists ext :: ext in IMAGE_EXTENSIONS && EndsWith(Lower(Strip(path)), ext)
  }

  /**
   * `is_image_path`: the extension check first, and only then the filesystem
   * (`is_valid_path`, given here as a predicate over paths, asked about the
   * unstripped path).
   */
  predicate IsImagePath(path: string, isValidPath: string -> bool)
  {
    HasImageExtension(path) && isValidPath(path)
  }

  /**
   * An image path is at least as long as its extension: in particular it is
   * never empty, whatever the filesystem holds.
   */
  lemma ImagePathLength(path: string, isValidPath: string -> bool)
    requires IsImagePath(path, isValidPath)
    ensures |path| >= 4 && path != ""
  {
    StripShape(path);
    var ext :| ext in IMAGE_EXTENSIONS && EndsWith(Lower(Strip(path)), ext);
    assert |ext| >= 4;
  }

  /** Without an image extension the answer is no, whatever the filesystem holds. */
  lemma NoExtensionNoImage(path: string)
    requires !EndsWith(Lower(Strip(path)), ".png") && !EndsWith(Lower(Strip(path)), ".jpg")
    requires !EndsWith(Lower(Strip(path)), ".jpeg") && !EndsWith(Lower(Strip(path)), ".gif")
    requires !EndsWith(Lower(Strip(path)), ".webp")
    ensures forall isValidPath: string -> bool :: !IsImagePath(path, isValidPath)
  {
    forall ext | ext in IMAGE_EXTENSIONS
      ensures !EndsWith(Lower(Strip(path)), ext)
    {
    }
  }

  /** Surrounding whitespace and upper case do not hide an extension. */
  lemma ImagePathExample(isValidPath: string -> bool)
    ensures IsImagePath(" Cat.PNG\n", isValidPath) == isValidPath(" Cat.PNG\n")
  {
    var p := " Cat.PNG\n";
    var l := p[1..];
    assert l == "Cat.PNG\n";
    assert LeadingSpaces(l) == 0 by { assert !IsSpace(l[0]); }
    assert LeadingSpaces(p) == 1;
    assert TrailingStart(l[..7]) == 7 by { assert !IsSpace(l[6]); }
    assert TrailingStart(l) == 7;
    assert Strip(p) == "Cat.PNG";
    var lower := Lower("Cat.PNG");
    assert lower[3..] == ".png";
    assert ".png" in IMAGE_EXTENSIONS && EndsWith(lower, ".png");
  }

  /**
   * The new size `resize_long_edge` gives an image of `width` x `height` when
   * its long edge is capped at `maxLongEdge`. Each dimension is scaled by
   * maxLongEdge / max(width, height) and truncated.
   */
  function ResizeLongEdge(width: nat, height: nat, maxLongEdge: nat): (r: (nat, nat))
    ensures (if width >= height then width else height) <= maxLongEdge ==> r == (width, height)
    ensures (if width >= height then width else height) > maxLongEdge ==>
              r.0 <= maxLongEdge && r.1 <= maxLongEdge
              && (if r.0 >= r.1 then r.0 else r.1) == maxLongEdge
    ensures r.0 <= width && r.1 <= height
  {
    var maxDimension := if width >= height then width else height;
    if maxDimension > maxLongEdge then
      ScaleFacts(width, maxLongEdge, maxDimension);
      ScaleFacts(height, maxLongEdge, maxDimension);
      (Scale(width, maxLongEdge, maxDimension), Scale(height, maxLongEdge, maxDimension))
    else
      (width, height)
  }

  /** `dim` scaled by `num / den`, rounded down. */
  function Scale(dim: nat, num: nat, den: nat): nat
    requires den > 0
  {
    dim * num / den
  }

  /**
   * Scaling by num / den with num <= den never enlarges; a dimension no longer
   * than den ends no longer than num; and den itself becomes exactly num.
   */
  lemma ScaleFacts(dim: nat, num: nat, den: nat)
    requires 0 < den && num <= den
    ensures Scale(dim, num, den) <= dim
    ensures dim <= den ==> Scale(dim, num, den) <= num
    ensures Scale(den, num, den) == num
  {
    MulMono(num, den, dim);
    DivMonotone(dim * num, dim * den, den);
    MulDivCancel(dim, den);
    assert dim * den == den * dim;
    if dim <= den {
      MulMono(dim, den, num);
      DivMonotone(dim * num, den * num, den);
      MulDivCancel(num, den);
      assert den * num == num * den;
    }
    MulDivCancel(num, den);
    assert den * num == num * den;
  }

  lemma MulMono(a: int, b: int, c: nat)
    requires a <= b
    ensures a * c <= b * c && c * a <= c * b
  {
  }

  /** Multiplying and then dividing by the same positive number gives the number back. */
  lemma MulDivCancel(k: nat, den: nat)
    requires den > 0
    ensures k * den / den == k
  {
    var q, r := k * den / den, k * den % den;
    assert k * den == q * den + r && 0 <= r < den;
    if q < k {
      MulMono(q + 1, k, den);
      assert false;
    } else if q > k {
      MulMono(k + 1, q, den);
      assert false;
    }
  }

  lemma DivMonotone(a: nat, b: nat, den: nat)
    requires den > 0 && a <= b
    ensures a / den <= b / den
  {
    var qa, qb := a / den, b / den;
    assert a == qa * den + a % den && b == qb * den + b % den;
    if qa > qb {
      MulMono(qb + 1, qa, den);
      assert false;
    }
  }

  /**
   * `get_thumb_size`: the thumbnail of a `width` x `height` image fits in
   * `maxSize` x `maxSize`, its long side is exactly `maxSize`, and the short side
   * is the aspect-preserving length rounded down. Height must not be zero (the
   * source divides by it).
   */
  function GetThumbSize(width: nat, height: nat, maxSize: nat): (r: (nat, nat))
    requires height != 0
    ensures width > height ==> r.0 == maxSize && r.1 <= maxSize
    ensures width > height ==> r.1 * width <= maxSize * height < (r.1 + 1) * width
    ensures width <= height ==> r.1 == maxSize && r.0 <= maxSize
    ensures width <= height ==> r.0 * height <= maxSize * width < (r.0 + 1) * height
    ensures width == height ==> r == (maxSize, maxSize)
  {
    if width > height then
      ShortSide(height, width, maxSize);
      (maxSize, Scale(maxSize, height, width))
    else
      ShortSide(width, height, maxSize);
      (Scale(maxSize, width, height), maxSize)
  }

  /** The short side of a thumbnail: at most maxSize, the floor of maxSize * short / long. */
  lemma ShortSide(short: nat, long: nat, maxSize: nat)
    requires 0 < long && short <= long
    ensures Scale(maxSize, short, long) <= maxSize
    ensures Scale(maxSize, short, long) * long <= maxSize * short < (Scale(maxSize, short, long) + 1) * long
    ensures short == long ==> Scale(maxSize, short, long) == maxSize
  {
    var a := maxSize * short;
    var q := a / long;
    assert a == q * long + a % long;
    assert (q + 1) * long == q * long + long;
    MulMono(short, long, maxSize);
    DivMonotone(a, maxSize * long, long);
    MulDivCancel(maxSize, long);
  }
}
