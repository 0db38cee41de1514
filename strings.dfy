/**
 * The Python `str` operations the chat client relies on, over `seq<char>`:
 * strip, lower, endswith, replace("\n", " "), join, capitalize, split and
 * str() of an integer.
 */
module Strings {

  /** Python's `str.isspace()` for one character. */
  predicate IsSpace(c: char)
  {
    || c == ' ' || c == '\t' || c == '\n' || c == '\r' || c == '\U{B}' || c == '\U{C}'
    || ('\U{1C}' <= c <= '\U{1F}') || c == '\U{85}' || c == '\U{A0}' || c == '\U{1680}'
    || ('\U{2000}' <= c <= '\U{200A}') || c == '\U{2028}' || c == '\U{2029}'
    || c == '\U{202F}' || c == '\U{205F}' || c == '\U{3000}'
  }

  /** Neither end of `s` is a whitespace character. */
  predicate TightEdges(s: string)
  {
    s == [] || (!IsSpace(s[0]) && !IsSpace(s[|s| - 1]))
  }

  /** The number of whitespace characters at the start of `s`. */
  function LeadingSpaces(s: string): (k: nat)
    ensures k <= |s|
    ensures k == |s| || !IsSpace(s[k])
  {
    if s != [] && IsSpace(s[0]) then 1 + LeadingSpaces(s[1..]) else 0
  }

  /** Where the whitespace at the end of `s` begins. */
  function TrailingStart(s: string): (k: nat)
    ensures k <= |s|
    ensures k == 0 || !IsSpace(s[k - 1])
  {
    if s != [] && IsSpace(s[|s| - 1]) then TrailingStart(s[..|s| - 1]) else |s|
  }

  /** Everything before `LeadingSpaces(s)` is whitespace. */
  lemma {:induction false} LeadingAreSpaces(s: string)
    ensures forall i :: 0 <= i < LeadingSpaces(s) ==> IsSpace(s[i])
    decreases |s|
  {
    if s != [] && IsSpace(s[0]) {
      LeadingAreSpaces(s[1..]);
      assert forall i :: 1 <= i < LeadingSpaces(s) ==> s[i] == s[1..][i - 1];
    }
  }

  /** Everything from `TrailingStart(s)` on is whitespace. */
  lemma {:induction false} TrailingAreSpaces(s: string)
    ensures forall i :: TrailingStart(s) <= i < |s| ==> IsSpace(s[i])
    decreases |s|
  {
    if s != [] && IsSpace(s[|s| - 1]) {
      var init := s[..|s| - 1];
      TrailingAreSpaces(init);
      assert forall i :: TrailingStart(s) <= i < |s| - 1 ==> s[i] == init[i];
    }
  }

  /** Python's `str.strip()` with no argument. */
  function Strip(s: string): string
  {
    var l := s[LeadingSpaces(s)..];
    l[..TrailingStart(l)]
  }

  /**
   * The stripped string has no whitespace at either end, and it is the slice of
   * the input left after removing whitespace only, at both ends.
   */
  lemma StripShape(s: string)
    ensures TightEdges(Strip(s))
    ensures exists i, j :: 0 <= i <= j <= |s| && Strip(s) == s[i..j]
                           && (forall k :: 0 <= k < i ==> IsSpace(s[k]))
                           && (forall k :: j <= k < |s| ==> IsSpace(s[k]))
  {
    var i := LeadingSpaces(s);
    var l := s[i..];
    var j := TrailingStart(l);
    LeadingAreSpaces(s);
    TrailingAreSpaces(l);
    assert forall k :: i + j <= k < |s| ==> s[k] == l[k - i];
    assert Strip(s) == s[i..i + j];
  }

  /** A string with no whitespace at its ends is its own strip. */
  lemma StripTight(s: string)
    requires TightEdges(s)
    ensures Strip(s) == s
  {
    assert LeadingSpaces(s) == 0;
    assert s[0..] == s;
    assert TrailingStart(s) == |s|;
  }

  /** Trailing whitespace after a tight string is exactly what strip removes. */
  lemma StripTrailing(s: string, w: string)
    requires TightEdges(s) && s != []
    requires forall i :: 0 <= i < |w| ==> IsSpace(w[i])
    ensures Strip(s + w) == s
  {
    assert (s + w)[0] == s[0];
    assert LeadingSpaces(s + w) == 0;
    assert (s + w)[0..] == s + w;
    TrailingSpaces(s, w);
  }

  lemma {:induction false} TrailingSpaces(s: string, w: string)
    requires s != [] && !IsSpace(s[|s| - 1])
    requires forall i :: 0 <= i < |w| ==> IsSpace(w[i])
    ensures TrailingStart(s + w) == |s|
    decreases |w|
  {
    if w == [] {
      assert s + w == s;
    } else {
      var w' := w[..|w| - 1];
      assert (s + w)[..|s + w| - 1] == s + w';
      TrailingSpaces(s, w');
    }
  }

  /** Python's `str.lower()` on ASCII letters. */
  function LowerChar(c: char): char
  {
    if 'A' <= c <= 'Z' then (c as int + 32) as char else c
  }

  /** Python's `str.upper()` on ASCII letters. */
  function UpperChar(c: char): char
  {
    if 'a' <= c <= 'z' then (c as int - 32) as char else c
  }

  function Lower(s: string): (r: string)
    ensures |r| == |s| && forall i :: 0 <= i < |s| ==> r[i] == LowerChar(s[i])
  {
    seq(|s|, i requires 0 <= i < |s| => LowerChar(s[i]))
  }

  /** Python's `str.capitalize()`: first character upper case, the rest lower case. */
  function Capitalize(s: string): (r: string)
    ensures |r| == |s|
    ensures s != [] ==> r[0] == UpperChar(s[0]) && r[1..] == Lower(s[1..])
  {
    if s == [] then [] else [UpperChar(s[0])] + Lower(s[1..])
  }

  /** Python's `str.endswith(suffix)`. */
  predicate EndsWith(s: string, suffix: string)
  {
    |suffix| <= |s| && s[|s| - |suffix|..] == suffix
  }

  lemma EndsWithAppend(s: string, suffix: string)
    ensures EndsWith(s + suffix, suffix)
  {
    assert (s + suffix)[|s|..] == suffix;
  }

  /** A text built from four pieces starts with the first and ends with the last three. */
  lemma PiecesEdges(a: string, b: string, c: string, d: string)
    ensures |a| <= |a + b + c + d| && (a + b + c + d)[..|a|] == a
    ensures EndsWith(a + b + c + d, b + (c + d))
  {
    assert a + b + c + d == a + (b + (c + d));
    EndsWithAppend(a, b + (c + d));
  }

  /** Python's `s.replace("\n", " ")`. */
  function ReplaceNewlines(s: string): (r: string)
    ensures |r| == |s|
    ensures forall i :: 0 <= i < |s| ==> r[i] == (if s[i] == '\n' then ' ' else s[i])
  {
    seq(|s|, i requires 0 <= i < |s| => if s[i] == '\n' then ' ' else s[i])
  }

  /** Python's `sep.join(parts)`. */
  function Join(sep: string, parts: seq<string>): string
  {
    if |parts| == 0 then ""
    else if |parts| == 1 then parts[0]
    else Join(sep, parts[..|parts| - 1]) + sep + parts[|parts| - 1]
  }

  /** Joining grows at the end: one more part adds the separator and that part. */
  lemma JoinSnoc(sep: string, parts: seq<string>, p: string)
    requires parts != []
    ensures Join(sep, parts + [p]) == Join(sep, parts) + sep + p
  {
    assert (parts + [p])[..|parts|] == parts;
  }

  /** The strings `f` gives for the items, one after the other (a `+=` loop over `xs`). */
  function ConcatMap<T>(xs: seq<T>, f: T -> string): string
  {
    if xs == [] then "" else ConcatMap(xs[..|xs| - 1], f) + f(xs[|xs| - 1])
  }

  /** One more item adds its string at the end. */
  lemma ConcatMapSnoc<T>(xs: seq<T>, x: T, f: T -> string)
    ensures ConcatMap(xs + [x], f) == ConcatMap(xs, f) + f(x)
  {
    assert (xs + [x])[..|xs|] == xs;
  }

  /** Concatenating two runs of items concatenates their strings. */
  lemma {:induction false} ConcatMapAppend<T>(a: seq<T>, b: seq<T>, f: T -> string)
    ensures ConcatMap(a + b, f) == ConcatMap(a, f) + ConcatMap(b, f)
    decreases |b|
  {
    if b == [] {
      assert a + b == a;
    } else {
      var b' := b[..|b| - 1];
      assert a + b == (a + b') + [b[|b| - 1]];
      ConcatMapSnoc(a + b', b[|b| - 1], f);
      ConcatMapAppend(a, b', f);
      assert b == b' + [b[|b| - 1]];
      ConcatMapSnoc(b', b[|b| - 1], f);
    }
  }

  /** The string `f` gives for each item, in order (a list comprehension). */
  function MapStrings<T>(xs: seq<T>, f: T -> string): (r: seq<string>)
    ensures |r| == |xs| && forall i :: 0 <= i < |xs| ==> r[i] == f(xs[i])
  {
    if xs == [] then [] else MapStrings(xs[..|xs| - 1], f) + [f(xs[|xs| - 1])]
  }

  /**
   * Appending each item's string followed by a separator gives the strings
   * joined by that separator, plus one final separator.
   */
  lemma {:induction false} ConcatMapIsJoin<T>(xs: seq<T>, f: T -> string, g: T -> string, sep: string)
    requires xs != []
    requires forall x :: g(x) == f(x) + sep
    ensures ConcatMap(xs, g) == Join(sep, MapStrings(xs, f)) + sep
    decreases |xs|
  {
    var init := xs[..|xs| - 1];
    var last := xs[|xs| - 1];
    if init == [] {
      assert MapStrings(xs, f) == [f(last)];
      assert ConcatMap(xs, g) == ConcatMap(init, g) + g(last);
    } else {
      ConcatMapIsJoin(init, f, g, sep);
      var ji := Join(sep, MapStrings(init, f));
      JoinSnoc(sep, MapStrings(init, f), f(last));
      calc {
        ConcatMap(xs, g);
        ConcatMap(init, g) + g(last);
        (ji + sep) + (f(last) + sep);
        { assert (ji + sep) + (f(last) + sep) == ((ji + sep) + f(last)) + sep; }
        (ji + sep + f(last)) + sep;
        Join(sep, MapStrings(xs, f)) + sep;
      }
    }
  }

  /** The first character of a join is the first character of its first part. */
  lemma {:induction false} JoinFirst(sep: string, parts: seq<string>)
    requires parts != [] && parts[0] != []
    ensures Join(sep, parts) != [] && Join(sep, parts)[0] == parts[0][0]
    decreases |parts|
  {
    if |parts| > 1 {
      var init := parts[..|parts| - 1];
      JoinFirst(sep, init);
    }
  }

  /** The last character of a join is the last character of its last part. */
  lemma JoinLast(sep: string, parts: seq<string>)
    requires parts != [] && parts[|parts| - 1] != []
    ensures Join(sep, parts) != [] && Join(sep, parts)[|Join(sep, parts)| - 1] == parts[|parts| - 1][|parts[|parts| - 1]| - 1]
  {
  }

  /** Python's `s.split(d)`: the fields between occurrences of `d`. */
  function Split(s: string, d: char): (r: seq<string>)
    ensures |r| >= 1
    decreases |s|
  {
    if s == [] then [""]
    else if s[0] == d then [""] + Split(s[1..], d)
    else
      var rest := Split(s[1..], d);
      [[s[0]] + rest[0]] + rest[1..]
  }

  /** A string without the delimiter is one field. */
  lemma {:induction false} SplitNone(s: string, d: char)
    requires d !in s
    ensures Split(s, d) == [s]
    decreases |s|
  {
    if s != [] {
      assert s[0] in s;
      assert forall c :: c in s[1..] ==> c in s;
      SplitNone(s[1..], d);
      assert [s[0]] + s[1..] == s;
    }
  }

  /** The first delimiter ends the first field. */
  lemma {:induction false} SplitAt(a: string, d: char, b: string)
    requires d !in a
    ensures Split(a + [d] + b, d) == [a] + Split(b, d)
    decreases |a|
  {
    var s := a + [d] + b;
    if a == [] {
      assert s[0] == d && s[1..] == b;
    } else {
      assert a[0] in a;
      assert forall c :: c in a[1..] ==> c in a;
      assert s[0] == a[0] && s[1..] == a[1..] + [d] + b;
      SplitAt(a[1..], d, b);
      assert [a[0]] + a[1..] == a;
    }
  }

  /**
   * The lines Python's iteration over a text file gives: each line keeps its
   * "\n"; text after the last "\n" is a final line without one.
   */
  function Lines(text: string): (r: seq<string>)
    ensures text == [] <==> r == []
    decreases |text|
  {
    if text == [] then []
    else if text[0] == '\n' then ["\n"] + Lines(text[1..])
    else PrependChar(text[0], Lines(text[1..]))
  }

  /** A character that is not "\n" joins the line after it. */
  function PrependChar(c: char, lines: seq<string>): (r: seq<string>)
    ensures r != []
  {
    if lines == [] then [[c]] else [[c] + lines[0]] + lines[1..]
  }

  /** A text that is empty or ends in "\n": a file whose last line is complete. */
  predicate Terminated(text: string)
  {
    text == [] || text[|text| - 1] == '\n'
  }

  /** Lines of a text that starts with a known character. */
  lemma LinesCons(c: char, t: string)
    ensures Lines([c] + t) == if c == '\n' then ["\n"] + Lines(t) else PrependChar(c, Lines(t))
  {
    assert ([c] + t)[0] == c && ([c] + t)[1..] == t;
  }

  /** Prepending a character to the first line ignores the lines after it. */
  lemma PrependCharAppend(c: char, la: seq<string>, lb: seq<string>)
    requires la != []
    ensures PrependChar(c, la + lb) == PrependChar(c, la) + lb
  {
    assert (la + lb)[0] == la[0] && (la + lb)[1..] == la[1..] + lb;
  }

  /** After complete lines, appended text starts a new line. */
  lemma {:induction false} LinesAppend(a: string, b: string)
    requires Terminated(a)
    ensures Lines(a + b) == Lines(a) + Lines(b)
    decreases |a|
  {
    if a != [] {
      var c, a' := a[0], a[1..];
      assert Terminated(a') by {
        if c != '\n' {
          assert a' != [] && a'[|a'| - 1] == a[|a| - 1];
        }
      }
      var ab := a' + b;
      assert a == [c] + a' && a + b == [c] + ab;
      LinesAppend(a', b);
      LinesCons(c, a');
      LinesCons(c, ab);
      if c != '\n' {
        PrependCharAppend(c, Lines(a'), Lines(b));
      }
    } else {
      assert a + b == b;
    }
  }

  /** A text without "\n" followed by one "\n" is a single line. */
  lemma {:induction false} SingleLine(s: string)
    requires '\n' !in s
    ensures Lines(s + "\n") == [s + "\n"]
    decreases |s|
  {
    if s == [] {
      assert s + "\n" == "\n" && "\n"[1..] == [];
      assert Lines("\n") == ["\n"] + Lines([]);
    } else {
      var t := s + "\n";
      assert t[0] == s[0] && s[0] in s;
      assert t[1..] == s[1..] + "\n";
      assert forall c :: c in s[1..] ==> c in s;
      SingleLine(s[1..]);
      assert [s[0]] + (s[1..] + "\n") == t;
    }
  }

  function DigitChar(n: nat): char
    requires n < 10
  {
    "0123456789"[n]
  }

  /** Python's `str(n)` for a natural number. */
  function NatToString(n: nat): (r: string)
    ensures r != []
    ensures forall i :: 0 <= i < |r| ==> '0' <= r[i] <= '9'
  {
    if n < 10 then [DigitChar(n)] else NatToString(n / 10) + [DigitChar(n % 10)]
  }

  /** Python's `str(n)` for an integer. */
  function IntToString(n: int): (r: string)
    ensures r != []
  {
    if n < 0 then "-" + NatToString(-n) else NatToString(n)
  }

  /** Where the last path component of `p` starts: just after its last '/', or 0. */
  function BasenameStart(p: string): (k: nat)
    ensures k <= |p|
    ensures k > 0 ==> p[k - 1] == '/'
  {
    if p == [] then 0
    else if p[|p| - 1] == '/' then |p|
    else BasenameStart(p[..|p| - 1])
  }

  /** `os.path.basename(p)`: what follows the last '/'. */
  function Basename(p: string): string
  {
    p[BasenameStart(p)..]
  }

  /** The base name holds no '/', ends the path, and follows a '/' unless it is the whole path. */
  lemma BasenameShape(p: string)
    ensures '/' !in Basename(p)
    ensures EndsWith(p, Basename(p))
    ensures Basename(p) == p || p[|p| - |Basename(p)| - 1] == '/'
  {
    var k := BasenameStart(p);
    NoSlashAfterStart(p);
    assert forall c :: c in p[k..] ==> exists i :: k <= i < |p| && p[i] == c;
  }

  lemma {:induction false} NoSlashAfterStart(p: string)
    ensures forall i :: BasenameStart(p) <= i < |p| ==> p[i] != '/'
    decreases |p|
  {
    if p != [] && p[|p| - 1] != '/' {
      var init := p[..|p| - 1];
      NoSlashAfterStart(init);
      assert forall i :: BasenameStart(p) <= i < |p| - 1 ==> p[i] == init[i];
    }
  }

  /** `os.path.join(directory, name)` on POSIX paths. */
  function PathJoin(directory: string, name: string): (r: string)
    ensures EndsWith(r, name)
    ensures name != [] && name[0] == '/' ==> r == name
  {
    EndsWithAppend(directory, name);
    EndsWithAppend(directory + "/", name);
    if name != [] && name[0] == '/' then name
    else if directory == [] || directory[|directory| - 1] == '/' then directory + name
    else directory + "/" + name
  }
}
