/** The ASCII part of the Python `str` operations the pipeline relies on:
    `strip`, `split(sep)`, `split()`, `replace`, `title`, `isdigit`, `lower`. */
module Strings {

  /** Python's `str.isspace` on ASCII: tab, line feed, vertical tab, form
      feed, carriage return, the four information separators and space. */
  predicate IsSpace(c: char) {
    var n := c as int;
    (9 <= n <= 13) || (28 <= n <= 32)
  }

  predicate IsAsciiUpper(c: char) { 'A' <= c <= 'Z' }

  predicate IsAsciiLower(c: char) { 'a' <= c <= 'z' }

  predicate IsAsciiLetter(c: char) { IsAsciiUpper(c) || IsAsciiLower(c) }

  predicate IsAsciiDigit(c: char) { '0' <= c <= '9' }

  function Upper(c: char): char {
    if IsAsciiLower(c) then (c as int - 32) as char else c
  }

  function Lower(c: char): char {
    if IsAsciiUpper(c) then (c as int + 32) as char else c
  }

  /** `s.lower()` */
  function LowerAll(s: string): (r: string)
    ensures |r| == |s|
  {
    seq(|s|, i requires 0 <= i < |s| => Lower(s[i]))
  }

  predicate AllSatisfy(s: string, p: char -> bool) {
    forall i :: 0 <= i < |s| ==> p(s[i])
  }

  /** `s.lstrip(chars)`: drops the longest prefix whose characters satisfy `p`. */
  function LStrip(s: string, p: char -> bool): (r: string)
    ensures |r| <= |s|
    decreases |s|
  {
    if s != [] && p(s[0]) then LStrip(s[1..], p) else s
  }

  /** What `LStrip` keeps is a suffix; what it drops all satisfies `p`; and
      what it keeps does not begin with a character satisfying `p`. */
  lemma {:induction false} LStripShape(s: string, p: char -> bool)
    ensures LStrip(s, p) == s[|s| - |LStrip(s, p)|..]
    ensures AllSatisfy(s[..|s| - |LStrip(s, p)|], p)
    ensures LStrip(s, p) != [] ==> !p(LStrip(s, p)[0])
    decreases |s|
  {
    if s != [] && p(s[0]) {
      LStripShape(s[1..], p);
      var r := LStrip(s, p);
      assert s[1..][|s| - 1 - |r|..] == s[|s| - |r|..];
      assert forall i :: 1 <= i < |s| - |r| ==> s[i] == s[1..][..|s| - 1 - |r|][i - 1];
    }
  }

  /** `s.rstrip(chars)`: drops the longest suffix whose characters satisfy `p`. */
  function RStrip(s: string, p: char -> bool): (r: string)
    ensures |r| <= |s|
    decreases |s|
  {
    if s != [] && p(s[|s| - 1]) then RStrip(s[..|s| - 1], p) else s
  }

  /** What `RStrip` keeps is a prefix; what it drops all satisfies `p`; and
      what it keeps does not end with a character satisfying `p`. */
  lemma {:induction false} RStripShape(s: string, p: char -> bool)
    ensures RStrip(s, p) == s[..|RStrip(s, p)|]
    ensures AllSatisfy(s[|RStrip(s, p)|..], p)
    ensures RStrip(s, p) != [] ==> !p(RStrip(s, p)[|RStrip(s, p)| - 1])
    decreases |s|
  {
    if s != [] && p(s[|s| - 1]) {
      var t := s[..|s| - 1];
      RStripShape(t, p);
      var r := RStrip(s, p);
      assert t[..|r|] == s[..|r|];
      assert forall i :: |r| <= i < |s| - 1 ==> s[i] == t[|r|..][i - |r|];
    }
  }

  /** Left-stripping stops for good at a character it may not drop. */
  lemma {:induction false} LStripConcat(a: string, b: string, p: char -> bool)
    requires b != [] && !p(b[0])
    ensures LStrip(a + b, p) == LStrip(a, p) + b
    decreases |a|
  {
    if a == [] {
      assert a + b == b;
    } else {
      assert (a + b)[1..] == a[1..] + b;
      if p(a[0]) { LStripConcat(a[1..], b, p); }
    }
  }

  /** A prefix made only of droppable characters is dropped whole. */
  lemma {:induction false} LStripDroppablePrefix(a: string, b: string, p: char -> bool)
    requires AllSatisfy(a, p)
    ensures LStrip(a + b, p) == LStrip(b, p)
    decreases |a|
  {
    if a != [] {
      assert (a + b)[0] == a[0];
      assert (a + b)[1..] == a[1..] + b;
      assert forall i :: 0 <= i < |a| - 1 ==> a[1..][i] == a[i + 1];
      LStripDroppablePrefix(a[1..], b, p);
    } else {
      assert a + b == b;
    }
  }

  /** Once a prefix holds a character that is kept, what follows the prefix
      is kept too. */
  lemma {:induction false} LStripStopsInPrefix(a: string, b: string, p: char -> bool)
    requires !AllSatisfy(a, p)
    ensures LStrip(a + b, p) == LStrip(a, p) + b
    decreases |a|
  {
    assert a != [];
    assert (a + b)[1..] == a[1..] + b;
    if p(a[0]) {
      assert !AllSatisfy(a[1..], p) by {
        var i :| 0 <= i < |a| && !p(a[i]);
        assert a[1..][i - 1] == a[i];
      }
      LStripStopsInPrefix(a[1..], b, p);
    }
  }

  /** A non-empty left-strip keeps the last character. */
  lemma LStripKeepsLast(s: string, p: char -> bool)
    requires LStrip(s, p) != []
    ensures LStrip(s, p)[|LStrip(s, p)| - 1] == s[|s| - 1]
  {
  }

  /** Right-stripping removes a droppable tail and stops at the first
      character it may not drop. */
  lemma {:induction false} RStripDropsTail(a: string, t: string, p: char -> bool)
    requires a != [] && !p(a[|a| - 1]) && AllSatisfy(t, p)
    ensures RStrip(a + t, p) == a
    decreases |t|
  {
    if t == [] {
      assert a + t == a;
    } else {
      assert (a + t)[..|a + t| - 1] == a + t[..|t| - 1];
      RStripDropsTail(a, t[..|t| - 1], p);
    }
  }

  /** `s.strip(chars)` */
  function StripBy(s: string, p: char -> bool): string {
    RStrip(LStrip(s, p), p)
  }

  /** `s.strip()`: the input without its leading and trailing whitespace. */
  function Strip(s: string): string {
    StripBy(s, IsSpace)
  }

  /** `s.strip()` yields exactly what lies between a whitespace prefix and a
      whitespace suffix, and begins and ends with a non-space character. */
  lemma StripShape(s: string)
    ensures exists i, j :: 0 <= i <= j <= |s| && Strip(s) == s[i..j]
                           && AllSatisfy(s[..i], IsSpace) && AllSatisfy(s[j..], IsSpace)
    ensures Strip(s) != [] ==> !IsSpace(Strip(s)[0]) && !IsSpace(Strip(s)[|Strip(s)| - 1])
  {
    var l := LStrip(s, IsSpace);
    var r := RStrip(l, IsSpace);
    LStripShape(s, IsSpace);
    RStripShape(l, IsSpace);
    var i := |s| - |l|;
    var j := i + |r|;
    assert r == s[i..j];
    assert s[j..] == l[|r|..];
  }

  /** A string strips to nothing exactly when every character is whitespace. */
  lemma StripEmptyIffBlank(s: string)
    ensures Strip(s) == [] <==> AllSatisfy(s, IsSpace)
  {
    var l := LStrip(s, IsSpace);
    var r := RStrip(l, IsSpace);
    LStripShape(s, IsSpace);
    RStripShape(l, IsSpace);
    if r == [] {
      assert AllSatisfy(l[0..], IsSpace);
      assert l == [];
      assert s[..|s|] == s;
    } else {
      assert r[0] == l[0];
      assert l[0] == s[|s| - |l|];
    }
  }

  /** A string that begins and ends with a non-space character strips to
      itself. */
  lemma StripUnpadded(s: string)
    requires s != [] && !IsSpace(s[0]) && !IsSpace(s[|s| - 1])
    ensures Strip(s) == s
  {
    assert LStrip(s, IsSpace) == s;
    assert RStrip(s, IsSpace) == s;
  }

  /** Stripping again changes nothing. */
  lemma StripIdempotent(s: string)
    ensures Strip(Strip(s)) == Strip(s)
  {
    var t := Strip(s);
    StripShape(s);
    if t != [] {
      assert LStrip(t, IsSpace) == t;
      assert RStrip(t, IsSpace) == t;
    } else {
      assert LStrip(t, IsSpace) == t;
    }
  }

  /** `s.split(sep)`: the pieces between occurrences of `sep`; never empty. */
  function Split(s: string, sep: char): (r: seq<string>)
    ensures |r| >= 1
    ensures forall k :: 0 <= k < |r| ==> sep !in r[k]
    decreases |s|
  {
    if s == [] then [[]]
    else
      var rest := Split(s[1..], sep);
      if s[0] == sep then [[]] + rest
      else [[s[0]] + rest[0]] + rest[1..]
  }

  /** Splitting at a separator splits each side: `(a + sep + b).split(sep)`
      is `a.split(sep) + b.split(sep)`. */
  lemma {:induction false} SplitJoin(a: string, b: string, sep: char)
    ensures Split(a + [sep] + b, sep) == Split(a, sep) + Split(b, sep)
    decreases |a|
  {
    if a == [] {
      assert a + [sep] + b == [sep] + b;
      assert ([sep] + b)[1..] == b;
    } else {
      assert (a + [sep] + b)[1..] == a[1..] + [sep] + b;
      SplitJoin(a[1..], b, sep);
    }
  }

  function Last<T>(s: seq<T>): T
    requires |s| >= 1
  {
    s[|s| - 1]
  }

  /** The last piece of a split is what follows the last separator. */
  lemma {:induction false} SplitLastAfterSep(a: string, b: string, sep: char)
    ensures Last(Split(a + [sep] + b, sep)) == Last(Split(b, sep))
    decreases |a|
  {
    var s := a + [sep] + b;
    if a == [] {
      assert s[1..] == b;
    } else {
      assert s[1..] == a[1..] + [sep] + b;
      SplitLastAfterSep(a[1..], b, sep);
      var rest := Split(s[1..], sep);
      if s[0] != sep {
        SplitHasTwoPieces(a[1..], b, sep);
      }
    }
  }

  lemma {:induction false} SplitHasTwoPieces(a: string, b: string, sep: char)
    ensures |Split(a + [sep] + b, sep)| >= 2
    decreases |a|
  {
    var s := a + [sep] + b;
    if a == [] {
      assert s[1..] == b;
    } else {
      assert s[1..] == a[1..] + [sep] + b;
      SplitHasTwoPieces(a[1..], b, sep);
    }
  }

  /** A string without the separator splits into itself alone. */
  lemma {:induction false} SplitNoSep(s: string, sep: char)
    requires sep !in s
    ensures Split(s, sep) == [s]
    decreases |s|
  {
    if s != [] {
      assert s[1..] == s[1..];
      assert sep !in s[1..] by {
        forall k | 0 <= k < |s| - 1 ensures s[1..][k] != sep { assert s[1..][k] == s[k + 1]; }
      }
      SplitNoSep(s[1..], sep);
      assert [s[0]] + s[1..] == s;
    }
  }

  /** Splitting text that ends in a separator (or is empty), followed by a
      piece without separators, puts that piece last. */
  lemma SplitLastAfterFinalSep(x: string, piece: string, sep: char)
    requires sep !in piece
    requires x == [] || x[|x| - 1] == sep
    ensures Last(Split(x + piece, sep)) == piece
  {
    SplitNoSep(piece, sep);
    if x != [] {
      assert x + piece == x[..|x| - 1] + [sep] + piece;
      SplitLastAfterSep(x[..|x| - 1], piece, sep);
    } else {
      assert x + piece == piece;
    }
  }

  predicate NotSpace(c: char) { !IsSpace(c) }

  /** The prefix of `t` up to its first whitespace character. */
  function TakeWord(t: string): (w: string)
    ensures |w| <= |t| && w == t[..|w|]
    ensures AllSatisfy(w, NotSpace)
    ensures t != [] && !IsSpace(t[0]) ==> |w| >= 1
    ensures |w| < |t| ==> IsSpace(t[|w|])
    decreases |t|
  {
    if t == [] || IsSpace(t[0]) then [] else [t[0]] + TakeWord(t[1..])
  }

  /** A non-empty run of non-whitespace characters. */
  predicate IsWord(w: string) {
    w != [] && AllSatisfy(w, NotSpace)
  }

  /** `s.split()`: the maximal runs of non-whitespace characters, in order. */
  function Words(s: string): (r: seq<string>)
    ensures forall k :: 0 <= k < |r| ==> IsWord(r[k])
    decreases |s|
  {
    if s == [] then []
    else if IsSpace(s[0]) then Words(s[1..])
    else
      var w := TakeWord(s);
      [w] + Words(s[|w|..])
  }

  /** `s.split()` is empty exactly for a string made only of whitespace, so
      `s.split()[0]` fails exactly then. */
  lemma {:induction false} WordsEmptyIffBlank(s: string)
    ensures Words(s) == [] <==> AllSatisfy(s, IsSpace)
    decreases |s|
  {
    if s != [] && IsSpace(s[0]) {
      WordsEmptyIffBlank(s[1..]);
      assert forall i :: 1 <= i < |s| ==> s[i] == s[1..][i - 1];
    }
  }

  /** The first word of a string that begins with a non-space character is
      its longest non-space prefix. */
  lemma FirstWordOfUnpadded(s: string)
    requires s != [] && !IsSpace(s[0])
    ensures Words(s) != [] && Words(s)[0] == TakeWord(s)
  {
  }

  /** `s.split()[0]` is the leading run of non-whitespace characters that
      follows the leading whitespace. */
  lemma {:induction false} FirstWordAfterSpaces(s: string)
    ensures Words(s) != [] ==> Words(s)[0] == TakeWord(LStrip(s, IsSpace))
    decreases |s|
  {
    if s != [] && IsSpace(s[0]) {
      FirstWordAfterSpaces(s[1..]);
    }
  }

  /** `s.replace(from, to)` for single characters; keeps the length. */
  function ReplaceChar(s: string, from: char, to: char): (r: string)
    ensures |r| == |s|
    ensures forall i :: 0 <= i < |s| ==> r[i] == (if s[i] == from then to else s[i])
  {
    seq(|s|, i requires 0 <= i < |s| => if s[i] == from then to else s[i])
  }

  /** `s.title()` on ASCII: a letter is upper-cased when the character before
      it is not a letter and lower-cased when it is; nothing else changes. */
  function Title(s: string): (r: string)
    ensures |r| == |s|
    ensures forall i :: 0 <= i < |s| ==>
              r[i] == if i > 0 && IsAsciiLetter(s[i - 1]) then Lower(s[i]) else Upper(s[i])
  {
    TitleAfter(s, false)
  }

  /** The title-casing of `s` when the character before it was cased
      (`previousIsCased`) or not. */
  function TitleAfter(s: string, previousIsCased: bool): (r: string)
    ensures |r| == |s|
    ensures forall i :: 0 <= i < |s| ==>
              r[i] == if (if i == 0 then previousIsCased else IsAsciiLetter(s[i - 1])) then Lower(s[i]) else Upper(s[i])
    decreases |s|
  {
    if s == [] then []
    else
      var c := if previousIsCased then Lower(s[0]) else Upper(s[0]);
      [c] + TitleAfter(s[1..], IsAsciiLetter(c))
  }

  /** `s.isdigit()` on ASCII: non-empty and all decimal digits. */
  predicate IsDigits(s: string) {
    s != [] && AllSatisfy(s, IsAsciiDigit)
  }
}
