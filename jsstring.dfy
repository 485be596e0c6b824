/** The JavaScript string and array built-ins the application leans on:
    `String.prototype.trim`, `split(c)[0]` and `Array.prototype.join`.
    A string is a `seq<char>` of Unicode scalar values. A JavaScript string
    is a sequence of UTF-16 code units, but `trim` and `split('(')` only look
    at characters inside the Basic Multilingual Plane, so they agree with
    this model on every string the model can represent (a lone surrogate
    cannot be). */
module JsString {

  /** WhiteSpace and LineTerminator code points of ECMA-262 (section 12.2 and
      12.3 of the 2023 edition), the characters `trim` removes. Space_Separator
      (Zs) is listed out as of Unicode 15. */
  predicate IsWhite(c: char)
  {
    c == '\U{9}' || c == '\U{B}' || c == '\U{C}' || c == '\U{FEFF}'
    || c == '\U{20}' || c == '\U{A0}' || c == '\U{1680}'
    || ('\U{2000}' <= c <= '\U{200A}') || c == '\U{202F}' || c == '\U{205F}' || c == '\U{3000}'
    || c == '\U{A}' || c == '\U{D}' || c == '\U{2028}' || c == '\U{2029}'
  }

  /** A string with nothing but whitespace in it (the empty string included). */
  predicate IsBlank(s: string)
  {
    forall i :: 0 <= i < |s| ==> IsWhite(s[i])
  }

  /** Leading whitespace removed: a suffix of `s`, everything cut was white,
      and what is left does not start with white. */
  function TrimStart(s: string): (r: string)
    ensures |r| <= |s| && r == s[|s| - |r|..]
    ensures forall i :: 0 <= i < |s| - |r| ==> IsWhite(s[i])
    ensures r == [] || !IsWhite(r[0])
    decreases |s|
  {
    if s != [] && IsWhite(s[0]) then TrimStart(s[1..]) else s
  }

  /** Trailing whitespace removed: a prefix of `s`, everything cut was white,
      and what is left does not end with white. */
  function TrimEnd(s: string): (r: string)
    ensures |r| <= |s| && r == s[..|r|]
    ensures forall i :: |r| <= i < |s| ==> IsWhite(s[i])
    ensures r == [] || !IsWhite(r[|r| - 1])
    decreases |s|
  {
    if s != [] && IsWhite(s[|s| - 1]) then TrimEnd(s[..|s| - 1]) else s
  }

  /** `r` is `s` with its leading and trailing whitespace removed: the slice
      of `s` starting at `lo`, white on both sides, and with no white at
      either of its own ends. */
  ghost predicate TrimmedAt(r: string, s: string, lo: int)
  {
    && 0 <= lo && lo + |r| <= |s|
    && r == s[lo..lo + |r|]
    && (forall i :: 0 <= i < lo ==> IsWhite(s[i]))
    && (forall i :: lo + |r| <= i < |s| ==> IsWhite(s[i]))
    && (r == [] || (!IsWhite(r[0]) && !IsWhite(r[|r| - 1])))
  }

  ghost predicate TrimmedOf(r: string, s: string)
  {
    exists lo :: TrimmedAt(r, s, lo)
  }

  /** `String.prototype.trim`. Empty exactly when `s` is blank, which is what
      the test `!s.trim()` asks. */
  function Trim(s: string): (r: string)
    ensures |r| <= |s|
    ensures r == [] <==> IsBlank(s)
  {
    TrimEndOfStart(s);
    TrimEnd(TrimStart(s))
  }

  /** Trimming the start and then the end leaves the trimmed slice of `s`. */
  lemma TrimEndOfStart(s: string)
    ensures TrimmedAt(TrimEnd(TrimStart(s)), s, |s| - |TrimStart(s)|)
    ensures TrimEnd(TrimStart(s)) == [] <==> IsBlank(s)
  {
    var t := TrimStart(s);
    var r := TrimEnd(t);
    assert TrimmedAt(r, s, |s| - |t|);
    TrimmedEmptyIffBlank(r, s, |s| - |t|);
  }

  /** `Trim` removes exactly the leading and trailing whitespace. */
  lemma TrimIsTrimmed(s: string)
    ensures TrimmedOf(Trim(s), s)
  {
    TrimEndOfStart(s);
  }

  /** A trim of `s` is empty exactly when `s` is blank. */
  lemma TrimmedEmptyIffBlank(r: string, s: string, lo: int)
    requires TrimmedAt(r, s, lo)
    ensures r == [] <==> IsBlank(s)
  {
    if r != [] {
      assert s[lo] == r[0];
    } else {
      forall i | 0 <= i < |s| ensures IsWhite(s[i]) {
        if i >= lo { assert lo + |r| <= i; }
      }
    }
  }

  /** There is only one way to trim a string: `Trim` is the trim. */
  lemma TrimmedUnique(r1: string, r2: string, s: string)
    requires TrimmedOf(r1, s) && TrimmedOf(r2, s)
    ensures r1 == r2
  {
    var lo1 :| TrimmedAt(r1, s, lo1);
    var lo2 :| TrimmedAt(r2, s, lo2);
    TrimmedEmptyIffBlank(r1, s, lo1);
    TrimmedEmptyIffBlank(r2, s, lo2);
    if r1 != [] {
      assert s[lo1] == r1[0] && s[lo2] == r2[0];
      assert lo1 == lo2;
      var hi1, hi2 := lo1 + |r1| - 1, lo2 + |r2| - 1;
      assert s[hi1] == r1[|r1| - 1] && s[hi2] == r2[|r2| - 1];
      assert hi1 == hi2;
    }
  }

  /** Trimming a string that is white, then some text with no white at its
      ends, then white again gives back exactly that text. */
  lemma TrimPadded(pre: string, body: string, post: string)
    requires IsBlank(pre) && IsBlank(post)
    requires body != [] && !IsWhite(body[0]) && !IsWhite(body[|body| - 1])
    ensures Trim(pre + body + post) == body
  {
    var s := pre + body + post;
    assert TrimmedAt(body, s, |pre|);
    TrimIsTrimmed(s);
    TrimmedUnique(Trim(s), body, s);
  }

  /** `s.split(c)[0]`: the text before the first `c`, or all of `s` when it
      has no `c`. */
  function BeforeFirst(s: string, c: char): (r: string)
    ensures |r| <= |s| && r == s[..|r|]
    ensures c !in r
    ensures |r| < |s| ==> s[|r|] == c
  {
    if s == [] || s[0] == c then [] else [s[0]] + BeforeFirst(s[1..], c)
  }

  /** The piece before the first `c` is everything before an occurrence of
      `c` that no earlier `c` precedes. */
  lemma {:induction false} BeforeFirstAt(a: string, c: char, b: string)
    requires c !in a
    ensures BeforeFirst(a + [c] + b, c) == a
  {
    if a != [] {
      assert (a + [c] + b)[1..] == a[1..] + [c] + b;
      BeforeFirstAt(a[1..], c, b);
    }
  }

  /** `xs.join(sep)`: the strings of `xs` with `sep` between neighbours. */
  function Join(xs: seq<string>, sep: string): (r: string)
    ensures xs == [] ==> r == []
    ensures |xs| == 1 ==> r == xs[0]
  {
    if xs == [] then []
    else if |xs| == 1 then xs[0]
    else xs[0] + sep + Join(xs[1..], sep)
  }

  /** A join starts with the first string and ends with the last. */
  lemma {:induction false} JoinEnds(xs: seq<string>, sep: string)
    requires xs != []
    ensures |Join(xs, sep)| >= |xs[0]| && Join(xs, sep)[..|xs[0]|] == xs[0]
    ensures |Join(xs, sep)| >= |xs[|xs| - 1]|
    ensures Join(xs, sep)[|Join(xs, sep)| - |xs[|xs| - 1]|..] == xs[|xs| - 1]
  {
    if |xs| > 1 {
      JoinEnds(xs[1..], sep);
      var rest := Join(xs[1..], sep);
      assert Join(xs, sep) == xs[0] + sep + rest;
      assert xs[1..][|xs[1..]| - 1] == xs[|xs| - 1];
    }
  }

  /** Appending a string to a non-empty array adds one separator and that
      string at the end of the join. */
  lemma {:induction false} JoinSnoc(xs: seq<string>, x: string, sep: string)
    requires xs != []
    ensures Join(xs + [x], sep) == Join(xs, sep) + sep + x
  {
    var ys := xs + [x];
    assert ys[0] == xs[0];
    if |xs| > 1 {
      assert ys[1..] == xs[1..] + [x];
      JoinSnoc(xs[1..], x, sep);
      calc {
        Join(ys, sep);
        xs[0] + sep + Join(xs[1..] + [x], sep);
        xs[0] + sep + (Join(xs[1..], sep) + sep + x);
        xs[0] + sep + Join(xs[1..], sep) + sep + x;
      }
    } else {
      assert ys[1..] == [x];
      assert Join(ys, sep) == xs[0] + sep + Join([x], sep);
    }
  }
}
