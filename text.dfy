/** The JavaScript string operations the application relies on:
    `trim`, the regular-expression class `\s`, `toLowerCase`, `includes`,
    `split` on a one-character separator, `join`, and the decimal rendering
    of a count inside a template literal. */
module JsText {

  /** A code unit that `String.prototype.trim` removes and `\s` matches:
      the ECMAScript WhiteSpace and LineTerminator characters. */
  predicate IsSpace(c: char) {
    || c == '\t' || c == '\U{000B}' || c == '\U{000C}' || c == ' '
    || c == '\U{00A0}' || c == '\U{1680}' || ('\U{2000}' <= c <= '\U{200A}')
    || c == '\U{202F}' || c == '\U{205F}' || c == '\U{3000}' || c == '\U{FEFF}'
    || IsLineTerminator(c)
  }

  /** The characters that `.` in a regular expression does not match. */
  predicate IsLineTerminator(c: char) {
    c == '\n' || c == '\r' || c == '\U{2028}' || c == '\U{2029}'
  }

  predicate AllSpace(s: string) {
    forall i :: 0 <= i < |s| ==> IsSpace(s[i])
  }

  /** No surrounding whitespace: what `trim` leaves behind. */
  predicate Trimmed(s: string) {
    s == [] || (!IsSpace(s[0]) && !IsSpace(s[|s| - 1]))
  }

  /** The first index at or after `i` that does not hold whitespace, or
      `|s|`. */
  function SkipSpace(s: string, i: nat): (j: nat)
    requires i <= |s|
    ensures i <= j <= |s|
    ensures forall k :: i <= k < j ==> IsSpace(s[k])
    ensures j < |s| ==> !IsSpace(s[j])
    decreases |s| - i
  {
    if i == |s| || !IsSpace(s[i]) then i else SkipSpace(s, i + 1)
  }

  /** The index just after the last non-whitespace character of
      `s[lo..hi]`, or `lo`. */
  function SkipSpaceBack(s: string, lo: nat, hi: nat): (j: nat)
    requires lo <= hi <= |s|
    ensures lo <= j <= hi
    ensures forall k :: j <= k < hi ==> IsSpace(s[k])
    ensures j > lo ==> !IsSpace(s[j - 1])
    decreases hi - lo
  {
    if hi == lo || !IsSpace(s[hi - 1]) then hi else SkipSpaceBack(s, lo, hi - 1)
  }

  /** How much leading whitespace `trim` removes. */
  function TrimOffset(s: string): nat
    ensures TrimOffset(s) <= |s|
  {
    SkipSpace(s, 0)
  }

  /** Where the trailing whitespace removed by `trim` begins. */
  function TrimLimit(s: string): nat
    ensures TrimOffset(s) <= TrimLimit(s) <= |s|
  {
    SkipSpaceBack(s, TrimOffset(s), |s|)
  }

  /** `s.trim()`: the slice of `s` left after removing whitespace on both
      sides; only whitespace is removed. */
  function Trim(s: string): (r: string)
    ensures Trimmed(r)
    ensures TrimOffset(s) + |r| <= |s| && r == s[TrimOffset(s)..TrimOffset(s) + |r|]
    ensures AllSpace(s[..TrimOffset(s)]) && AllSpace(s[TrimOffset(s) + |r|..])
  {
    s[TrimOffset(s)..TrimLimit(s)]
  }

  /** `SkipSpace` is determined by its contract. */
  lemma SkipSpaceUnique(s: string, i: nat, j: nat)
    requires i <= j <= |s|
    requires forall k :: i <= k < j ==> IsSpace(s[k])
    requires j < |s| ==> !IsSpace(s[j])
    ensures SkipSpace(s, i) == j
  {
  }

  /** `SkipSpaceBack` is determined by its contract. */
  lemma SkipSpaceBackUnique(s: string, lo: nat, hi: nat, j: nat)
    requires lo <= j <= hi <= |s|
    requires forall k :: j <= k < hi ==> IsSpace(s[k])
    requires j > lo ==> !IsSpace(s[j - 1])
    ensures SkipSpaceBack(s, lo, hi) == j
  {
  }

  lemma TrimOfTrimmed(s: string)
    requires Trimmed(s)
    ensures Trim(s) == s
  {
    if s != [] {
      SkipSpaceUnique(s, 0, 0);
      SkipSpaceBackUnique(s, 0, |s|, |s|);
    }
  }

  /** Leading and trailing whitespace do not survive `trim`. */
  lemma TrimPadded(pre: string, s: string, post: string)
    requires AllSpace(pre) && AllSpace(post) && Trimmed(s)
    ensures Trim(pre + s + post) == s
  {
    var t := pre + s + post;
    if s == [] {
      SkipSpaceUnique(t, 0, |t|);
      assert t[|t|..|t|] == s;
    } else {
      assert t[|pre|] == s[0];
      SkipSpaceUnique(t, 0, |pre|);
      assert t[|pre| + |s| - 1] == s[|s| - 1];
      SkipSpaceBackUnique(t, |pre|, |t|, |pre| + |s|);
      assert t[|pre|..|pre| + |s|] == s;
    }
  }

  /** One blank in front does not survive `trim`. */
  lemma TrimBlankFront(s: string)
    requires Trimmed(s)
    ensures Trim(" " + s) == s
  {
    assert " " + s + "" == " " + s;
    TrimPadded(" ", s, "");
  }

  /** Lines without a line terminator, which `.` matches throughout. */
  predicate NoLineTerminator(s: string) {
    forall i :: 0 <= i < |s| ==> !IsLineTerminator(s[i])
  }

  /** ASCII part of `toLowerCase`. */
  function LowerChar(c: char): char {
    if 'A' <= c <= 'Z' then (c as int + 32) as char else c
  }

  /** `s.toLowerCase()`, character by character. */
  function Lower(s: string): (r: string)
    ensures |r| == |s|
    ensures forall i :: 0 <= i < |s| ==> r[i] == LowerChar(s[i])
  {
    seq(|s|, i requires 0 <= i < |s| => LowerChar(s[i]))
  }

  /** Lower-casing never creates or removes whitespace. */
  lemma LowerSpace(c: char)
    ensures IsSpace(LowerChar(c)) <==> IsSpace(c)
  {
  }

  lemma LowerIdempotent(s: string)
    ensures Lower(Lower(s)) == Lower(s)
  {
  }

  /** Trimming and lower-casing commute, so `s.toLowerCase().trim()` and a
      schema that trims and then lower-cases compute the same key. */
  lemma TrimLower(s: string)
    ensures Trim(Lower(s)) == Lower(Trim(s))
  {
    var l := Lower(s);
    forall k | 0 <= k < |s| ensures IsSpace(l[k]) <==> IsSpace(s[k]) {
      LowerSpace(s[k]);
    }
    var a := TrimOffset(s);
    SkipSpaceUnique(l, 0, a);
    var b := TrimLimit(s);
    SkipSpaceBackUnique(l, a, |l|, b);
    assert l[a..b] == Lower(s[a..b]);
  }

  /** `s.includes(sub)`. The empty string is contained in every string. */
  predicate Contains(s: string, sub: string) {
    exists i :: 0 <= i <= |s| - |sub| && OccursAt(s, sub, i)
  }

  predicate OccursAt(s: string, sub: string, i: nat)
    requires i + |sub| <= |s|
  {
    s[i..i + |sub|] == sub
  }

  /** `c` does not occur in `s`. */
  predicate Free(s: string, c: char) {
    forall j :: 0 <= j < |s| ==> s[j] != c
  }

  lemma FreeSlice(s: string, c: char, i: nat, j: nat)
    requires Free(s, c) && i <= j <= |s|
    ensures Free(s[i..j], c)
  {
    assert forall k :: 0 <= k < j - i ==> s[i..j][k] == s[i + k];
  }

  /** Trimming removes characters and adds none. */
  lemma FreeTrim(s: string, c: char)
    requires Free(s, c)
    ensures Free(Trim(s), c)
  {
    FreeSlice(s, c, TrimOffset(s), TrimLimit(s));
  }

  /** Index of the first occurrence of `c` in `s`, or `|s|` when there is
      none (`indexOf` with -1 read as the length). */
  function Find(s: string, c: char): (i: nat)
    ensures i <= |s| && Free(s[..i], c)
    ensures i < |s| ==> s[i] == c
  {
    if s == [] then 0
    else if s[0] == c then 0
    else
      var i := 1 + Find(s[1..], c);
      assert s[..i] == [s[0]] + s[1..][..i - 1];
      i
  }

  /** `s.split(c)` for a one-character separator: the maximal separator-free
      pieces, in order; an empty string gives one empty piece. */
  function Split(s: string, c: char): (r: seq<string>)
    ensures |r| >= 1
    decreases |s|
  {
    var i := Find(s, c);
    if i == |s| then [s]
    else [s[..i]] + Split(s[i + 1..], c)
  }

  /** `xs.join(sep)`. */
  function Join(xs: seq<string>, sep: string): string
  {
    if |xs| == 0 then ""
    else if |xs| == 1 then xs[0]
    else xs[0] + sep + Join(xs[1..], sep)
  }

  /** No piece contains the separator. */
  lemma {:induction false} SplitPiecesFree(s: string, c: char)
    ensures forall k :: 0 <= k < |Split(s, c)| ==> Free(Split(s, c)[k], c)
    decreases |s|
  {
    var i := Find(s, c);
    if i < |s| {
      SplitPiecesFree(s[i + 1..], c);
    }
  }

  /** Joining the pieces with the separator gives back the string. */
  lemma {:induction false} JoinSplit(s: string, c: char)
    ensures Join(Split(s, c), [c]) == s
    decreases |s|
  {
    var i := Find(s, c);
    if i < |s| {
      var rest := Split(s[i + 1..], c);
      JoinSplit(s[i + 1..], c);
      var xs := [s[..i]] + rest;
      assert Split(s, c) == xs;
      assert |xs| >= 2 && xs[0] == s[..i] && xs[1..] == rest;
      assert Join(xs, [c]) == s[..i] + [c] + s[i + 1..];
      assert s == s[..i] + [c] + s[i + 1..];
    }
  }

  /** The first occurrence in `a + b` of a character absent from `a`. */
  lemma {:induction false} FindAfterFree(a: string, b: string, c: char)
    requires Free(a, c)
    ensures Find(a + b, c) == |a| + Find(b, c)
    decreases |a|
  {
    if a != [] {
      assert (a + b)[1..] == a[1..] + b;
      FindAfterFree(a[1..], b, c);
    } else {
      assert a + b == b;
    }
  }

  /** A separator-free prefix sticks to the first piece. */
  lemma {:induction false} SplitPrefix(p: string, s: string, c: char)
    requires Free(p, c)
    ensures Split(p + s, c) == [p + Split(s, c)[0]] + Split(s, c)[1..]
  {
    var i := Find(s, c);
    FindAfterFree(p, s, c);
    if i < |s| {
      assert (p + s)[..|p| + i] == p + s[..i];
      assert (p + s)[|p| + i + 1..] == s[i + 1..];
    }
  }

  /** A separator at the front yields an empty first piece. */
  lemma {:induction false} SplitAfterSeparator(s: string, c: char)
    ensures Split([c] + s, c) == [""] + Split(s, c)
  {
    var t := [c] + s;
    assert Find(t, c) == 0;
    assert t[..0] == "";
    assert t[1..] == s;
  }

  /** Splitting a join of separator-free pieces gives back the pieces. */
  lemma {:induction false} SplitJoin(xs: seq<string>, c: char)
    requires |xs| >= 1
    requires forall k :: 0 <= k < |xs| ==> Free(xs[k], c)
    ensures Split(Join(xs, [c]), c) == xs
  {
    if |xs| > 1 {
      var tail := Join(xs[1..], [c]);
      var after := [c] + tail;
      SplitJoin(xs[1..], c);
      SplitAfterSeparator(tail, c);
      SplitPrefix(xs[0], after, c);
      assert Join(xs, [c]) == xs[0] + after;
      assert xs[0] + "" == xs[0];
      assert xs == [xs[0]] + xs[1..];
    }
  }

  /** Every element with a blank in front. */
  function Padded(xs: seq<string>): (r: seq<string>)
    ensures |r| == |xs|
    ensures forall k :: 0 <= k < |xs| ==> r[k] == " " + xs[k]
  {
    seq(|xs|, k requires 0 <= k < |xs| => " " + xs[k])
  }

  lemma {:induction false} PaddedCons(xs: seq<string>)
    requires |xs| >= 1
    ensures Padded(xs) == [" " + xs[0]] + Padded(xs[1..])
  {
  }

  /** Splitting a `", "`-join on `','` gives the first element and every
      later one with its blank in front. */
  lemma {:induction false} SplitCommaSpace(xs: seq<string>)
    requires |xs| >= 1
    requires forall k :: 0 <= k < |xs| ==> Free(xs[k], ',')
    ensures Split(Join(xs, ", "), ',') == [xs[0]] + Padded(xs[1..])
  {
    if |xs| > 1 {
      var rest := xs[1..];
      var tail := Join(rest, ", ");
      var blankTail := " " + tail;
      var after := [','] + blankTail;
      SplitCommaSpace(rest);
      SplitPrefix(" ", tail, ',');
      PaddedCons(rest);
      SplitAfterSeparator(blankTail, ',');
      SplitPrefix(xs[0], after, ',');
      assert Join(xs, ", ") == xs[0] + after;
      assert xs[0] + "" == xs[0];
    }
  }

  predicate IsDigit(c: char) {
    '0' <= c <= '9'
  }

  function DigitChar(d: nat): (c: char)
    requires d < 10
    ensures IsDigit(c)
  {
    ('0' as int + d) as char
  }

  /** The decimal text of a count, as a template literal renders it. */
  function NatToString(n: nat): (r: string)
    ensures |r| >= 1
    ensures forall i :: 0 <= i < |r| ==> IsDigit(r[i])
    ensures |r| > 1 ==> r[0] != '0'
  {
    if n < 10 then [DigitChar(n)] else NatToString(n / 10) + [DigitChar(n % 10)]
  }

  /** The value of a string of decimal digits. */
  function DecimalValue(s: string): nat
    requires forall i :: 0 <= i < |s| ==> IsDigit(s[i])
  {
    if s == [] then 0
    else
      assert IsDigit(s[|s| - 1]);
      10 * DecimalValue(s[..|s| - 1]) + (s[|s| - 1] as int - '0' as int)
  }

  /** Reading the digits back gives the count, so each message carries its
      count unambiguously. */
  lemma {:induction false} NatToStringValue(n: nat)
    ensures DecimalValue(NatToString(n)) == n
  {
    if n >= 10 {
      NatToStringValue(n / 10);
      var r := NatToString(n);
      assert r[..|r| - 1] == NatToString(n / 10);
    }
  }
}
