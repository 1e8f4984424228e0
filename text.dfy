/**
 * Character classes and the `str` methods the core relies on (`lower`, `strip`,
 * `split`), restricted to ASCII: Python's Unicode case mapping and its
 * non-ASCII whitespace, digits and word characters are not modelled.
 */
module Text {

  /** Python's `\s` and `str.isspace()` on ASCII: space, \t \n \v \f \r and \x1c-\x1f. */
  predicate IsSpace(c: char) {
    c == ' ' || ('\t' <= c <= '\r') || ('\U{1C}' <= c <= '\U{1F}')
  }

  /** Python's `\d` on ASCII. */
  predicate IsDigit(c: char) { '0' <= c <= '9' }

  predicate IsAsciiUpper(c: char) { 'A' <= c <= 'Z' }

  /** Python's `\w` on ASCII: letters, digits and the underscore. */
  predicate IsWordChar(c: char) {
    ('a' <= c <= 'z') || IsAsciiUpper(c) || IsDigit(c) || c == '_'
  }

  function LowerChar(c: char): (d: char)
    ensures !IsAsciiUpper(d)
    ensures !IsAsciiUpper(c) ==> d == c
    ensures IsAsciiUpper(c) ==> d as int == c as int + 32
    ensures IsSpace(d) <==> IsSpace(c)
  {
    if IsAsciiUpper(c) then (c as int + 32) as char else c
  }

  /** `str.lower()` on ASCII letters; every other character is kept. */
  function Lower(s: string): (r: string)
    ensures |r| == |s|
    ensures forall i :: 0 <= i < |s| ==> r[i] == LowerChar(s[i])
  {
    seq(|s|, i requires 0 <= i < |s| => LowerChar(s[i]))
  }

  /** Lowering twice is lowering once: no upper-case letter survives `Lower`. */
  lemma LowerIdempotent(s: string)
    ensures Lower(Lower(s)) == Lower(s)
  {
  }

  /** No ASCII upper-case letter occurs in `s`. */
  predicate NoUpper(s: string) {
    forall i :: 0 <= i < |s| ==> !IsAsciiUpper(s[i])
  }

  /** A string without upper-case letters is its own lower-case form. */
  lemma LowerOfLower(s: string)
    requires NoUpper(s)
    ensures Lower(s) == s
  {
  }

  /** Length of the longest prefix of `s` without whitespace. */
  function NonSpaceRun(s: string): (n: nat)
    ensures n <= |s|
    ensures forall i :: 0 <= i < n ==> !IsSpace(s[i])
    ensures n == |s| || IsSpace(s[n])
  {
    if s == [] || IsSpace(s[0]) then 0 else 1 + NonSpaceRun(s[1..])
  }

  /** Length of the longest whitespace prefix of `s`. */
  function SpaceRun(s: string): (n: nat)
    ensures n <= |s|
    ensures forall i :: 0 <= i < n ==> IsSpace(s[i])
    ensures n == |s| || !IsSpace(s[n])
  {
    if s == [] || !IsSpace(s[0]) then 0 else 1 + SpaceRun(s[1..])
  }

  /** Length of the longest prefix of `s` made of digits. */
  function DigitRun(s: string): (n: nat)
    ensures n <= |s|
    ensures forall i :: 0 <= i < n ==> IsDigit(s[i])
    ensures n == |s| || !IsDigit(s[n])
  {
    if s == [] || !IsDigit(s[0]) then 0 else 1 + DigitRun(s[1..])
  }

  /** `s` with its leading whitespace removed (`str.lstrip()`). */
  function TrimStart(s: string): (r: string)
    ensures |r| <= |s| && r == s[|s| - |r|..]
    ensures r == [] || !IsSpace(r[0])
    ensures forall i :: 0 <= i < |s| - |r| ==> IsSpace(s[i])
  {
    if s != [] && IsSpace(s[0]) then TrimStart(s[1..]) else s
  }

  /** `s` with its trailing whitespace removed (`str.rstrip()`). */
  function TrimEnd(s: string): (r: string)
    ensures |r| <= |s| && r == s[..|r|]
    ensures r == [] || !IsSpace(r[|r| - 1])
    ensures forall i :: |r| <= i < |s| ==> IsSpace(s[i])
  {
    if s != [] && IsSpace(s[|s| - 1]) then TrimEnd(s[..|s| - 1]) else s
  }

  /**
   * `str.strip()`: the slice of `s` that starts after its leading whitespace
   * and neither starts nor ends with whitespace.
   */
  function Strip(s: string): (r: string)
    ensures |r| <= |s|
    ensures r == [] || (!IsSpace(r[0]) && !IsSpace(r[|r| - 1]))
  {
    TrimEnd(TrimStart(s))
  }

  /**
   * What `Strip` keeps is one contiguous slice of `s`, and everything before
   * and after that slice is whitespace.
   */
  lemma StripSlice(s: string)
    ensures |s| - |TrimStart(s)| + |Strip(s)| <= |s|
    ensures Strip(s) == s[|s| - |TrimStart(s)|..|s| - |TrimStart(s)| + |Strip(s)|]
    ensures forall i :: 0 <= i < |s| - |TrimStart(s)| ==> IsSpace(s[i])
    ensures forall i :: |s| - |TrimStart(s)| + |Strip(s)| <= i < |s| ==> IsSpace(s[i])
  {
    var t := TrimStart(s);
    var r := TrimEnd(t);
    assert Strip(s) == r;
    SuffixPrefix(s, t, r);
  }

  /** A prefix `r` of a suffix `t` of `s`, followed in `t` by whitespace only. */
  lemma SuffixPrefix(s: string, t: string, r: string)
    requires |t| <= |s| && t == s[|s| - |t|..]
    requires |r| <= |t| && r == t[..|r|]
    requires forall i :: |r| <= i < |t| ==> IsSpace(t[i])
    ensures r == s[|s| - |t|..|s| - |t| + |r|]
    ensures forall i :: |s| - |t| + |r| <= i < |s| ==> IsSpace(s[i])
  {
    var lo := |s| - |t|;
    forall i | lo + |r| <= i < |s| ensures IsSpace(s[i]) {
      assert s[i] == t[i - lo];
    }
  }

  /** A string that neither starts nor ends with whitespace is its own stripped form. */
  lemma StripNoEdgeSpace(s: string)
    requires s == [] || (!IsSpace(s[0]) && !IsSpace(s[|s| - 1]))
    ensures Strip(s) == s
  {
  }

  /** Stripping twice is stripping once. */
  lemma StripIdempotent(s: string)
    ensures Strip(Strip(s)) == Strip(s)
  {
    StripNoEdgeSpace(Strip(s));
  }

  /** `str.split()` without arguments: the maximal runs of non-whitespace characters, in order. */
  function Split(s: string): (words: seq<string>)
    ensures forall k :: 0 <= k < |words| ==> words[k] != []
    ensures forall k, i :: 0 <= k < |words| && 0 <= i < |words[k]| ==> !IsSpace(words[k][i])
    decreases |s|
  {
    var t := TrimStart(s);
    if t == [] then []
    else
      var n := NonSpaceRun(t);
      assert 0 < n <= |t| <= |s|;
      var w := t[..n];
      assert forall i :: 0 <= i < |w| ==> w[i] == t[i];
      var rest := Split(t[n..]);
      ConsWord(w, rest);
      [w] + rest
  }

  lemma ConsWord(w: string, rest: seq<string>)
    requires w != [] && forall i :: 0 <= i < |w| ==> !IsSpace(w[i])
    requires forall k :: 0 <= k < |rest| ==> rest[k] != []
    requires forall k, i :: 0 <= k < |rest| && 0 <= i < |rest[k]| ==> !IsSpace(rest[k][i])
    ensures forall k :: 0 <= k < |[w] + rest| ==> ([w] + rest)[k] != []
    ensures forall k, i :: 0 <= k < |[w] + rest| && 0 <= i < |([w] + rest)[k]| ==> !IsSpace(([w] + rest)[k][i])
  {
    var words := [w] + rest;
    assert forall k :: 1 <= k < |words| ==> words[k] == rest[k - 1];
  }

  lemma {:induction false} RunBeforeSpace(t: string, b: string)
    requires NonSpaceRun(t) == |t|
    requires b == [] || IsSpace(b[0])
    ensures NonSpaceRun(t + b) == |t|
    decreases |t|
  {
    if t == [] {
      assert t + b == b;
    } else {
      var tb := t + b;
      assert tb[0] == t[0] && !IsSpace(t[0]);
      assert tb[1..] == t[1..] + b;
      RunBeforeSpace(t[1..], b);
    }
  }

  /** A leading whitespace character contributes nothing to the words. */
  lemma SplitSpaceCons(s: string)
    requires s != [] && IsSpace(s[0])
    ensures Split(s) == Split(s[1..])
  {
  }

  /** A whitespace-free prefix followed by whitespace (or nothing) is the first word. */
  lemma SplitWordCons(p: string, x: string)
    requires p != [] && NonSpaceRun(p) == |p|
    requires x == [] || IsSpace(x[0])
    ensures Split(p + x) == [p] + Split(x)
  {
    RunBeforeSpace(p, x);
    var px := p + x;
    assert px[0] == p[0];
    assert TrimStart(px) == px;
    assert px[..|p|] == p && px[|p|..] == x;
  }

  /** A nonempty whitespace-free string is a single word. */
  lemma SplitOneWord(w: string)
    requires w != [] && NonSpaceRun(w) == |w|
    ensures Split(w) == [w]
  {
    SplitWordCons(w, []);
    assert w + [] == w;
  }

  /** Leading whitespace of any length contributes nothing to the words. */
  lemma {:induction false} SplitDropSpaces(s: string)
    ensures Split(s) == Split(s[SpaceRun(s)..])
    decreases |s|
  {
    if s != [] && IsSpace(s[0]) {
      SplitSpaceCons(s);
      SplitDropSpaces(s[1..]);
      assert s[1..][SpaceRun(s[1..])..] == s[SpaceRun(s)..];
    }
  }

  /**
   * Splitting before whitespace splits the words: the words of `a + y`, where
   * `y` starts with whitespace, are those of `a` followed by those of `y`.
   * With `SplitOneWord` this determines `Split` on every string.
   */
  lemma {:induction false} SplitBeforeSpace(a: string, y: string)
    requires y != [] && IsSpace(y[0])
    ensures Split(a + y) == Split(a) + Split(y)
    decreases |a|
  {
    if a == [] {
      assert a + y == y;
    } else if IsSpace(a[0]) {
      SplitBeforeSpace(a[1..], y);
      SplitLeadingSpace(a, y);
    } else {
      var n := NonSpaceRun(a);
      RunPrefix(a, n);
      if n == |a| {
        SplitWordCons(a, y);
        SplitOneWord(a);
      } else {
        SplitBeforeSpace(a[n..], y);
        SplitAfterWord(a[..n], a[n..], y);
      }
    }
  }

  lemma SplitLeadingSpace(a: string, y: string)
    requires a != [] && IsSpace(a[0])
    requires Split(a[1..] + y) == Split(a[1..]) + Split(y)
    ensures Split(a + y) == Split(a) + Split(y)
  {
    TailOfConcat(a, y);
    var s := a + y;
    SplitSpaceCons(s);
    assert Split(s) == Split(s[1..]);
  }

  lemma TailOfConcat(a: string, y: string)
    requires a != []
    ensures (a + y)[1..] == a[1..] + y
  {
  }

  lemma ConcatAssoc(p: string, x: string, y: string)
    ensures p + x + y == p + (x + y)
  {
  }

  lemma WordsAssoc(a: seq<string>, b: seq<string>, c: seq<string>)
    ensures a + b + c == a + (b + c)
  {
  }

  lemma SplitAfterWord(p: string, x: string, y: string)
    requires p != [] && NonSpaceRun(p) == |p| && x != [] && IsSpace(x[0])
    requires Split(x + y) == Split(x) + Split(y)
    ensures Split(p + x + y) == Split(p + x) + Split(y)
  {
    ConcatAssoc(p, x, y);
    var xy := x + y;
    assert xy[0] == x[0];
    SplitWordCons(p, xy);
    SplitWordCons(p, x);
    WordsAssoc([p], Split(x), Split(y));
  }

  /** The words of `a + [c] + b`, for a whitespace character `c`, are those of `a` followed by those of `b`. */
  lemma SplitAtSpace(a: string, c: char, b: string)
    requires IsSpace(c)
    ensures Split(a + [c] + b) == Split(a) + Split(b)
  {
    var y := [c] + b;
    assert a + [c] + b == a + y;
    SplitBeforeSpace(a, y);
    SplitSpaceCons(y);
    assert y[1..] == b;
  }

  /** Number of word starts in `s` when the character before it was whitespace exactly if `afterSpace`. */
  function WordStartsAfter(afterSpace: bool, s: string): nat
    decreases |s|
  {
    if s == [] then 0
    else (if afterSpace && !IsSpace(s[0]) then 1 else 0) + WordStartsAfter(IsSpace(s[0]), s[1..])
  }

  /** Number of positions of `s` holding a non-whitespace character at the start or after whitespace. */
  function WordStarts(s: string): nat {
    WordStartsAfter(true, s)
  }

  /** Inside a word no new word starts until the next whitespace character. */
  lemma {:induction false} StartsAfterRun(q: string, x: string)
    requires NonSpaceRun(q) == |q|
    requires x == [] || IsSpace(x[0])
    ensures WordStartsAfter(false, q + x) == WordStartsAfter(true, x)
    decreases |q|
  {
    if q == [] {
      assert q + x == x;
    } else {
      var qx := q + x;
      assert qx[0] == q[0] && qx[1..] == q[1..] + x;
      StartsAfterRun(q[1..], x);
    }
  }

  /** `Split` yields one word per word start. */
  lemma {:induction false} SplitCountsWordStarts(s: string)
    ensures |Split(s)| == WordStarts(s)
    decreases |s|
  {
    if s == [] {
    } else if IsSpace(s[0]) {
      SplitSpaceCons(s);
      SplitCountsWordStarts(s[1..]);
    } else {
      var n := NonSpaceRun(s);
      RunPrefix(s, n);
      SplitCountsWordStarts(s[n..]);
      CountAfterWord(s, s[..n], s[n..]);
    }
  }

  lemma CountAfterWord(s: string, p: string, x: string)
    requires s == p + x && p != [] && NonSpaceRun(p) == |p| && (x == [] || IsSpace(x[0]))
    requires |Split(x)| == WordStarts(x)
    ensures |Split(s)| == WordStarts(s)
  {
    SplitWordCons(p, x);
    TailOfConcat(p, x);
    StartsAfterRun(p[1..], x);
    assert WordStartsAfter(true, s) == 1 + WordStartsAfter(false, s[1..]);
  }

  /** The prefix of length `NonSpaceRun(s)` of `s` is whitespace-free to its end. */
  lemma RunPrefix(s: string, n: nat)
    requires n == NonSpaceRun(s)
    ensures NonSpaceRun(s[..n]) == n
    ensures n < |s| ==> s[n..] != [] && IsSpace(s[n..][0])
    ensures s == s[..n] + s[n..]
  {
    var p := s[..n];
    assert s == p + s[n..];
    assert forall i :: 0 <= i < |p| ==> !IsSpace(p[i]);
    RunOfNonSpace(p);
  }

  /** A whitespace-free string is one run. */
  lemma {:induction false} RunOfNonSpace(p: string)
    requires forall i :: 0 <= i < |p| ==> !IsSpace(p[i])
    ensures NonSpaceRun(p) == |p|
    decreases |p|
  {
    if p != [] {
      assert forall i :: 0 <= i < |p[1..]| ==> !IsSpace(p[1..][i]) by {
        forall i | 0 <= i < |p[1..]| ensures !IsSpace(p[1..][i]) { assert p[1..][i] == p[i + 1]; }
      }
      RunOfNonSpace(p[1..]);
    }
  }

  /** Number of whitespace-separated words of `s` (`len(s.split())`). */
  function WordCount(s: string): (n: nat)
    ensures n == WordStarts(s)
  {
    SplitCountsWordStarts(s);
    |Split(s)|
  }

  function DigitChar(d: nat): (c: char)
    requires d < 10
    ensures IsDigit(c) && DigitValue(c) == d
  {
    ('0' as int + d) as char
  }

  function DigitValue(c: char): nat
    requires IsDigit(c)
  {
    c as int - '0' as int
  }

  /** A nonempty string of decimal digits. */
  predicate IsDecimal(s: string) {
    s != [] && forall i :: 0 <= i < |s| ==> IsDigit(s[i])
  }

  /** The number a string of decimal digits denotes, most significant digit first. */
  function DecimalValue(s: string): nat
    requires forall i :: 0 <= i < |s| ==> IsDigit(s[i])
    decreases |s|
  {
    if s == [] then 0 else 10 * DecimalValue(s[..|s| - 1]) + DigitValue(s[|s| - 1])
  }

  /** Decimal notation of a natural number, as `str()` writes it: no leading zero, and it denotes `n`. */
  function NatToString(n: nat): (r: string)
    ensures IsDecimal(r)
    ensures DecimalValue(r) == n
    ensures r[0] == '0' <==> n == 0
  {
    if n < 10 then
      var r := [DigitChar(n)];
      assert r[..0] == [];
      r
    else
      var h := NatToString(n / 10);
      var r := h + [DigitChar(n % 10)];
      assert r[..|r| - 1] == h;
      r
  }

  /** Decimal notation of an integer, with a leading '-' exactly when it is negative. */
  function IntToString(i: int): (r: string)
    ensures r != [] && !IsSpace(r[0]) && !IsSpace(r[|r| - 1])
    ensures r[0] == '-' <==> i < 0
    ensures i >= 0 ==> IsDecimal(r) && DecimalValue(r) == i
    ensures i < 0 ==> IsDecimal(r[1..]) && DecimalValue(r[1..]) == -i
  {
    if i < 0 then
      var r := "-" + NatToString(-i);
      assert r[1..] == NatToString(-i);
      r
    else NatToString(i)
  }
}
