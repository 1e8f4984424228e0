/**
 * The text normaliser `clean_text` and its scikit-learn wrapper `TextCleaner`.
 *
 * `clean_text` is a chain of six regular-expression substitutions.  Each
 * `re.sub` is modelled as a left-to-right scan of the string it is given:
 * at each position either the pattern matches (the match is replaced by one
 * space and the scan resumes after it) or the character is copied.  Matches
 * are found in the original string, never in the replacement text.
 */
module Preprocessing {
  import opened Text

  /** The characters that the class `[^a-z\\s']` does not replace: a-z, backslash, apostrophe. */
  predicate KeptChar(c: char) {
    ('a' <= c <= 'z') || c == '\\' || c == '\''
  }

  /** The characters a cleaned text can contain. */
  predicate CleanChar(c: char) {
    KeptChar(c) || c == ' '
  }

  predicate NoAdjacentSpaces(s: string) {
    forall i :: 0 <= i < |s| - 1 ==> !(IsSpace(s[i]) && IsSpace(s[i + 1]))
  }

  /** The shape of every output of `CleanText`. */
  predicate IsCleaned(s: string) {
    && (forall i :: 0 <= i < |s| ==> CleanChar(s[i]))
    && NoAdjacentSpaces(s)
    && (s == [] || (s[0] != ' ' && s[|s| - 1] != ' '))
  }

  predicate StartsWith(s: string, p: string) {
    |p| <= |s| && s[..|p|] == p
  }

  /** The whitespace-free token at the start of `s` (empty when `s` starts with whitespace). */
  function Token(s: string): string {
    s[..NonSpaceRun(s)]
  }

  // ---------------------------------------------------------------------------
  // Step 2: `https?://\S+|www\.\S+`

  /**
   * The URL pattern matches at the start of `s`.  A prefix followed by `\S+`
   * lies inside the leading token, and the greedy `\S+` stops at the end of
   * that token, so the match is exactly `Token(s)`.
   */
  predicate UrlAt(s: string) {
    UrlToken(Token(s))
  }

  /** A token starting with `https://`, `http://` or `www.` with at least one character after that prefix. */
  predicate UrlToken(t: string) {
    || (StartsWith(t, "https://") && |t| > 8)
    || (StartsWith(t, "http://") && |t| > 7)
    || (StartsWith(t, "www.") && |t| > 4)
  }

  /** `re.sub` of the URL pattern: every match becomes one space, every other character is copied. */
  function StripUrls(s: string): string
    decreases |s|
  {
    if s == [] then []
    else if UrlAt(s) then " " + StripUrls(s[NonSpaceRun(s)..])
    else [s[0]] + StripUrls(s[1..])
  }

  // ---------------------------------------------------------------------------
  // Step 3: `\S+@\S+`

  /**
   * The e-mail pattern matches at the start of `s`: the leading token has an
   * '@' with at least one character before and one after it.  The second
   * greedy `\S+` ends the match at the end of the token.
   */
  predicate EmailAt(s: string) {
    var n := NonSpaceRun(s);
    n >= 3 && '@' in s[1..n - 1]
  }

  /** `re.sub` of the e-mail pattern: every match becomes one space, every other character is copied. */
  function StripEmails(s: string): string
    decreases |s|
  {
    if s == [] then []
    else if EmailAt(s) then " " + StripEmails(s[NonSpaceRun(s)..])
    else [s[0]] + StripEmails(s[1..])
  }

  // ---------------------------------------------------------------------------
  // Step 4: `\b\d{3,}\b`

  /**
   * The number pattern matches at the start of `s`, where `prevWord` tells
   * whether the character before it is a word character.  The leading `\b`
   * needs a non-word character (or the start) before the first digit; the
   * greedy `\d{3,}` takes the whole digit run, and the trailing `\b` needs a
   * non-word character (or the end) after it; backtracking to a shorter run
   * would end between two digits, where there is no boundary.
   */
  predicate NumberAt(prevWord: bool, s: string) {
    var n := DigitRun(s);
    !prevWord && n >= 3 && (n == |s| || !IsWordChar(s[n]))
  }

  function StripNumbersAfter(prevWord: bool, s: string): string
    decreases |s|
  {
    if s == [] then []
    else if NumberAt(prevWord, s) then " " + StripNumbersAfter(true, s[DigitRun(s)..])
    else [s[0]] + StripNumbersAfter(IsWordChar(s[0]), s[1..])
  }

  /** `re.sub` of the number pattern: every match becomes one space, every other character is copied. */
  function StripNumbers(s: string): string {
    StripNumbersAfter(false, s)
  }

  // ---------------------------------------------------------------------------
  // Step 5: `[^a-z\\s']` -> " "  (the class keeps a backslash and an 's', not whitespace)

  function FilterChars(s: string): (r: string)
    ensures |r| == |s|
    ensures forall i :: 0 <= i < |s| ==> r[i] == if KeptChar(s[i]) then s[i] else ' '
  {
    seq(|s|, i requires 0 <= i < |s| => if KeptChar(s[i]) then s[i] else ' ')
  }

  // ---------------------------------------------------------------------------
  // Step 6: `\s+` -> " "

  /** Replaces every maximal whitespace run by a single space. */
  function CollapseSpaces(s: string): (r: string)
    ensures NoAdjacentSpaces(r)
    ensures forall i :: 0 <= i < |r| && IsSpace(r[i]) ==> r[i] == ' '
    ensures forall i :: 0 <= i < |r| && !IsSpace(r[i]) ==> r[i] in s
    ensures r == [] <==> s == []
    ensures s != [] ==> (IsSpace(r[0]) <==> IsSpace(s[0]))
    decreases |s|
  {
    if s == [] then []
    else if IsSpace(s[0]) then " " + CollapseSpaces(s[SpaceRun(s)..])
    else [s[0]] + CollapseSpaces(s[1..])
  }

  /**
   * Collapsing whitespace keeps the words: `s.split()` of the collapsed text
   * is `s.split()` of the original, after any prefix `p`.
   */
  lemma {:induction false} CollapseKeepsWordsAfter(p: string, s: string)
    ensures Split(p + CollapseSpaces(s)) == Split(p + s)
    decreases |s|
  {
    if s == [] {
    } else if IsSpace(s[0]) {
      var k := SpaceRun(s);
      CollapseKeepsWordsAfter([], s[k..]);
      CollapseSpaceCase(p, s, k);
    } else {
      CollapseKeepsWordsAfter(p + [s[0]], s[1..]);
      CollapseWordCase(p, s);
    }
  }

  lemma CollapseSpaceCase(p: string, s: string, k: nat)
    requires s != [] && IsSpace(s[0]) && k == SpaceRun(s)
    requires Split([] + CollapseSpaces(s[k..])) == Split([] + s[k..])
    ensures Split(p + CollapseSpaces(s)) == Split(p + s)
  {
    var rest := CollapseSpaces(s[k..]);
    var cs := CollapseSpaces(s);
    assert cs == " " + rest;
    assert [] + rest == rest && [] + s[k..] == s[k..];
    SplitBeforeSpace(p, cs);
    SplitSpaceCons(cs);
    assert cs[1..] == rest;
    SplitBeforeSpace(p, s);
    SplitDropSpaces(s);
  }

  lemma CollapseWordCase(p: string, s: string)
    requires s != [] && !IsSpace(s[0])
    requires Split(p + [s[0]] + CollapseSpaces(s[1..])) == Split(p + [s[0]] + s[1..])
    ensures Split(p + CollapseSpaces(s)) == Split(p + s)
  {
    var cs := CollapseSpaces(s);
    assert cs == [s[0]] + CollapseSpaces(s[1..]);
    ConcatAssoc(p, [s[0]], CollapseSpaces(s[1..]));
    ConcatAssoc(p, [s[0]], s[1..]);
    assert [s[0]] + s[1..] == s;
  }

  /** `s.split()` of the collapsed text is `s.split()` of the original text. */
  lemma CollapseKeepsWords(s: string)
    ensures Split(CollapseSpaces(s)) == Split(s)
  {
    CollapseKeepsWordsAfter([], s);
    assert [] + CollapseSpaces(s) == CollapseSpaces(s) && [] + s == s;
  }

  // ---------------------------------------------------------------------------
  // clean_text

  /**
   * `clean_text`: total on every string; its output uses only a-z, apostrophe,
   * backslash and single inner spaces.
   */
  function CleanText(text: string): (r: string)
    ensures IsCleaned(r)
  {
    var f := FilterChars(StripNumbers(StripEmails(StripUrls(Lower(text)))));
    CollapsedAlphabet(f);
    StripShape(CollapseSpaces(f));
    Strip(CollapseSpaces(f))
  }

  lemma CollapsedAlphabet(s: string)
    requires forall i :: 0 <= i < |s| ==> CleanChar(s[i])
    ensures forall i :: 0 <= i < |CollapseSpaces(s)| ==> CleanChar(CollapseSpaces(s)[i])
  {
    var r := CollapseSpaces(s);
    forall i | 0 <= i < |r| ensures CleanChar(r[i]) {
      if !IsSpace(r[i]) {
        var j :| 0 <= j < |s| && s[j] == r[i];
      }
    }
  }

  /** Stripping a string of clean characters without adjacent spaces gives a cleaned string. */
  lemma StripShape(c: string)
    requires forall i :: 0 <= i < |c| ==> CleanChar(c[i])
    requires NoAdjacentSpaces(c)
    ensures IsCleaned(Strip(c))
  {
    var r := Strip(c);
    var lo := |c| - |TrimStart(c)|;
    StripSlice(c);
    forall i | 0 <= i < |r| ensures CleanChar(r[i]) && (i < |r| - 1 ==> !(IsSpace(r[i]) && IsSpace(r[i + 1]))) {
      assert r[i] == c[lo + i];
      if i < |r| - 1 {
        assert r[i + 1] == c[lo + i + 1];
      }
    }
  }

  /** The output of `CleanText` contains no digit. */
  lemma CleanTextNoDigits(text: string)
    ensures forall i :: 0 <= i < |CleanText(text)| ==> !IsDigit(CleanText(text)[i])
  {
    CleanedCharacters(CleanText(text));
  }

  // ---------------------------------------------------------------------------
  // Every substitution only shortens: a match becomes one space, the rest is copied.

  /** `StripUrls` never lengthens its input, and every character it outputs is a space or one of the input's. */
  lemma {:induction false} StripUrlsShape(s: string)
    ensures |StripUrls(s)| <= |s|
    ensures forall c :: c in StripUrls(s) ==> c == ' ' || c in s
    decreases |s|
  {
    if s != [] {
      var n := if UrlAt(s) then NonSpaceRun(s) else 1;
      StripUrlsShape(s[n..]);
      assert forall c :: c in s[n..] ==> c in s;
    }
  }

  /** `StripEmails` never lengthens its input, and every character it outputs is a space or one of the input's. */
  lemma {:induction false} StripEmailsShape(s: string)
    ensures |StripEmails(s)| <= |s|
    ensures forall c :: c in StripEmails(s) ==> c == ' ' || c in s
    decreases |s|
  {
    if s != [] {
      var n := if EmailAt(s) then NonSpaceRun(s) else 1;
      StripEmailsShape(s[n..]);
      assert forall c :: c in s[n..] ==> c in s;
    }
  }

  /** `StripNumbersAfter` never lengthens its input, and every character it outputs is a space or one of the input's. */
  lemma {:induction false} StripNumbersShape(prevWord: bool, s: string)
    ensures |StripNumbersAfter(prevWord, s)| <= |s|
    ensures forall c :: c in StripNumbersAfter(prevWord, s) ==> c == ' ' || c in s
    decreases |s|
  {
    if s != [] {
      if NumberAt(prevWord, s) {
        StripNumbersShape(true, s[DigitRun(s)..]);
        assert forall c :: c in s[DigitRun(s)..] ==> c in s;
      } else {
        StripNumbersShape(IsWordChar(s[0]), s[1..]);
        assert forall c :: c in s[1..] ==> c in s;
      }
    }
  }

  // ---------------------------------------------------------------------------
  // Idempotence: on a cleaned string every step matches nothing.

  /** Every URL prefix contains ':' or '.'. */
  lemma UrlNeedsColonOrDot(s: string)
    requires UrlAt(s)
    ensures ':' in s || '.' in s
  {
    var t := Token(s);
    if StartsWith(t, "https://") {
      assert t[..8][5] == ':' && s[5] == t[5];
    } else if StartsWith(t, "http://") {
      assert t[..7][4] == ':' && s[4] == t[4];
    } else {
      assert t[..4][3] == '.' && s[3] == t[3];
    }
  }

  /** Without ':' and '.' no URL prefix can occur, so `StripUrls` copies every character. */
  lemma {:induction false} StripUrlsNoUrl(s: string)
    requires ':' !in s && '.' !in s
    ensures StripUrls(s) == s
    decreases |s|
  {
    if s != [] {
      if UrlAt(s) {
        UrlNeedsColonOrDot(s);
      }
      StripUrlsNoUrl(s[1..]);
      assert s == [s[0]] + s[1..];
    }
  }

  /** Without '@' the e-mail pattern never matches. */
  lemma {:induction false} StripEmailsNoAt(s: string)
    requires '@' !in s
    ensures StripEmails(s) == s
    decreases |s|
  {
    if s != [] {
      var n := NonSpaceRun(s);
      if n >= 3 {
        assert forall c :: c in s[1..n - 1] ==> c in s;
      }
      assert !EmailAt(s);
      StripEmailsNoAt(s[1..]);
      assert s == [s[0]] + s[1..];
    }
  }

  /** Without digits the number pattern never matches. */
  lemma {:induction false} StripNumbersNoDigits(prevWord: bool, s: string)
    requires forall i :: 0 <= i < |s| ==> !IsDigit(s[i])
    ensures StripNumbersAfter(prevWord, s) == s
    decreases |s|
  {
    if s != [] {
      assert DigitRun(s) == 0;
      StripNumbersNoDigits(IsWordChar(s[0]), s[1..]);
      assert s == [s[0]] + s[1..];
    }
  }

  lemma FilterCharsClean(s: string)
    requires forall i :: 0 <= i < |s| ==> CleanChar(s[i])
    ensures FilterChars(s) == s
  {
  }

  /** A string whose whitespace consists of single ' ' characters is its own collapsed form. */
  lemma {:induction false} CollapseSingleSpaces(s: string)
    requires NoAdjacentSpaces(s)
    requires forall i :: 0 <= i < |s| && IsSpace(s[i]) ==> s[i] == ' '
    ensures CollapseSpaces(s) == s
    decreases |s|
  {
    if s != [] {
      if IsSpace(s[0]) {
        assert SpaceRun(s) == 1 by {
          assert |s| == 1 || !IsSpace(s[1]);
        }
      }
      CollapseSingleSpaces(s[1..]);
      assert s == [s[0]] + s[1..];
    }
  }

  /** A cleaned string has no upper-case letter, digit, ':', '.' or '@', and its only whitespace is ' '. */
  lemma CleanedCharacters(y: string)
    requires IsCleaned(y)
    ensures forall i :: 0 <= i < |y| ==> !IsAsciiUpper(y[i]) && !IsDigit(y[i])
    ensures ':' !in y && '.' !in y && '@' !in y
    ensures forall i :: 0 <= i < |y| && IsSpace(y[i]) ==> y[i] == ' '
  {
    forall c | c in y ensures c != ':' && c != '.' && c != '@' {
      var i :| 0 <= i < |y| && y[i] == c;
      assert CleanChar(y[i]);
    }
    forall i | 0 <= i < |y| && IsSpace(y[i]) ensures y[i] == ' ' {
      assert CleanChar(y[i]);
    }
  }

  /** A cleaned string is a fixed point of every step of `CleanText`. */
  lemma CleanedIsFixpoint(y: string)
    requires IsCleaned(y)
    ensures CleanText(y) == y
  {
    CleanedCharacters(y);
    LowerOfLower(y);
    StripUrlsNoUrl(y);
    StripEmailsNoAt(y);
    StripNumbersNoDigits(false, y);
    FilterCharsClean(y);
    CollapseSingleSpaces(y);
    StripNoEdgeSpace(y);
  }

  /** `clean_text(clean_text(x)) == clean_text(x)`. */
  lemma CleanTextIdempotent(text: string)
    ensures CleanText(CleanText(text)) == CleanText(text)
  {
    CleanedIsFixpoint(CleanText(text));
  }

  // ---------------------------------------------------------------------------
  // Whole tokens removed by steps 2-4.

  /** A string ending in whitespace hides nothing that follows it from the token scan. */
  lemma NonSpaceRunConcat(a: string, c: string)
    requires a != [] && IsSpace(a[|a| - 1])
    ensures NonSpaceRun(a + c) == NonSpaceRun(a) < |a|
    ensures Token(a + c) == Token(a)
  {
    var n := NonSpaceRun(a);
    var m := NonSpaceRun(a + c);
    assert (a + c)[|a| - 1] == a[|a| - 1];
    assert m <= |a| - 1;
    assert forall i :: 0 <= i <= m && i < |a| ==> (a + c)[i] == a[i];
    assert (a + c)[..m] == a[..m];
  }

  lemma StripUrlsMatch(s: string)
    requires s != [] && UrlAt(s)
    ensures StripUrls(s) == " " + StripUrls(s[NonSpaceRun(s)..])
  {
  }

  lemma StripUrlsCopy(s: string)
    requires s != [] && !UrlAt(s)
    ensures StripUrls(s) == [s[0]] + StripUrls(s[1..])
  {
  }

  /** `StripUrls` processes the text up to a whitespace separately from the text after it. */
  lemma {:induction false} StripUrlsSplit(a: string, c: string)
    requires a == [] || IsSpace(a[|a| - 1])
    ensures StripUrls(a + c) == StripUrls(a) + StripUrls(c)
    decreases |a|
  {
    if a == [] {
      assert a + c == c;
    } else {
      NonSpaceRunConcat(a, c);
      var n := NonSpaceRun(a);
      var ac := a + c;
      assert UrlAt(ac) == UrlAt(a);
      if UrlAt(a) {
        assert ac[n..] == a[n..] + c;
        StripUrlsSplit(a[n..], c);
        StripUrlsMatch(a);
        StripUrlsMatch(ac);
        ConcatAssoc(" ", StripUrls(a[n..]), StripUrls(c));
      } else {
        assert ac[1..] == a[1..] + c;
        StripUrlsSplit(a[1..], c);
        StripUrlsCopy(a);
        StripUrlsCopy(ac);
        assert ac[0] == a[0];
        ConcatAssoc([a[0]], StripUrls(a[1..]), StripUrls(c));
      }
    }
  }

  /** A whitespace-free token is the leading token of itself followed by whitespace. */
  lemma TokenBeforeSpace(t: string, b: string)
    requires NonSpaceRun(t) == |t|
    requires b == [] || IsSpace(b[0])
    ensures NonSpaceRun(t + b) == |t|
    ensures Token(t + b) == t
    ensures (t + b)[|t|..] == b
  {
    RunBeforeSpace(t, b);
    assert (t + b)[..|t|] == t;
  }

  /** Where the URL pattern does not match, `StripUrls` copies character by character. */
  lemma {:induction false} StripUrlsCopyAll(q: string, c: string)
    requires forall k :: 0 <= k < |q| ==> !UrlAt(q[k..] + c)
    ensures StripUrls(q + c) == q + StripUrls(c)
    decreases |q|
  {
    if q == [] {
      assert q + c == c;
    } else {
      var qc := q + c;
      assert q[0..] == q;
      assert !UrlAt(qc);
      StripUrlsCopy(qc);
      TailOfConcat(q, c);
      assert forall k :: 0 <= k < |q[1..]| ==> q[1..][k..] == q[k + 1..];
      StripUrlsCopyAll(q[1..], c);
      assert qc[0] == q[0];
      ConcatAssoc([q[0]], q[1..], StripUrls(c));
      assert [q[0]] + q[1..] == q;
    }
  }

  /**
   * A URL that ends at whitespace (or at the end of the text) is replaced by
   * one space, wherever it starts: after whitespace `p`, and after text `q` in
   * which the URL pattern matches nowhere (as in `see:http://x`).
   */
  lemma UrlTokenRemoved(p: string, q: string, u: string, b: string)
    requires p == [] || IsSpace(p[|p| - 1])
    requires forall k :: 0 <= k < |q| ==> !UrlAt(q[k..] + u + b)
    requires NonSpaceRun(u) == |u| && UrlToken(u)
    requires b == [] || IsSpace(b[0])
    ensures StripUrls(p + q + u + b) == StripUrls(p) + q + " " + StripUrls(b)
  {
    TokenBeforeSpace(u, b);
    var ub := u + b;
    assert Token(ub) == u;
    StripUrlsMatch(ub);
    forall k | 0 <= k < |q| ensures !UrlAt(q[k..] + ub) {
      ConcatAssoc(q[k..], u, b);
    }
    StripUrlsCopyAll(q, ub);
    StripUrlsGlue(p, q, ub, b);
    ConcatAssoc(p + q, u, b);
    ConcatAssoc(p, q, ub);
  }

  /** The same text with a space instead of the URL: nothing is removed, the space is copied. */
  lemma SpaceKept(p: string, q: string, b: string)
    requires p == [] || IsSpace(p[|p| - 1])
    requires forall k :: 0 <= k < |q| ==> !UrlAt(q[k..] + " " + b)
    ensures StripUrls(p + q + " " + b) == StripUrls(p) + q + " " + StripUrls(b)
  {
    var sb := " " + b;
    assert NonSpaceRun(sb) == 0;
    StripUrlsCopy(sb);
    assert sb[1..] == b;
    forall k | 0 <= k < |q| ensures !UrlAt(q[k..] + sb) {
      ConcatAssoc(q[k..], " ", b);
    }
    StripUrlsCopyAll(q, sb);
    StripUrlsGlue(p, q, sb, b);
    ConcatAssoc(p + q, " ", b);
    ConcatAssoc(p, q, sb);
  }

  lemma StripUrlsGlue(p: string, q: string, m: string, b: string)
    requires p == [] || IsSpace(p[|p| - 1])
    requires StripUrls(m) == " " + StripUrls(b)
    requires StripUrls(q + m) == q + StripUrls(m)
    ensures StripUrls(p + (q + m)) == StripUrls(p) + q + " " + StripUrls(b)
  {
    StripUrlsSplit(p, q + m);
    ConcatAssoc(q, " ", StripUrls(b));
    ConcatAssoc(StripUrls(p), q, " " + StripUrls(b));
    ConcatAssoc(StripUrls(p) + q, " ", StripUrls(b));
  }

  /** Putting a URL where a space was can only add URL matches before it. */
  lemma UrlAtSpaceImpliesUrlAtUrl(x: string, u: string, b: string)
    requires NonSpaceRun(u) == |u|
    requires b == [] || IsSpace(b[0])
    requires UrlAt(x + " " + b)
    ensures UrlAt(x + u + b)
  {
    var n := NonSpaceRun(x);
    ConcatAssoc(x, " ", b);
    ConcatAssoc(x, u, b);
    if n < |x| {
      TokenInside(x, " " + b, n);
      TokenInside(x, u + b, n);
    } else {
      UrlExtendedToSpace(x, u, b);
    }
  }

  lemma UrlExtendedToSpace(x: string, u: string, b: string)
    requires NonSpaceRun(x) == |x| && NonSpaceRun(u) == |u|
    requires b == [] || IsSpace(b[0])
    requires UrlAt(x + (" " + b))
    ensures UrlAt(x + u + b)
  {
    TokenBeforeSpace(x, " " + b);
    var t := x + u;
    RunsConcat(x, u);
    TokenBeforeSpace(t, b);
    PrefixExtends(x, u);
  }

  lemma RunsConcat(x: string, u: string)
    requires NonSpaceRun(x) == |x| && NonSpaceRun(u) == |u|
    ensures NonSpaceRun(x + u) == |x + u|
  {
    var t := x + u;
    forall i | 0 <= i < |t| ensures !IsSpace(t[i]) {
      if i >= |x| { assert t[i] == u[i - |x|]; }
    }
    RunOfNonSpace(t);
  }

  /** The leading token of `x + y` is that of `x` when `x` has whitespace at position `n`. */
  lemma TokenInside(x: string, y: string, n: nat)
    requires n == NonSpaceRun(x) && n < |x|
    ensures Token(x + y) == Token(x)
  {
    var xy := x + y;
    assert xy[n] == x[n];
    assert forall i :: 0 <= i < n ==> xy[i] == x[i];
    RunEndsAt(xy, n);
    assert xy[..n] == x[..n];
  }

  /** A whitespace-free prefix of length `n` followed by whitespace is the leading run. */
  lemma {:induction false} RunEndsAt(s: string, n: nat)
    requires n < |s| && IsSpace(s[n])
    requires forall i :: 0 <= i < n ==> !IsSpace(s[i])
    ensures NonSpaceRun(s) == n
    decreases n
  {
    if n > 0 {
      assert forall i :: 0 <= i < n - 1 ==> s[1..][i] == s[i + 1];
      RunEndsAt(s[1..], n - 1);
    }
  }

  /** A URL token stays one when more characters follow it. */
  lemma PrefixExtends(x: string, u: string)
    requires UrlToken(x)
    ensures UrlToken(x + u)
  {
    var t := x + u;
    if StartsWith(x, "https://") && |x| > 8 {
      assert t[..8] == x[..8];
    } else if StartsWith(x, "http://") && |x| > 7 {
      assert t[..7] == x[..7];
    } else {
      assert t[..4] == x[..4];
    }
  }

  /** Replacing `u` by a space in a text without upper-case letters leaves none. */
  lemma NoUpperSwap(p: string, q: string, u: string, b: string)
    requires NoUpper(p + q + u + b)
    ensures NoUpper(p + q + " " + b)
  {
    var x := p + q + u + b;
    var y := p + q + " " + b;
    forall i | 0 <= i < |y| ensures !IsAsciiUpper(y[i]) {
      if i < |p| + |q| {
        assert y[i] == x[i];
      } else if i > |p| + |q| {
        assert y[i] == b[i - |p| - |q| - 1] == x[i - 1 + |u|];
      }
    }
  }

  /**
   * At the level of `clean_text`: on text without upper-case letters, a URL
   * that ends at whitespace or at the end cleans like a single space in its place.
   */
  lemma UrlRemovedFromCleanText(p: string, q: string, u: string, b: string)
    requires p == [] || IsSpace(p[|p| - 1])
    requires forall k :: 0 <= k < |q| ==> !UrlAt(q[k..] + u + b)
    requires NonSpaceRun(u) == |u| && UrlToken(u)
    requires b == [] || IsSpace(b[0])
    requires NoUpper(p + q + u + b)
    ensures CleanText(p + q + u + b) == CleanText(p + q + " " + b)
  {
    UrlTokenRemoved(p, q, u, b);
    forall k | 0 <= k < |q| ensures !UrlAt(q[k..] + " " + b) {
      if UrlAt(q[k..] + " " + b) {
        UrlAtSpaceImpliesUrlAtUrl(q[k..], u, b);
      }
    }
    SpaceKept(p, q, b);
    NoUpperSwap(p, q, u, b);
    LowerOfLower(p + q + u + b);
    LowerOfLower(p + q + " " + b);
  }

  lemma StripEmailsMatch(s: string)
    requires s != [] && EmailAt(s)
    ensures StripEmails(s) == " " + StripEmails(s[NonSpaceRun(s)..])
  {
  }

  lemma StripEmailsCopy(s: string)
    requires s != [] && !EmailAt(s)
    ensures StripEmails(s) == [s[0]] + StripEmails(s[1..])
  {
  }

  lemma {:induction false} StripEmailsSplit(a: string, c: string)
    requires a == [] || IsSpace(a[|a| - 1])
    ensures StripEmails(a + c) == StripEmails(a) + StripEmails(c)
    decreases |a|
  {
    if a == [] {
      assert a + c == c;
    } else {
      NonSpaceRunConcat(a, c);
      var n := NonSpaceRun(a);
      var ac := a + c;
      if n >= 3 {
        assert ac[1..n - 1] == a[1..n - 1];
      }
      assert EmailAt(ac) == EmailAt(a);
      if EmailAt(a) {
        assert ac[n..] == a[n..] + c;
        StripEmailsSplit(a[n..], c);
        StripEmailsMatch(a);
        StripEmailsMatch(ac);
        ConcatAssoc(" ", StripEmails(a[n..]), StripEmails(c));
      } else {
        assert ac[1..] == a[1..] + c;
        StripEmailsSplit(a[1..], c);
        StripEmailsCopy(a);
        StripEmailsCopy(ac);
        assert ac[0] == a[0];
        ConcatAssoc([a[0]], StripEmails(a[1..]), StripEmails(c));
      }
    }
  }

  /**
   * A whitespace-delimited token holding an '@' with a character on each side
   * of it is replaced by one space.
   */
  lemma EmailTokenRemoved(a: string, t: string, b: string, k: nat)
    requires a == [] || IsSpace(a[|a| - 1])
    requires NonSpaceRun(t) == |t|
    requires 0 < k < |t| - 1 && t[k] == '@'
    requires b == [] || IsSpace(b[0])
    ensures StripEmails(a + t + b) == StripEmails(a) + " " + StripEmails(b)
  {
    TokenBeforeSpace(t, b);
    assert (t + b)[1..|t| - 1][k - 1] == '@';
    assert EmailAt(t + b);
    StripEmailsMatch(t + b);
    assert StripEmails(t + b) == " " + StripEmails(b);
    ConcatAssoc(a, t, b);
    StripEmailsSplit(a, t + b);
    ConcatAssoc(StripEmails(a), " ", StripEmails(b));
  }

  /** A string ending in a non-word character hides nothing that follows it from the digit scan. */
  lemma DigitRunConcat(a: string, c: string)
    requires a != [] && !IsWordChar(a[|a| - 1])
    ensures DigitRun(a + c) == DigitRun(a) < |a|
  {
    var m := DigitRun(a + c);
    assert (a + c)[|a| - 1] == a[|a| - 1];
    assert m < |a|;
    assert forall i :: 0 <= i <= m ==> (a + c)[i] == a[i];
  }

  lemma StripNumbersMatch(prevWord: bool, s: string)
    requires s != [] && NumberAt(prevWord, s)
    ensures StripNumbersAfter(prevWord, s) == " " + StripNumbersAfter(true, s[DigitRun(s)..])
  {
  }

  lemma StripNumbersCopy(prevWord: bool, s: string)
    requires s != [] && !NumberAt(prevWord, s)
    ensures StripNumbersAfter(prevWord, s) == [s[0]] + StripNumbersAfter(IsWordChar(s[0]), s[1..])
  {
  }

  lemma {:induction false} StripNumbersSplit(prevWord: bool, a: string, c: string)
    requires a != [] && !IsWordChar(a[|a| - 1])
    ensures StripNumbersAfter(prevWord, a + c) == StripNumbersAfter(prevWord, a) + StripNumbersAfter(false, c)
    decreases |a|
  {
    DigitRunConcat(a, c);
    var n := DigitRun(a);
    var ac := a + c;
    assert ac[n] == a[n];
    assert NumberAt(prevWord, ac) == NumberAt(prevWord, a);
    if NumberAt(prevWord, a) {
      assert ac[n..] == a[n..] + c;
      StripNumbersSplit(true, a[n..], c);
      StripNumbersMatch(prevWord, a);
      StripNumbersMatch(prevWord, ac);
      ConcatAssoc(" ", StripNumbersAfter(true, a[n..]), StripNumbersAfter(false, c));
    } else {
      StripNumbersCopy(prevWord, a);
      StripNumbersCopy(prevWord, ac);
      assert ac[0] == a[0];
      if |a| == 1 {
        assert ac[1..] == c;
        assert !IsWordChar(a[0]);
        assert StripNumbersAfter(IsWordChar(a[0]), a[1..]) == [];
      } else {
        assert ac[1..] == a[1..] + c;
        StripNumbersSplit(IsWordChar(a[0]), a[1..], c);
        ConcatAssoc([a[0]], StripNumbersAfter(IsWordChar(a[0]), a[1..]), StripNumbersAfter(false, c));
      }
    }
  }

  /** After a non-digit the word-boundary flag cannot matter. */
  lemma StripNumbersFlag(b: string)
    requires b == [] || !IsDigit(b[0])
    ensures StripNumbersAfter(true, b) == StripNumbersAfter(false, b)
  {
  }

  /**
   * A run of three or more digits with a non-word character (or the end of
   * the text) on each side is replaced by one space.
   */
  lemma NumberRemoved(a: string, d: string, b: string)
    requires a == [] || !IsWordChar(a[|a| - 1])
    requires |d| >= 3 && forall i :: 0 <= i < |d| ==> IsDigit(d[i])
    requires b == [] || !IsWordChar(b[0])
    ensures StripNumbers(a + d + b) == StripNumbers(a) + " " + StripNumbers(b)
  {
    NumberTokenAtStart(d, b);
    assert a + d + b == a + (d + b);
    PrefixBeforeNumber(a, d + b, b);
  }

  lemma PrefixBeforeNumber(a: string, x: string, b: string)
    requires a == [] || !IsWordChar(a[|a| - 1])
    requires StripNumbers(x) == " " + StripNumbers(b)
    ensures StripNumbers(a + x) == StripNumbers(a) + " " + StripNumbers(b)
  {
    if a != [] {
      StripNumbersSplit(false, a, x);
      ConcatAssoc(StripNumbers(a), " ", StripNumbers(b));
    } else {
      assert a + x == x;
    }
  }

  lemma NumberTokenAtStart(d: string, b: string)
    requires |d| >= 3 && forall i :: 0 <= i < |d| ==> IsDigit(d[i])
    requires b == [] || !IsWordChar(b[0])
    ensures StripNumbersAfter(false, d + b) == " " + StripNumbersAfter(false, b)
  {
    DigitsBeforeNonDigit(d, b);
    assert (d + b)[|d|..] == b;
    assert NumberAt(false, d + b);
    StripNumbersFlag(b);
  }

  lemma {:induction false} DigitsBeforeNonDigit(d: string, b: string)
    requires forall i :: 0 <= i < |d| ==> IsDigit(d[i])
    requires b == [] || !IsWordChar(b[0])
    ensures DigitRun(d + b) == |d|
    decreases |d|
  {
    if d != [] {
      DigitsBeforeNonDigit(d[1..], b);
      assert (d + b)[1..] == d[1..] + b;
    }
  }

  // ---------------------------------------------------------------------------
  // TextCleaner and clean_corpus

  /** `TextCleaner`: a stateless transformer that applies its cleaner to every text. */
  datatype TextCleaner = TextCleaner(cleaner: string -> string) {

    /** `fit` learns nothing and returns the transformer itself. */
    function Fit(X: seq<string>, y: seq<int>): (fitted: TextCleaner)
      ensures fitted.cleaner == cleaner
    {
      this
    }

    function Transform(X: seq<string>): (r: seq<string>)
      ensures |r| == |X|
      ensures forall i :: 0 <= i < |X| ==> r[i] == cleaner(X[i])
    {
      if X == [] then [] else [cleaner(X[0])] + Transform(X[1..])
    }
  }

  /** `TextCleaner()` with its default cleaner `clean_text`. */
  function DefaultTextCleaner(): TextCleaner {
    TextCleaner(CleanText)
  }

  /** `clean_corpus`: `clean_text` applied to every text, keeping length and order. */
  function CleanCorpus(corpus: seq<string>): (r: seq<string>)
    ensures |r| == |corpus|
    ensures forall i :: 0 <= i < |corpus| ==> r[i] == CleanText(corpus[i])
  {
    MapTexts(CleanText, corpus)
  }

  function MapTexts(f: string -> string, X: seq<string>): (r: seq<string>)
    ensures |r| == |X|
    ensures forall i :: 0 <= i < |X| ==> r[i] == f(X[i])
  {
    if X == [] then [] else [f(X[0])] + MapTexts(f, X[1..])
  }

  /** A default cleaner, fitted on anything, transforms exactly like `clean_corpus`. */
  lemma FittedCleanerIsCleanCorpus(X: seq<string>, y: seq<int>, Z: seq<string>)
    ensures DefaultTextCleaner().Fit(X, y).Transform(Z) == CleanCorpus(Z)
  {
  }
}
