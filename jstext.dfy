/**
 * The parts of JavaScript's string library that the word count uses:
 * `String.prototype.trim` and `split(/\s+/)`. Both use the same notion of
 * white space (the WhiteSpace and LineTerminator code points of ECMAScript).
 */
module JsText {
  import opened Base

  /** A code point that `trim` removes and that `\s` matches. */
  predicate IsSpace(c: char) {
    var n := c as int;
    n == 0x09 || n == 0x0A || n == 0x0B || n == 0x0C || n == 0x0D || n == 0x20
    || n == 0xA0 || n == 0x1680 || (0x2000 <= n <= 0x200A)
    || n == 0x2028 || n == 0x2029 || n == 0x202F || n == 0x205F || n == 0x3000 || n == 0xFEFF
  }

  predicate AllSpace(s: string) {
    forall k :: 0 <= k < |s| ==> IsSpace(s[k])
  }

  /** `s` with its leading white space removed. */
  function TrimStart(s: string): (r: string)
    ensures |r| <= |s| && r == s[|s| - |r|..]
    ensures AllSpace(s[..|s| - |r|])
    ensures r == [] || !IsSpace(r[0])
  {
    if s != [] && IsSpace(s[0]) then TrimStart(s[1..]) else s
  }

  /** `s` with its trailing white space removed. */
  function TrimEnd(s: string): (r: string)
    ensures |r| <= |s| && r == s[..|r|]
    ensures AllSpace(s[|r|..])
    ensures r == [] || !IsSpace(r[|r| - 1])
  {
    if s != [] && IsSpace(s[|s| - 1]) then TrimEnd(s[..|s| - 1]) else s
  }

  /** `s.trim()`. */
  function Trim(s: string): (r: string)
    ensures exists i, j :: 0 <= i <= j <= |s| && r == s[i..j] && AllSpace(s[..i]) && AllSpace(s[j..])
    ensures r == [] || (!IsSpace(r[0]) && !IsSpace(r[|r| - 1]))
    ensures r == [] <==> AllSpace(s)
  {
    var t := TrimStart(s);
    var r := TrimEnd(t);
    PrefixOfSuffix(s, t, r);
    r
  }

  /** `!s.trim()`: whether `s` is empty or all white space. */
  method IsBlank(s: string) returns (blank: bool)
    ensures blank <==> AllSpace(s)
  {
    blank := Trim(s) == "";
  }

  /** What is left after removing a white-space suffix from a suffix of `s` is a slice of `s` followed by white space. */
  lemma PrefixOfSuffix(s: string, t: string, r: string)
    requires |t| <= |s| && t == s[|s| - |t|..]
    requires |r| <= |t| && r == t[..|r|] && AllSpace(t[|r|..])
    ensures var i := |s| - |t|; s[i..i + |r|] == r && AllSpace(s[i + |r|..])
  {
    var i := |s| - |t|;
    assert s[i..i + |r|] == t[..|r|];
    assert s[i + |r|..] == t[|r|..];
  }

  /**
   * `s.split(/\s+/)`: the pieces between maximal runs of white space. A run
   * at either end yields an empty piece there, and `""` splits into `[""]`.
   */
  function Split(s: string): (r: seq<string>)
    ensures |r| >= 1
    decreases |s|
  {
    if s == [] then [[]]
    else if IsSpace(s[0]) then [[]] + Split(TrimStart(s))
    else
      var p := Split(s[1..]);
      [[s[0]] + p[0]] + p[1..]
  }

  /** `s.trim().split(/\s+/).length`. */
  function WordCount(s: string): (r: nat)
    ensures r >= 1
    ensures AllSpace(s) ==> r == 1
  {
    |Split(Trim(s))|
  }

  // ---------------------------------------------------------------------
  // An independent reference count: the number of words of `s`, i.e. the
  // positions holding a non-space character that is first or follows a space.

  /** Words of `s` when the character before `s` was a space (`afterSpace`) or not. */
  function Words(s: string, afterSpace: bool): nat
  {
    if s == [] then 0
    else (if !IsSpace(s[0]) && afterSpace then 1 else 0) + Words(s[1..], IsSpace(s[0]))
  }

  /** Maximal runs of white space in `s`, continuing a run when `afterSpace`. */
  function SpaceRuns(s: string, afterSpace: bool): nat
  {
    if s == [] then 0
    else (if IsSpace(s[0]) && !afterSpace then 1 else 0) + SpaceRuns(s[1..], IsSpace(s[0]))
  }

  /** Number of whitespace-separated words of `s`. */
  function TokenCount(s: string): nat {
    Words(s, true)
  }

  function EndsInSpace(s: string, afterSpace: bool): bool {
    if s == [] then afterSpace else IsSpace(s[|s| - 1])
  }

  /** Words and space runs alternate: each word but a leading one follows a run, each run but a trailing one precedes a word. */
  lemma {:induction false} WordsAlternateWithRuns(s: string, afterSpace: bool)
    ensures Words(s, afterSpace) + B(EndsInSpace(s, afterSpace)) == SpaceRuns(s, afterSpace) + B(afterSpace)
    decreases |s|
  {
    if s != [] {
      WordsAlternateWithRuns(s[1..], IsSpace(s[0]));
      assert s[1..] != [] ==> s[1..][|s[1..]| - 1] == s[|s| - 1];
    }
  }

  /** A run continuing into a string that starts with a word (or is empty) does not change its run count. */
  lemma RunsIgnoreFlagBeforeWord(s: string)
    requires s == [] || !IsSpace(s[0])
    ensures SpaceRuns(s, true) == SpaceRuns(s, false)
  {
  }

  /** A run already in progress absorbs the leading white space. */
  lemma {:induction false} RunsContinuing(s: string)
    ensures SpaceRuns(s, true) == SpaceRuns(TrimStart(s), false)
    decreases |s|
  {
    if s == [] {
    } else if IsSpace(s[0]) {
      assert SpaceRuns(s, true) == SpaceRuns(s[1..], true);
      assert TrimStart(s) == TrimStart(s[1..]);
      RunsContinuing(s[1..]);
    } else {
      assert TrimStart(s) == s;
      RunsIgnoreFlagBeforeWord(s);
    }
  }

  /** Skipping leading white space removes exactly one run, if there was one. */
  lemma {:induction false} RunsAfterTrimStart(s: string)
    requires s != [] && IsSpace(s[0])
    ensures SpaceRuns(s, false) == 1 + SpaceRuns(TrimStart(s), false)
  {
    assert SpaceRuns(s, false) == 1 + SpaceRuns(s[1..], true);
    assert TrimStart(s) == TrimStart(s[1..]);
    RunsContinuing(s[1..]);
  }

  /** `split(/\s+/)` yields one more piece than there are runs of white space. */
  lemma {:induction false} SplitPieces(s: string)
    ensures |Split(s)| == 1 + SpaceRuns(s, false)
    decreases |s|
  {
    if s == [] {
    } else if IsSpace(s[0]) {
      RunsAfterTrimStart(s);
      SplitPieces(TrimStart(s));
    } else {
      SplitPieces(s[1..]);
    }
  }

  /** Leading white space contains no word. */
  lemma {:induction false} WordsAfterTrimStart(s: string)
    ensures Words(TrimStart(s), true) == Words(s, true)
    decreases |s|
  {
    if s != [] && IsSpace(s[0]) {
      WordsAfterTrimStart(s[1..]);
    }
  }

  /** Trailing white space contains no word. */
  lemma {:induction false} WordsOfSpaceSuffix(p: string, q: string, afterSpace: bool)
    requires AllSpace(q)
    ensures Words(p + q, afterSpace) == Words(p, afterSpace)
    decreases |p|
  {
    if p == [] {
      assert p + q == q;
      WordsOfSpaces(q, afterSpace);
    } else {
      assert (p + q)[1..] == p[1..] + q;
      WordsOfSpaceSuffix(p[1..], q, IsSpace(p[0]));
    }
  }

  lemma {:induction false} WordsOfSpaces(q: string, afterSpace: bool)
    requires AllSpace(q)
    ensures Words(q, afterSpace) == 0
    decreases |q|
  {
    if q != [] {
      WordsOfSpaces(q[1..], true);
    }
  }

  /** Trimming keeps every word. */
  lemma WordsAfterTrim(s: string)
    ensures Words(Trim(s), true) == Words(s, true)
  {
    var t := TrimStart(s);
    WordsAfterTrimStart(s);
    WordsAfterTrimEnd(t);
  }

  /** Trailing white space contains no word. */
  lemma WordsAfterTrimEnd(t: string)
    ensures Words(TrimEnd(t), true) == Words(t, true)
  {
    var r := TrimEnd(t);
    var q := t[|r|..];
    assert t == r + q;
    WordsOfSpaceSuffix(r, q, true);
  }

  /**
   * The word count as JavaScript computes it is the number of words, except
   * that text with no word at all (empty or all white space) counts as 1.
   */
  lemma WordCountIsTokenCount(s: string)
    ensures WordCount(s) == if TokenCount(s) == 0 then 1 else TokenCount(s)
    ensures TokenCount(s) == 0 <==> AllSpace(s)
  {
    var t := Trim(s);
    SplitPieces(t);
    WordsAfterTrim(s);
    WordsAlternateWithRuns(t, true);
    if t == [] {
    } else {
      RunsIgnoreFlagBeforeWord(t);
      assert Words(t, true) >= 1;
    }
  }

  /** Words are counted independently on either side of a split point. */
  lemma {:induction false} WordsOfConcat(p: string, q: string, afterSpace: bool)
    ensures Words(p + q, afterSpace) == Words(p, afterSpace) + Words(q, EndsInSpace(p, afterSpace))
    decreases |p|
  {
    if p == [] {
      assert p + q == q;
    } else {
      assert (p + q)[1..] == p[1..] + q;
      WordsOfConcat(p[1..], q, IsSpace(p[0]));
      assert p[1..] != [] ==> p[1..][|p[1..]| - 1] == p[|p| - 1];
    }
  }

  /** A non-empty string without white space is one word when it follows a space. */
  lemma {:induction false} WordsOfWord(w: string, afterSpace: bool)
    requires w != [] && forall k :: 0 <= k < |w| ==> !IsSpace(w[k])
    ensures Words(w, afterSpace) == B(afterSpace)
    ensures !EndsInSpace(w, afterSpace)
    decreases |w|
  {
    if w[1..] != [] {
      WordsOfWord(w[1..], false);
      assert w[1..][|w[1..]| - 1] == w[|w| - 1];
    }
  }

  /** Two words separated by a single space count as two. */
  lemma TwoWords(a: string, b: string)
    requires a != [] && forall k :: 0 <= k < |a| ==> !IsSpace(a[k])
    requires b != [] && forall k :: 0 <= k < |b| ==> !IsSpace(b[k])
    ensures WordCount(a + " " + b) == 2
  {
    WordsOfConcat(a + " ", b, true);
    WordsOfConcat(a, " ", true);
    WordsOfWord(a, true);
    WordsOfWord(b, true);
    WordCountIsTokenCount(a + " " + b);
  }

  /** "HELLO WORLD" has two words. */
  lemma WordCountHelloWorld()
    ensures WordCount("HELLO WORLD") == 2
  {
    assert "HELLO WORLD" == "HELLO" + " " + "WORLD";
    TwoWords("HELLO", "WORLD");
  }
}
