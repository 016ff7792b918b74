/**
 * The string primitives the extractor leans on: JavaScript's whitespace class
 * (shared by `String.prototype.trim` and the regular-expression class `\s`),
 * `trim`, `split(/\s+/)`, `startsWith`, and the word count built from them.
 */
module JsText {

  /** ECMAScript WhiteSpace and LineTerminator code points: what `trim` strips and `\s` matches. */
  predicate IsWhitespace(c: char) {
    || c == '\t' || c == '\n' || c == '\U{000B}' || c == '\U{000C}' || c == '\r'
    || c == ' ' || c == '\U{00A0}' || c == '\U{1680}'
    || ('\U{2000}' <= c <= '\U{200A}')
    || c == '\U{2028}' || c == '\U{2029}' || c == '\U{202F}' || c == '\U{205F}'
    || c == '\U{3000}' || c == '\U{FEFF}'
  }

  predicate AllWhitespace(s: string) {
    forall i :: 0 <= i < |s| ==> IsWhitespace(s[i])
  }

  predicate NoWhitespace(s: string) {
    forall i :: 0 <= i < |s| ==> !IsWhitespace(s[i])
  }

  /** `s.startsWith(prefix)`. */
  function StartsWith(s: string, prefix: string): (b: bool)
    ensures b <==> |prefix| <= |s| && forall i :: 0 <= i < |prefix| ==> s[i] == prefix[i]
  {
    |prefix| <= |s| && s[..|prefix|] == prefix
  }

  // ---------------------------------------------------------------------------
  // trim

  /** The length of the run of whitespace that `s` starts with. */
  function LeadingWhitespace(s: string): (n: nat)
    ensures 0 <= n <= |s| && AllWhitespace(s[..n])
    ensures 0 <= n < |s| ==> !IsWhitespace(s[n])
  {
    if |s| > 0 && IsWhitespace(s[0]) then
      var n := 1 + LeadingWhitespace(s[1..]);
      assert s[..n] == [s[0]] + s[1..][..n - 1];
      n
    else
      0
  }

  /** Drops the trailing whitespace of `s`. */
  function TrimEnd(s: string): (r: string)
    ensures |r| <= |s| && r == s[..|r|]
    ensures AllWhitespace(s[|r|..])
    ensures r == [] || !IsWhitespace(r[|r| - 1])
  {
    if |s| > 0 && IsWhitespace(s[|s| - 1]) then
      var r := TrimEnd(s[..|s| - 1]);
      assert s[|r|..] == s[..|s| - 1][|r|..] + [s[|s| - 1]];
      r
    else
      s
  }

  /**
   * `s.trim()`: the slice of `s` after its leading whitespace that neither
   * starts nor ends with whitespace and is followed only by whitespace.
   */
  function Trim(s: string): (r: string)
    ensures r == [] || (!IsWhitespace(r[0]) && !IsWhitespace(r[|r| - 1]))
    ensures LeadingWhitespace(s) + |r| <= |s|
    ensures r == s[LeadingWhitespace(s)..LeadingWhitespace(s) + |r|]
    ensures AllWhitespace(s[LeadingWhitespace(s) + |r|..])
  {
    var a := LeadingWhitespace(s);
    var t := s[a..];
    var r := TrimEnd(t);
    assert r == s[a..a + |r|] by { assert r == t[..|r|]; }
    assert s[a + |r|..] == t[|r|..];
    assert r != [] ==> r[0] == s[a];
    r
  }

  /** A string with nothing but whitespace trims to the empty string, and only such a string does. */
  lemma TrimEmptyIff(s: string)
    ensures Trim(s) == [] <==> AllWhitespace(s)
  {
    var r := Trim(s);
    var a := LeadingWhitespace(s);
    if r == [] {
      forall i | 0 <= i < |s| ensures IsWhitespace(s[i]) {
        if i < a { assert s[..a][i] == s[i]; }
      }
    } else {
      assert s[a] == r[0];
    }
  }

  // ---------------------------------------------------------------------------
  // split(/\s+/)

  /** The first index at or after `i` holding whitespace, or `|s|`. */
  function NextWhitespace(s: string, i: nat): (r: nat)
    requires 0 <= i <= |s|
    ensures i <= r <= |s| && NoWhitespace(s[i..r])
    ensures i <= r < |s| ==> IsWhitespace(s[r])
    decreases |s| - i
  {
    if i == |s| || IsWhitespace(s[i]) then i else NextWhitespace(s, i + 1)
  }

  /** The end of the run of whitespace that begins at `i`: what a greedy `\s+` consumes there. */
  function WhitespaceRunEnd(s: string, i: nat): (r: nat)
    requires 0 <= i <= |s|
    ensures i <= r <= |s| && AllWhitespace(s[i..r])
    ensures i <= r < |s| ==> !IsWhitespace(s[r])
    decreases |s| - i
  {
    if i < |s| && IsWhitespace(s[i]) then WhitespaceRunEnd(s, i + 1) else i
  }

  /**
   * `s.split(/\s+/)`: the pieces between maximal runs of whitespace. A leading
   * (trailing) run gives an empty first (last) piece, and the empty string
   * gives the single piece `""`.
   */
  function SplitWhitespace(s: string): (r: seq<string>)
    ensures |r| >= 1
    ensures forall k :: 0 <= k < |r| ==> NoWhitespace(r[k])
    ensures forall k :: 0 < k < |r| - 1 ==> r[k] != []
    ensures |s| > 0 && !IsWhitespace(s[0]) ==> r[0] != []
    decreases |s|
  {
    var i := NextWhitespace(s, 0);
    if i == |s| then
      [s]
    else
      var j := WhitespaceRunEnd(s, i);
      var rest := SplitWhitespace(s[j..]);
      assert j == |s| ==> rest == [[]];
      assert j < |s| ==> s[j..][0] == s[j];
      [s[..i]] + rest
  }

  // ---------------------------------------------------------------------------
  // Word count: the reference definition

  /** Index `i` begins a maximal run of non-whitespace characters (a word). */
  predicate IsWordStart(s: string, i: nat)
    requires i < |s|
  {
    !IsWhitespace(s[i]) && (i == 0 || IsWhitespace(s[i - 1]))
  }

  /** The number of words that begin before index `k`. */
  function WordStartsBefore(s: string, k: nat): nat
    requires k <= |s|
  {
    if k == 0 then 0 else WordStartsBefore(s, k - 1) + (if IsWordStart(s, k - 1) then 1 else 0)
  }

  /** The number of maximal non-whitespace runs in `s`. */
  function CountWords(s: string): nat {
    WordStartsBefore(s, |s|)
  }

  /**
   * The description length of `index.mjs`: `text.trim().split(/\s+/).length`.
   * Its contract is proved in `DescriptionLengthCountsWords`.
   */
  function DescriptionLength(text: string): (n: nat)
    ensures n >= 1
    ensures n == if CountWords(text) == 0 then 1 else CountWords(text)
  {
    DescriptionLengthCountsWords(text);
    |SplitWhitespace(Trim(text))|
  }

  // ---------------------------------------------------------------------------
  // Lemmas connecting the split to the reference count

  /** The count before `k` looks only at `s[..k]`. */
  lemma {:induction false} WordStartsLocal(s: string, s': string, k: nat)
    requires k <= |s| && k <= |s'| && s[..k] == s'[..k]
    ensures WordStartsBefore(s, k) == WordStartsBefore(s', k)
  {
    if k > 0 {
      assert s[..k - 1] == s'[..k - 1] by {
        assert s[..k - 1] == s[..k][..k - 1];
        assert s'[..k - 1] == s'[..k][..k - 1];
      }
      WordStartsLocal(s, s', k - 1);
      assert s[k - 1] == s[..k][k - 1] && s'[k - 1] == s'[..k][k - 1];
      if k > 1 {
        assert s[k - 2] == s[..k][k - 2] && s'[k - 2] == s'[..k][k - 2];
      }
    }
  }

  /** Whitespace adds no word. */
  lemma {:induction false} WordStartsOverWhitespace(s: string, i: nat, k: nat)
    requires i <= k <= |s| && AllWhitespace(s[i..k])
    ensures WordStartsBefore(s, k) == WordStartsBefore(s, i)
  {
    if k > i {
      assert s[i..k - 1] == s[i..k][..k - 1 - i];
      WordStartsOverWhitespace(s, i, k - 1);
      assert s[i..k][k - 1 - i] == s[k - 1];
    }
  }

  /** A non-empty prefix without whitespace holds exactly one word start. */
  lemma {:induction false} WordStartsInWord(s: string, i: nat)
    requires 0 < i <= |s| && NoWhitespace(s[..i])
    ensures WordStartsBefore(s, i) == 1
  {
    assert s[..i][i - 1] == s[i - 1];
    if i > 1 {
      assert s[..i - 1] == s[..i][..i - 1];
      WordStartsInWord(s, i - 1);
      assert s[..i][i - 2] == s[i - 2];
    }
  }

  /** The count of word starts never decreases as `k` grows. */
  lemma {:induction false} WordStartsMonotone(s: string, i: nat, k: nat)
    requires i <= k <= |s|
    ensures WordStartsBefore(s, i) <= WordStartsBefore(s, k)
  {
    if k > i { WordStartsMonotone(s, i, k - 1); }
  }

  /** Counting past a word boundary at `j` is counting the suffix `s[j..]` on its own. */
  lemma {:induction false} WordStartsShift(s: string, j: nat, k: nat)
    requires j <= k <= |s|
    requires j == 0 || IsWhitespace(s[j - 1])
    ensures WordStartsBefore(s, k) == WordStartsBefore(s, j) + WordStartsBefore(s[j..], k - j)
  {
    if k > j {
      WordStartsShift(s, j, k - 1);
      assert s[j..][k - 1 - j] == s[k - 1];
      if k - 1 > j {
        assert s[j..][k - 2 - j] == s[k - 2];
      }
    }
  }

  /** The split of a string ending in a non-space has one piece per word, plus a leading `""` when it starts with a space. */
  lemma {:induction false} SplitCountsWords(s: string)
    requires |s| > 0 && !IsWhitespace(s[|s| - 1])
    ensures |SplitWhitespace(s)| == CountWords(s) + (if IsWhitespace(s[0]) then 1 else 0)
    decreases |s|
  {
    var i := NextWhitespace(s, 0);
    if i == |s| {
      assert s[..|s|] == s[0..|s|];
      WordStartsInWord(s, |s|);
    } else {
      var j := WhitespaceRunEnd(s, i);
      assert j < |s|;
      var rest := s[j..];
      assert rest[|rest| - 1] == s[|s| - 1];
      assert rest[0] == s[j];
      SplitCountsWords(rest);
      WordStartsShift(s, j, |s|);
      WordStartsOverWhitespace(s, i, j);
      if i > 0 {
        assert s[..i] == s[0..i];
        WordStartsInWord(s, i);
      } else {
        assert IsWhitespace(s[i..j][0]);
      }
    }
  }

  /** Trimming removes no word. */
  lemma TrimKeepsWords(s: string)
    ensures CountWords(Trim(s)) == CountWords(s)
  {
    PaddingKeepsWords(s, Trim(s), LeadingWhitespace(s));
  }

  /** Surrounding `r` with whitespace adds no word. */
  lemma PaddingKeepsWords(s: string, r: string, a: nat)
    requires a + |r| <= |s| && s[a..a + |r|] == r
    requires AllWhitespace(s[..a]) && AllWhitespace(s[a + |r|..])
    ensures CountWords(r) == CountWords(s)
  {
    var b := a + |r|;
    WordStartsOverWhitespace(s, b, |s|);
    if a > 0 { assert s[..a][a - 1] == s[a - 1]; }
    WordStartsShift(s, a, b);
    assert s[..a] == s[0..a];
    WordStartsOverWhitespace(s, 0, a);
    assert s[a..][..|r|] == r[..|r|];
    WordStartsLocal(s[a..], r, |r|);
  }

  /**
   * `text.trim().split(/\s+/).length` is the number of maximal non-whitespace
   * runs, except that empty or all-whitespace text counts as 1 (splitting `""`
   * yields one empty piece).
   */
  lemma DescriptionLengthCountsWords(text: string)
    ensures |SplitWhitespace(Trim(text))| >= 1
    ensures CountWords(text) == 0 <==> AllWhitespace(text)
    ensures |SplitWhitespace(Trim(text))| == if CountWords(text) == 0 then 1 else CountWords(text)
  {
    var r := Trim(text);
    TrimEmptyIff(text);
    TrimKeepsWords(text);
    if r == [] {
      assert SplitWhitespace(r) == [r];
    } else {
      SplitCountsWords(r);
      assert CountWords(r) >= 1 by {
        WordStartsShift(r, 0, |r|);
        assert r[0..] == r;
        if |r| > 1 {
          WordStartsOverWhitespace(r, 1, 1);
        }
        WordStartsMonotone(r, 1, |r|);
        assert IsWordStart(r, 0);
      }
    }
  }
}
