/**
 * The price pattern of `index.mjs`, the regular expression
 * `(\$|€)(\d+(\.\d+)?)` applied with `String.prototype.match` (no `g` flag):
 * the leftmost position where the pattern matches, and at that position the
 * match the backtracking engine finds first, which for this pattern is the
 * longest one.
 */
module PriceScan {
  import opened Wrappers
  import opened JsText

  /** The alternation `\$|€`. */
  predicate IsCurrencySymbol(c: char) {
    c == '$' || c == '€'
  }

  /** `\d`: the ASCII digits `0` to `9` only. */
  predicate IsDigit(c: char) {
    '0' <= c <= '9'
  }

  predicate AllDigits(u: string) {
    forall i :: 0 <= i < |u| ==> IsDigit(u[i])
  }

  /** Strings of the language `\d+(\.\d+)?`. */
  predicate IsAmount(u: string) {
    || (|u| >= 1 && AllDigits(u))
    || exists k :: 1 <= k < |u| - 1 && u[k] == '.' && AllDigits(u[..k]) && AllDigits(u[k + 1..])
  }

  /** Strings of the language `(\$|€)\d+(\.\d+)?`. */
  predicate IsPriceToken(t: string) {
    |t| >= 2 && IsCurrencySymbol(t[0]) && IsAmount(t[1..])
  }

  /** Some match of the pattern starts at `p`. */
  predicate TokenStartsAt(s: string, p: nat) {
    exists e :: p < e <= |s| && IsPriceToken(s[p..e])
  }

  /** The pattern matches somewhere in `s`. */
  predicate HasPriceToken(s: string) {
    exists p :: 0 <= p < |s| && TokenStartsAt(s, p)
  }

  /**
   * `t` is the text `match` returns for `s`: it occurs at a position `st`
   * where it is a price token, no match starts before `st`, and no longer
   * token starts at `st`.
   */
  predicate IsLeftmostLongestMatch(t: string, s: string) {
    exists st, en :: 0 <= st <= en <= |s| && s[st..en] == t && IsPriceToken(t)
      && (forall p :: 0 <= p < st ==> !TokenStartsAt(s, p))
      && (forall e :: en < e <= |s| ==> !IsPriceToken(s[st..e]))
  }

  /** A match of the pattern: `s[start..end]` is `priceMatch[0]`, `s[start]` is `priceMatch[1]`. */
  datatype PriceMatch = PriceMatch(start: nat, end: nat)

  /** The end of the run of digits beginning at `i`: what a greedy `\d+` consumes there. */
  function DigitsEnd(s: string, i: nat): (r: nat)
    requires 0 <= i <= |s|
    ensures i <= r <= |s| && AllDigits(s[i..r])
    ensures i <= r < |s| ==> !IsDigit(s[r])
    decreases |s| - i
  {
    if i < |s| && IsDigit(s[i]) then DigitsEnd(s, i + 1) else i
  }

  /**
   * The end of the match the pattern makes at `p`, if it makes one: the
   * symbol, all the digits that follow, and then `.` with its digits only when
   * at least one digit follows the point.
   */
  function MatchAt(s: string, p: nat): (r: Option<nat>)
    requires 0 <= p <= |s|
    ensures r.Some? <==> TokenStartsAt(s, p)
    ensures r.Some? ==> p < r.value <= |s| && IsPriceToken(s[p..r.value])
    ensures r.Some? ==> p < r.value && forall e :: r.value < e <= |s| ==> !IsPriceToken(s[p..e])
  {
    TokenStartIff(s, p);
    if p + 1 < |s| && IsCurrencySymbol(s[p]) && IsDigit(s[p + 1]) then
      var d := DigitsEnd(s, p + 1);
      var e := if d + 1 < |s| && s[d] == '.' && IsDigit(s[d + 1]) then DigitsEnd(s, d + 1) else d;
      MatchIsToken(s, p, d, e);
      MatchIsLongest(s, p, d, e);
      Some(e)
    else
      None
  }

  /** A match starts exactly where a symbol is immediately followed by a digit. */
  lemma TokenStartIff(s: string, p: nat)
    requires p <= |s|
    ensures TokenStartsAt(s, p) <==> p + 1 < |s| && IsCurrencySymbol(s[p]) && IsDigit(s[p + 1])
  {
    if p + 1 < |s| && IsCurrencySymbol(s[p]) && IsDigit(s[p + 1]) {
      assert s[p..p + 2][1..] == [s[p + 1]];
      assert IsPriceToken(s[p..p + 2]);
    }
    if TokenStartsAt(s, p) {
      var e :| p < e <= |s| && IsPriceToken(s[p..e]);
      var u := s[p..e][1..];
      assert u[0] == s[p + 1];
      if !(|u| >= 1 && AllDigits(u)) {
        var k :| 1 <= k < |u| - 1 && u[k] == '.' && AllDigits(u[..k]) && AllDigits(u[k + 1..]);
        assert u[..k][0] == u[0];
      }
    }
  }

  lemma MatchIsToken(s: string, p: nat, d: nat, e: nat)
    requires p + 1 < |s| && IsCurrencySymbol(s[p]) && IsDigit(s[p + 1])
    requires d == DigitsEnd(s, p + 1)
    requires e == if d + 1 < |s| && s[d] == '.' && IsDigit(s[d + 1]) then DigitsEnd(s, d + 1) else d
    ensures p < e <= |s| && IsPriceToken(s[p..e])
  {
    var u := s[p..e][1..];
    assert DigitsEnd(s, p + 1) > p + 1 by { assert IsDigit(s[p + 1]); }
    if e == d {
      assert u == s[p + 1..d];
    } else {
      var k := d - (p + 1);
      assert u[..k] == s[p + 1..d];
      assert u[k] == '.';
      assert u[k + 1..] == s[d + 1..e];
      assert DigitsEnd(s, d + 1) > d + 1;
    }
  }

  lemma MatchIsLongest(s: string, p: nat, d: nat, e: nat)
    requires p + 1 < |s| && IsCurrencySymbol(s[p]) && IsDigit(s[p + 1])
    requires d == DigitsEnd(s, p + 1)
    requires e == if d + 1 < |s| && s[d] == '.' && IsDigit(s[d + 1]) then DigitsEnd(s, d + 1) else d
    ensures forall e' :: e < e' <= |s| ==> !IsPriceToken(s[p..e'])
  {
    forall e' | e < e' <= |s|
      ensures !IsPriceToken(s[p..e'])
    {
      var u := s[p..e'][1..];
      assert u == s[p + 1..e'];
      NoLongerInteger(s, p, d, e');
      forall k | 1 <= k < |u| - 1
        ensures !(u[k] == '.' && AllDigits(u[..k]) && AllDigits(u[k + 1..]))
      {
        assert u[..k] == s[p + 1..p + 1 + k];
        assert u[k + 1..] == s[p + 2 + k..e'];
        NoLongerFraction(s, p, d, e, e', k);
      }
    }
  }

  /** Past the digits the greedy `\d+` took there is no all-digit amount. */
  lemma NoLongerInteger(s: string, p: nat, d: nat, e': nat)
    requires p + 1 < |s| && d == DigitsEnd(s, p + 1) && d < e' <= |s|
    ensures !AllDigits(s[p + 1..e'])
  {
    assert s[p + 1..e'][d - (p + 1)] == s[d];
  }

  /** A run of digits from `i` that ends at a non-digit `j` is exactly the run the greedy `\d+` takes. */
  lemma DigitRunLength(s: string, i: nat, j: nat)
    requires i <= j < |s| && AllDigits(s[i..j]) && !IsDigit(s[j])
    ensures DigitsEnd(s, i) == j
  {
    var d := DigitsEnd(s, i);
    forall k | i <= k < j ensures IsDigit(s[k]) {
      assert s[k] == s[i..j][k - i];
    }
    DigitsStopAtNonDigit(s, i, j);
  }

  /** The greedy `\d+` never runs past a non-digit. */
  lemma {:induction false} DigitsStopAtNonDigit(s: string, i: nat, j: nat)
    requires i <= j < |s| && !IsDigit(s[j])
    ensures DigitsEnd(s, i) <= j
    decreases j - i
  {
    if i < j && IsDigit(s[i]) {
      DigitsStopAtNonDigit(s, i + 1, j);
    }
  }

  /** No amount with a fractional part runs past the greedy match. */
  lemma NoLongerFraction(s: string, p: nat, d: nat, e: nat, e': nat, k: nat)
    requires p + 1 < |s| && IsCurrencySymbol(s[p]) && IsDigit(s[p + 1])
    requires d == DigitsEnd(s, p + 1)
    requires e == if d + 1 < |s| && s[d] == '.' && IsDigit(s[d + 1]) then DigitsEnd(s, d + 1) else d
    requires e < e' <= |s|
    requires 1 <= k < e' - p - 2
    ensures !(s[p + 1 + k] == '.' && AllDigits(s[p + 1..p + 1 + k]) && AllDigits(s[p + 2 + k..e']))
  {
    if s[p + 1 + k] == '.' && AllDigits(s[p + 1..p + 1 + k]) {
      DigitRunLength(s, p + 1, p + 1 + k);
    }
  }

  /**
   * The leftmost-longest search from `from`: the first position at or after
   * `from` where the pattern matches, with the match it makes there.
   */
  function FindPriceFrom(s: string, from: nat): (r: Option<PriceMatch>)
    requires 0 <= from <= |s|
    ensures r.None? <==> forall p :: from <= p < |s| ==> !TokenStartsAt(s, p)
    ensures r.Some? ==> from <= r.value.start < r.value.end <= |s| && IsPriceToken(s[r.value.start..r.value.end])
    ensures r.Some? ==> forall p :: from <= p < r.value.start ==> !TokenStartsAt(s, p)
    ensures r.Some? ==> 0 <= r.value.start < r.value.end && forall e :: r.value.end < e <= |s| ==> !IsPriceToken(s[r.value.start..e])
    decreases |s| - from
  {
    if from == |s| then
      None
    else
      match MatchAt(s, from)
      case Some(e) => Some(PriceMatch(from, e))
      case None => FindPriceFrom(s, from + 1)
  }

  /** `text.match(/(\$|€)(\d+(\.\d+)?)/)`. */
  function FindPrice(s: string): (r: Option<PriceMatch>)
    ensures r.None? <==> !HasPriceToken(s)
    ensures r.Some? ==> 0 <= r.value.start < r.value.end <= |s| && IsPriceToken(s[r.value.start..r.value.end])
    ensures r.Some? ==> forall p :: 0 <= p < r.value.start ==> !TokenStartsAt(s, p)
    ensures r.Some? ==> 0 <= r.value.start < r.value.end && forall e :: r.value.end < e <= |s| ==> !IsPriceToken(s[r.value.start..e])
  {
    FindPriceFrom(s, 0)
  }

  /** The match the pattern makes is the only leftmost-longest one: the contract of `FindPrice` determines its result. */
  lemma FindPriceUnique(s: string, m: PriceMatch)
    requires m.start < m.end <= |s| && IsPriceToken(s[m.start..m.end])
    requires forall p :: 0 <= p < m.start ==> !TokenStartsAt(s, p)
    requires forall e :: m.end < e <= |s| ==> !IsPriceToken(s[m.start..e])
    ensures FindPrice(s) == Some(m)
  {
    assert TokenStartsAt(s, m.start);
    var r := FindPrice(s).value;
    // Each start is a match start, so neither lies before the other.
    assert TokenStartsAt(s, r.start) by {
      assert IsPriceToken(s[r.start..r.end]);
    }
    assert r.start == m.start;
    // At that start each end is a token, so neither is longer than the other.
    assert IsPriceToken(s[r.start..m.end]);
  }

  // ---------------------------------------------------------------------------
  // Surrounding whitespace does not move the match

  /** No character of a price token is whitespace. */
  lemma TokenHasNoWhitespace(t: string)
    requires IsPriceToken(t)
    ensures NoWhitespace(t)
  {
    var u := t[1..];
    forall i | 1 <= i < |t| ensures !IsWhitespace(t[i]) {
      assert t[i] == u[i - 1];
      if !(|u| >= 1 && AllDigits(u)) {
        var k :| 1 <= k < |u| - 1 && u[k] == '.' && AllDigits(u[..k]) && AllDigits(u[k + 1..]);
        if i - 1 < k { assert u[..k][i - 1] == u[i - 1]; }
        else if i - 1 > k { assert u[k + 1..][i - 2 - k] == u[i - 1]; }
      }
    }
  }

  /** A match in `s` lies inside the part `[a, b)` that whitespace surrounds. */
  lemma TokenInsidePadding(s: string, a: nat, b: nat, st: nat, en: nat)
    requires a <= b <= |s| && AllWhitespace(s[..a]) && AllWhitespace(s[b..])
    requires st < en <= |s| && IsPriceToken(s[st..en])
    ensures a <= st && en <= b
  {
    TokenHasNoWhitespace(s[st..en]);
    forall i | st <= i < en ensures !IsWhitespace(s[i]) {
      assert s[i] == s[st..en][i - st];
    }
    if b < |s| {
      assert s[b] == s[b..][0];
    }
  }

  /** Match starts in the padded string and in its core correspond, shifted by `a`. */
  lemma TokenStartShift(s: string, a: nat, b: nat, q: nat)
    requires a <= b <= |s| && AllWhitespace(s[..a]) && AllWhitespace(s[b..])
    requires q <= b - a
    ensures TokenStartsAt(s[a..b], q) <==> TokenStartsAt(s, q + a)
  {
    var r := s[a..b];
    TokenStartIff(r, q);
    TokenStartIff(s, q + a);
    if q + 1 < |r| {
      assert r[q] == s[q + a] && r[q + 1] == s[q + a + 1];
    } else if q + a + 1 < |s| {
      assert s[b..][q + a + 1 - b] == s[q + a + 1];
    }
  }

  /**
   * Searching `s` and searching its core `s[a..b]`, when only whitespace
   * surrounds the core, find the same match, shifted by `a`.
   */
  lemma FindPriceIgnoresPadding(s: string, a: nat, b: nat)
    requires a <= b <= |s| && AllWhitespace(s[..a]) && AllWhitespace(s[b..])
    ensures FindPrice(s[a..b]).None? <==> FindPrice(s).None?
    ensures FindPrice(s).Some? ==> a <= FindPrice(s).value.start && FindPrice(s).value.end <= b
    ensures FindPrice(s).Some? ==> s[a..b][FindPrice(s[a..b]).value.start..FindPrice(s[a..b]).value.end]
                                   == s[FindPrice(s).value.start..FindPrice(s).value.end]
  {
    match FindPrice(s)
    case Some(m) =>
      PaddedMatch(s, a, b, m);
      SliceOfSlice(s, a, b, m.start - a, m.end - a);
    case None => PaddedNoMatch(s, a, b);
  }

  lemma SliceOfSlice(s: string, a: nat, b: nat, i: nat, j: nat)
    requires a <= b <= |s| && i <= j <= b - a
    ensures s[a..b][i..j] == s[a + i..a + j]
  {
    forall k | 0 <= k < j - i ensures s[a..b][i..j][k] == s[a + i..a + j][k] {
      assert s[a..b][i..j][k] == s[a + i + k];
    }
  }

  lemma PaddedMatch(s: string, a: nat, b: nat, m: PriceMatch)
    requires a <= b <= |s| && AllWhitespace(s[..a]) && AllWhitespace(s[b..])
    requires FindPrice(s) == Some(m)
    ensures a <= m.start && m.end <= b
    ensures FindPrice(s[a..b]) == Some(PriceMatch(m.start - a, m.end - a))
  {
    var r := s[a..b];
    TokenInsidePadding(s, a, b, m.start, m.end);
    var m' := PriceMatch(m.start - a, m.end - a);
    SliceOfSlice(s, a, b, m'.start, m'.end);
    forall p | 0 <= p < m'.start ensures !TokenStartsAt(r, p) {
      TokenStartShift(s, a, b, p);
    }
    forall e | m'.end < e <= |r| ensures !IsPriceToken(r[m'.start..e]) {
      SliceOfSlice(s, a, b, m'.start, e);
    }
    FindPriceUnique(r, m');
  }

  lemma PaddedNoMatch(s: string, a: nat, b: nat)
    requires a <= b <= |s| && AllWhitespace(s[..a]) && AllWhitespace(s[b..])
    requires FindPrice(s).None?
    ensures FindPrice(s[a..b]).None?
  {
    var r := s[a..b];
    if FindPrice(r).Some? {
      var q := FindPrice(r).value.start;
      assert TokenStartsAt(r, q) by {
        assert IsPriceToken(r[q..FindPrice(r).value.end]);
      }
      TokenStartShift(s, a, b, q);
    }
  }
}
