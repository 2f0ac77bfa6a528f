/**
 * The `strtok_s` tokenizer as a pure function: skip leading delimiters,
 * take the longest run of non-delimiters, consume the one delimiter that
 * ends it (which the C code overwrites with '\0'), and hand back the rest
 * (the `nextToken` cursor). When no token is left the cursor is the empty
 * tail of the string.
 */
module Tokenizer {
  import opened Wrappers

  /** Every character of `s` is a delimiter. */
  predicate AllDelims(s: string, delims: set<char>) {
    forall j :: 0 <= j < |s| ==> s[j] in delims
  }

  /** No character of `s` is a delimiter. */
  predicate NoDelims(s: string, delims: set<char>) {
    forall j :: 0 <= j < |s| ==> s[j] !in delims
  }

  /** The first index at or after `i` that holds a non-delimiter, or |s|. */
  function SkipDelims(s: string, delims: set<char>, i: nat): (k: nat)
    requires i <= |s|
    ensures i <= k <= |s|
    ensures AllDelims(s[i..k], delims)
    ensures k < |s| ==> s[k] !in delims
    decreases |s| - i
  {
    if i == |s| || s[i] !in delims then i
    else
      var k := SkipDelims(s, delims, i + 1);
      assert s[i..k] == [s[i]] + s[i + 1..k];
      k
  }

  /** The first index at or after `i` that holds a delimiter, or |s|. */
  function TokenEnd(s: string, delims: set<char>, i: nat): (k: nat)
    requires i <= |s|
    ensures i <= k <= |s|
    ensures NoDelims(s[i..k], delims)
    ensures k < |s| ==> s[k] in delims
    decreases |s| - i
  {
    if i == |s| || s[i] in delims then i
    else
      var k := TokenEnd(s, delims, i + 1);
      assert s[i..k] == [s[i]] + s[i + 1..k];
      k
  }

  /**
   * `strtok_s(s, delims, &next)`: the token (None for a NULL return) and
   * the new value of `next`.
   */
  function StrTok(s: string, delims: set<char>): (r: (Option<string>, string))
    ensures r.0.None? ==> r.1 == []
    ensures |r.1| <= |s|
  {
    var k := SkipDelims(s, delims, 0);
    if k == |s| then (None, [])
    else
      var e := TokenEnd(s, delims, k);
      (Some(s[k..e]), if e == |s| then [] else s[e + 1..])
  }

  /**
   * What strtok_s promises: no token iff the string is all delimiters;
   * otherwise the token is a non-empty run of non-delimiters, preceded by
   * delimiters only, and the cursor is what follows the one delimiter
   * that ends it (nothing when the token ends the string).
   */
  lemma StrTokSplits(s: string, delims: set<char>)
    ensures var (tok, rest) := StrTok(s, delims);
      (tok.None? <==> AllDelims(s, delims))
      && (tok.Some? ==>
        tok.value != [] && NoDelims(tok.value, delims)
        && (exists k :: 0 <= k && k + |tok.value| <= |s| && AllDelims(s[..k], delims)
             && s[k..k + |tok.value|] == tok.value
             && (k + |tok.value| == |s| ==> rest == [])
             && (k + |tok.value| < |s| ==> s[k + |tok.value|] in delims && rest == s[k + |tok.value| + 1..])))
  {
  }

  /**
   * A word free of delimiters, followed by one delimiter and anything, is
   * returned whole, and the cursor lands just after that delimiter.
   */
  lemma {:induction false} StrTokWord(w: string, d: char, rest: string, delims: set<char>)
    requires w != [] && NoDelims(w, delims) && d in delims
    ensures StrTok(w + [d] + rest, delims) == (Some(w), rest)
  {
    var s := w + [d] + rest;
    assert s[0] == w[0];
    assert SkipDelims(s, delims, 0) == 0;
    TokenEndOfWord(s, w, delims, 0);
    assert s[..|w|] == w;
    assert s[|w|] == d;
    assert s[|w| + 1..] == rest;
  }

  /** A word free of delimiters that ends the string is returned whole. */
  lemma {:induction false} StrTokLastWord(w: string, delims: set<char>)
    requires w != [] && NoDelims(w, delims)
    ensures StrTok(w, delims) == (Some(w), [])
  {
    assert w[0] !in delims;
    assert SkipDelims(w, delims, 0) == 0;
    TokenEndOfWord(w, w, delims, 0);
    assert w[0..|w|] == w;
  }

  /** The token started at `i` inside a delimiter-free prefix `w` runs to its end. */
  lemma {:induction false} TokenEndOfWord(s: string, w: string, delims: set<char>, i: nat)
    requires |w| <= |s| && s[..|w|] == w && NoDelims(w, delims)
    requires |w| < |s| ==> s[|w|] in delims
    requires i <= |w|
    ensures TokenEnd(s, delims, i) == |w|
    decreases |w| - i
  {
    if i < |w| {
      assert s[i] == w[i];
      TokenEndOfWord(s, w, delims, i + 1);
    }
  }

  /** A leading delimiter changes neither the token nor the cursor. */
  lemma {:induction false} StrTokSkipsLeading(d: char, s: string, delims: set<char>)
    requires d in delims
    ensures StrTok([d] + s, delims) == StrTok(s, delims)
  {
    var k, e := FindCuts(s, delims);
    ShiftCuts(d, s, delims, k, e);
    StrTokAt(s, delims, k, e);
    StrTokAt([d] + s, delims, k + 1, e + 1);
    CutShift(d, s, k, e);
  }

  /** `k` is where strtok_s finds the token in `s`, and `e` where the token ends. */
  predicate CutsAt(s: string, delims: set<char>, k: nat, e: nat) {
    && k <= |s| && k == SkipDelims(s, delims, 0)
    && (k < |s| ==> e == TokenEnd(s, delims, k))
  }

  /** The places where strtok_s cuts `s`. */
  lemma FindCuts(s: string, delims: set<char>) returns (k: nat, e: nat)
    ensures CutsAt(s, delims, k, e)
  {
    k := SkipDelims(s, delims, 0);
    e := if k == |s| then k else TokenEnd(s, delims, k);
  }

  /** The token and cursor of `s` cut at `k` and `e`. */
  function Cut(s: string, k: nat, e: nat): (Option<string>, string)
    requires k <= |s| && (k < |s| ==> k <= e <= |s|)
  {
    if k == |s| then (None, [])
    else (Some(s[k..e]), if e == |s| then [] else s[e + 1..])
  }

  /** Behind one more delimiter the cuts move one index on. */
  lemma ShiftCuts(d: char, s: string, delims: set<char>, k: nat, e: nat)
    requires d in delims && CutsAt(s, delims, k, e)
    ensures CutsAt([d] + s, delims, k + 1, e + 1)
  {
    SkipDelimsShift(d, s, delims, 0);
    if k < |s| {
      TokenEndShift(d, s, delims, k);
    }
  }

  /** StrTok is the cut at the places SkipDelims and TokenEnd find. */
  lemma StrTokAt(s: string, delims: set<char>, k: nat, e: nat)
    requires CutsAt(s, delims, k, e)
    ensures k < |s| ==> k <= e <= |s|
    ensures StrTok(s, delims) == Cut(s, k, e)
  {
  }

  /** Cutting `[d] + s` one index later is cutting `s`. */
  lemma CutShift(d: char, s: string, k: nat, e: nat)
    requires k <= |s| && (k < |s| ==> k <= e <= |s|)
    ensures Cut([d] + s, k + 1, e + 1) == Cut(s, k, e)
  {
    if k < |s| {
      assert ([d] + s)[k + 1..e + 1] == s[k..e];
      if e < |s| {
        assert ([d] + s)[e + 2..] == s[e + 1..];
      }
    }
  }

  /** SkipDelims on `[d] + s` is SkipDelims on `s`, one index later. */
  lemma {:induction false} SkipDelimsShift(d: char, s: string, delims: set<char>, i: nat)
    requires d in delims && i <= |s|
    ensures SkipDelims([d] + s, delims, i + 1) == SkipDelims(s, delims, i) + 1
    ensures SkipDelims([d] + s, delims, 0) == SkipDelims([d] + s, delims, 1)
    decreases |s| - i
  {
    assert ([d] + s)[0] == d;
    if i < |s| {
      assert ([d] + s)[i + 1] == s[i];
      if s[i] in delims {
        SkipDelimsShift(d, s, delims, i + 1);
      }
    }
  }

  /** TokenEnd on `[d] + s` is TokenEnd on `s`, one index later. */
  lemma {:induction false} TokenEndShift(d: char, s: string, delims: set<char>, i: nat)
    requires i <= |s|
    ensures TokenEnd([d] + s, delims, i + 1) == TokenEnd(s, delims, i) + 1
    decreases |s| - i
  {
    if i < |s| {
      assert ([d] + s)[i + 1] == s[i];
      if s[i] !in delims {
        TokenEndShift(d, s, delims, i + 1);
      }
    }
  }
}
