/** Whitespace trimming as done by Go's `strings.TrimSpace`: leading and
    trailing white space is removed, where white space is the Unicode
    White_Space property that `unicode.IsSpace` tests.
 */
module Strings {

  /** Go's `unicode.IsSpace`: the Unicode White_Space characters. */
  predicate IsSpace(c: char) {
    || c == '\t' || c == '\n' || c == '\U{000B}' || c == '\U{000C}' || c == '\r' || c == ' '
    || c == '\U{0085}' || c == '\U{00A0}' || c == '\U{1680}'
    || ('\U{2000}' <= c <= '\U{200A}')
    || c == '\U{2028}' || c == '\U{2029}' || c == '\U{202F}' || c == '\U{205F}' || c == '\U{3000}'
  }

  ghost predicate AllSpace(s: string) {
    forall k :: 0 <= k < |s| ==> IsSpace(s[k])
  }

  /** Neither end of `s` is white space. */
  ghost predicate Trimmed(s: string) {
    s == [] || (!IsSpace(s[0]) && !IsSpace(s[|s| - 1]))
  }

  /** `r` is `s` with its white-space margins cut off, at offsets `i` and `j`. */
  ghost predicate TrimsAt(r: string, s: string, i: int, j: int) {
    && 0 <= i <= j <= |s|
    && r == s[i..j]
    && (forall k :: 0 <= k < i ==> IsSpace(s[k]))
    && (forall k :: j <= k < |s| ==> IsSpace(s[k]))
    && Trimmed(r)
  }

  /** The position of the first character at or after `i` that is not white
      space, or `|s|` when there is none. */
  function SkipSpace(s: string, i: nat): (n: nat)
    requires i <= |s|
    ensures i <= n <= |s|
    ensures forall k :: i <= k < n ==> IsSpace(s[k])
    ensures n < |s| ==> !IsSpace(s[n])
    decreases |s| - i
  {
    if i == |s| || !IsSpace(s[i]) then i else SkipSpace(s, i + 1)
  }

  /** The position just after the last character before `j`, and not before
      `lo`, that is not white space, or `lo` when there is none. */
  function SkipSpaceBack(s: string, lo: nat, j: nat): (n: nat)
    requires lo <= j <= |s|
    ensures lo <= n <= j
    ensures forall k :: n <= k < j ==> IsSpace(s[k])
    ensures n > lo ==> !IsSpace(s[n - 1])
    decreases j
  {
    if j == lo || !IsSpace(s[j - 1]) then j else SkipSpaceBack(s, lo, j - 1)
  }

  /** Go's `strings.TrimSpace`: skip white space from the front, then from the
      back down to where the front scan stopped. */
  function TrimSpace(s: string): (r: string)
    ensures exists i, j :: TrimsAt(r, s, i, j)
  {
    var i := SkipSpace(s, 0);
    var j := SkipSpaceBack(s, i, |s|);
    assert TrimsAt(s[i..j], s, i, j) by {
      if i < j {
        assert s[i..j][0] == s[i];
        assert s[i..j][j - i - 1] == s[j - 1];
      }
    }
    s[i..j]
  }

  /** The offsets at which `TrimSpace` cuts. */
  lemma TrimSpaceWitness(s: string) returns (r: string, i: int, j: int)
    ensures r == TrimSpace(s) && TrimsAt(r, s, i, j)
  {
    r := TrimSpace(s);
    i, j :| TrimsAt(r, s, i, j);
  }

  /** Only one string trims `s`: the contract of `TrimSpace` determines it. */
  lemma TrimmingIsUnique(r: string, r': string, s: string, i: int, j: int, i': int, j': int)
    requires TrimsAt(r, s, i, j) && TrimsAt(r', s, i', j')
    ensures r == r'
  {
    if r != [] && r' != [] {
      assert r[0] == s[i] && r'[0] == s[i'];
      assert r[|r| - 1] == s[j - 1] && r'[|r'| - 1] == s[j' - 1];
    }
  }

  /** Trimming twice is trimming once. */
  lemma TrimSpaceIdempotent(s: string)
    ensures TrimSpace(TrimSpace(s)) == TrimSpace(s)
  {
    var r := TrimSpace(s);
    var i, j :| TrimsAt(r, s, i, j);
    assert TrimsAt(r, r, 0, |r|);
    var r2 := TrimSpace(r);
    var i2, j2 :| TrimsAt(r2, r, i2, j2);
    TrimmingIsUnique(r2, r, r, i2, j2, 0, |r|);
  }

  /** A trimming of `t` is also a trimming of `t` padded with white space. */
  lemma PaddedTrimsAt(w: string, t: string, w': string, r: string, i: int, j: int)
    requires AllSpace(w) && AllSpace(w')
    requires TrimsAt(r, t, i, j)
    ensures TrimsAt(r, w + t + w', |w| + i, |w| + j)
  {
    var s := w + t + w';
    assert forall k :: 0 <= k < |w| ==> s[k] == w[k];
    assert forall k :: |w| <= k < |w| + |t| ==> s[k] == t[k - |w|];
    assert forall k :: |w| + |t| <= k < |s| ==> s[k] == w'[k - |w| - |t|];
    assert s[|w| + i..|w| + j] == t[i..j] by {
      assert s[|w|..|w| + |t|] == t;
    }
  }

  /** Any trimming of `s` is the result of `TrimSpace`. */
  lemma TrimSpaceIsTheTrimming(s: string, r: string, i: int, j: int)
    requires TrimsAt(r, s, i, j)
    ensures TrimSpace(s) == r
  {
    var r', i', j' := TrimSpaceWitness(s);
    TrimmingIsUnique(r', r, s, i', j', i, j);
  }

  /** White space around a string does not change its trimming. */
  lemma TrimSpaceIgnoresPadding(w: string, t: string, w': string)
    requires AllSpace(w) && AllSpace(w')
    ensures TrimSpace(w + t + w') == TrimSpace(t)
  {
    var r, i, j := TrimSpaceWitness(t);
    PaddedTrimsAt(w, t, w', r, i, j);
    TrimSpaceIsTheTrimming(w + t + w', r, |w| + i, |w| + j);
  }

  /** A string made only of white space trims to the empty string. */
  lemma TrimSpaceOfBlank(w: string)
    requires AllSpace(w)
    ensures TrimSpace(w) == ""
  {
    var r := TrimSpace(w);
    var i, j :| TrimsAt(r, w, i, j);
  }
}
