/**
 * The two JavaScript string built-ins the screens rely on:
 * `String.prototype.trim` and `replace` with a global regular expression made
 * of a literal pattern (no metacharacters), which rewrites every
 * non-overlapping occurrence, scanning left to right.
 */
module JsString {

  /**
   * ECMAScript WhiteSpace and LineTerminator code points, the set `trim`
   * strips: TAB, VT, FF, SP, NBSP, ZWNBSP, the other Unicode space separators,
   * LF, CR, LS and PS.
   */
  predicate IsWhitespace(c: char) {
    || c == '\t' || c == '\n' || c == '\U{000B}' || c == '\U{000C}' || c == '\r'
    || c == ' ' || c == '\U{00A0}' || c == '\U{1680}'
    || ('\U{2000}' <= c <= '\U{200A}')
    || c == '\U{2028}' || c == '\U{2029}' || c == '\U{202F}' || c == '\U{205F}'
    || c == '\U{3000}' || c == '\U{FEFF}'
  }

  predicate AllWhitespace(s: string) {
    forall i :: 0 <= i < |s| ==> IsWhitespace(s[i])
  }

  /** Number of whitespace characters at the front of s. */
  function LeadingWhitespace(s: string): (n: nat)
    ensures n <= |s|
    ensures forall i :: 0 <= i < n ==> IsWhitespace(s[i])
    ensures n == |s| || !IsWhitespace(s[n])
  {
    if s != [] && IsWhitespace(s[0]) then 1 + LeadingWhitespace(s[1..]) else 0
  }

  /** Length of s without its trailing whitespace. */
  function KeptLength(s: string): (n: nat)
    ensures n <= |s|
    ensures forall i :: n <= i < |s| ==> IsWhitespace(s[i])
    ensures n == 0 || !IsWhitespace(s[n - 1])
  {
    if s != [] && IsWhitespace(s[|s| - 1]) then KeptLength(s[..|s| - 1]) else |s|
  }

  /** The front-whitespace count is the first position that is not whitespace (or the end). */
  lemma LeadingWhitespaceIs(s: string, n: nat)
    requires n <= |s| && forall i :: 0 <= i < n ==> IsWhitespace(s[i])
    requires n == |s| || !IsWhitespace(s[n])
    ensures LeadingWhitespace(s) == n
  {
  }

  /** The kept length is the position after the last character that is not whitespace (or zero). */
  lemma KeptLengthIs(s: string, n: nat)
    requires n <= |s| && forall i :: n <= i < |s| ==> IsWhitespace(s[i])
    requires n == 0 || !IsWhitespace(s[n - 1])
    ensures KeptLength(s) == n
  {
  }

  /**
   * `s.trim()`: the trailing whitespace is cut first, then the leading
   * whitespace of what is left; the result neither starts nor ends with
   * whitespace.
   */
  function Trim(s: string): (r: string)
    ensures |r| <= |s|
    ensures r == [] || (!IsWhitespace(r[0]) && !IsWhitespace(r[|r| - 1]))
  {
    var e := KeptLength(s);
    var b := LeadingWhitespace(s[..e]);
    s[b..e]
  }

  /**
   * Whitespace around a core that has none at its ends is exactly what `trim`
   * removes: the result of `trim` is determined by that decomposition.
   */
  lemma TrimOfPadded(p: string, core: string, q: string)
    requires AllWhitespace(p) && AllWhitespace(q)
    requires core == [] || (!IsWhitespace(core[0]) && !IsWhitespace(core[|core| - 1]))
    ensures Trim(p + core + q) == core
  {
    var s := p + core + q;
    if core == [] {
      KeptLengthIs(s, 0);
      LeadingWhitespaceIs(s[..0], 0);
    } else {
      var e := |p| + |core|;
      assert s[e - 1] == core[|core| - 1];
      KeptLengthIs(s, e);
      assert s[..e] == p + core;
      assert s[..e][|p|] == core[0];
      LeadingWhitespaceIs(s[..e], |p|);
      assert s[|p|..e] == core;
    }
  }

  lemma AllWhitespaceConcat(a: string, b: string)
    requires AllWhitespace(a) && AllWhitespace(b)
    ensures AllWhitespace(a + b)
  {
    forall i | 0 <= i < |a + b| ensures IsWhitespace((a + b)[i]) {
      if i >= |a| { assert (a + b)[i] == b[i - |a|]; }
    }
  }

  /** A string is its leading whitespace, its trimmed core and its trailing whitespace. */
  lemma TrimDecomposes(s: string) returns (p: string, q: string)
    ensures AllWhitespace(p) && AllWhitespace(q)
    ensures s == p + Trim(s) + q
  {
    var e := KeptLength(s);
    var b := LeadingWhitespace(s[..e]);
    p := s[..b];
    q := s[e..];
    assert forall i :: 0 <= i < b ==> p[i] == s[..e][i];
    assert s == s[..b] + s[b..e] + s[e..];
  }

  /** Adding whitespace before or after a string never changes what `trim` gives. */
  lemma TrimIgnoresPadding(w1: string, s: string, w2: string)
    requires AllWhitespace(w1) && AllWhitespace(w2)
    ensures Trim(w1 + s + w2) == Trim(s)
  {
    var p, q := TrimDecomposes(s);
    var r := Trim(s);
    AllWhitespaceConcat(w1, p);
    AllWhitespaceConcat(q, w2);
    Regroup(w1, p, r, q, w2);
    TrimOfPadded(w1 + p, r, q + w2);
  }

  lemma Regroup(a: string, b: string, c: string, d: string, e: string)
    ensures a + (b + c + d) + e == (a + b) + c + (d + e)
  {
  }

  /** `trim` gives the empty string exactly when the input is all whitespace. */
  lemma TrimEmptyIff(s: string)
    ensures Trim(s) == [] <==> AllWhitespace(s)
  {
    if AllWhitespace(s) {
      assert s == s + [] + [];
      TrimOfPadded(s, [], []);
    }
    var p, q := TrimDecomposes(s);
    if Trim(s) == [] {
      assert s == p + q;
      AllWhitespaceConcat(p, q);
    }
  }

  /** `trim` is idempotent. */
  lemma TrimIdempotent(s: string)
    ensures Trim(Trim(s)) == Trim(s)
  {
    var r := Trim(s);
    assert [] + r + [] == r;
    TrimOfPadded([], r, []);
  }

  /** Pattern `pat` occurs in s starting at position i. */
  predicate OccursAt(s: string, pat: string, i: int) {
    0 <= i && i + |pat| <= |s| && s[i..i + |pat|] == pat
  }

  predicate Occurs(s: string, pat: string) {
    exists i | 0 <= i <= |s| - |pat| :: OccursAt(s, pat, i)
  }

  /**
   * `s.replace(/pat/g, rep)` for a literal, non-empty pattern: every
   * non-overlapping occurrence, found left to right, is replaced by rep.
   */
  function ReplaceAll(s: string, pat: string, rep: string): string
    requires pat != []
    decreases |s|
  {
    if |s| < |pat| then s
    else if s[..|pat|] == pat then rep + ReplaceAll(s[|pat|..], pat, rep)
    else [s[0]] + ReplaceAll(s[1..], pat, rep)
  }

  /** A string in which the pattern does not occur comes back unchanged. */
  lemma {:induction false} ReplaceAbsent(s: string, pat: string, rep: string)
    requires pat != [] && !Occurs(s, pat)
    ensures ReplaceAll(s, pat, rep) == s
  {
    if |s| < |pat| {
    } else if s[..|pat|] == pat {
      assert OccursAt(s, pat, 0);
    } else {
      if Occurs(s[1..], pat) {
        var j :| 0 <= j <= |s| - 1 - |pat| && OccursAt(s[1..], pat, j);
        assert s[1..][j..j + |pat|] == s[j + 1..j + 1 + |pat|];
        assert OccursAt(s, pat, j + 1);
      }
      ReplaceAbsent(s[1..], pat, rep);
      assert [s[0]] + s[1..] == s;
    }
  }

  /**
   * With a replacement at least as long as the pattern the text never
   * shrinks; with a strictly longer one it grows exactly when the pattern
   * occurs.
   */
  lemma {:induction false} ReplaceLength(s: string, pat: string, rep: string)
    requires pat != [] && |rep| >= |pat|
    ensures |ReplaceAll(s, pat, rep)| >= |s|
    ensures |rep| > |pat| ==> (|ReplaceAll(s, pat, rep)| > |s| <==> Occurs(s, pat))
  {
    if |s| < |pat| {
    } else if s[..|pat|] == pat {
      ReplaceLength(s[|pat|..], pat, rep);
      assert OccursAt(s, pat, 0);
    } else {
      ReplaceLength(s[1..], pat, rep);
      if Occurs(s, pat) {
        var i :| 0 <= i <= |s| - |pat| && OccursAt(s, pat, i);
        assert i != 0;
        assert s[1..][i - 1..i - 1 + |pat|] == s[i..i + |pat|];
        assert OccursAt(s[1..], pat, i - 1);
      }
      if Occurs(s[1..], pat) {
        var j :| 0 <= j <= |s| - 1 - |pat| && OccursAt(s[1..], pat, j);
        assert s[1..][j..j + |pat|] == s[j + 1..j + 1 + |pat|];
        assert OccursAt(s, pat, j + 1);
      }
    }
  }
}
