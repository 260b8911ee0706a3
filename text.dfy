/** The few pieces of .NET's string library the templating engine leans on:
    white space as Char.IsWhiteSpace defines it, Trim, string.Join,
    ordinal ignore-case comparison and single-character Replace. */
module Text {

  /** Char.IsWhiteSpace: U+0009..U+000D, the space separators (category Zs),
      U+0085, and the line and paragraph separators U+2028, U+2029. */
  predicate IsWhiteSpace(c: char) {
    || ('\t' <= c <= '\r')
    || c == ' ' || c == '\U{85}' || c == '\U{A0}' || c == '\U{1680}'
    || ('\U{2000}' <= c <= '\U{200A}')
    || c == '\U{2028}' || c == '\U{2029}' || c == '\U{202F}' || c == '\U{205F}' || c == '\U{3000}'
  }

  /** string.IsNullOrWhiteSpace on a string that is not null: empty, or white space only. */
  predicate IsNullOrWhiteSpace(s: string) {
    forall i :: 0 <= i < |s| ==> IsWhiteSpace(s[i])
  }

  /** A string Trim leaves alone: empty, or neither end is white space. */
  predicate IsTrimmed(s: string) {
    s == [] || (!IsWhiteSpace(s[0]) && !IsWhiteSpace(s[|s| - 1]))
  }

  /** The first position at or after i whose character is not white space,
      or |s| when there is none. */
  function SkipWhiteSpace(s: string, i: nat): (k: nat)
    requires i <= |s|
    ensures i <= k <= |s|
    ensures forall m :: i <= m < k ==> IsWhiteSpace(s[m])
    ensures k == |s| || !IsWhiteSpace(s[k])
    decreases |s| - i
  {
    if i < |s| && IsWhiteSpace(s[i]) then SkipWhiteSpace(s, i + 1) else i
  }

  /** Walking back from j, the end of the text once the white space before j
      is dropped; it never goes below lo. */
  function BackOverWhiteSpace(s: string, lo: nat, j: nat): (k: nat)
    requires lo <= j <= |s|
    ensures lo <= k <= j
    ensures forall m :: k <= m < j ==> IsWhiteSpace(s[m])
    ensures k == lo || !IsWhiteSpace(s[k - 1])
  {
    if lo < j && IsWhiteSpace(s[j - 1]) then BackOverWhiteSpace(s, lo, j - 1) else j
  }

  /** string.Trim: white space goes from both ends. */
  function Trim(s: string): (r: string)
    ensures IsTrimmed(r) && |r| <= |s|
  {
    var a := SkipWhiteSpace(s, 0);
    s[a..BackOverWhiteSpace(s, a, |s|)]
  }

  /** The skip stops at the first character that is not white space, and only there. */
  lemma SkipWhiteSpaceAt(s: string, i: nat, k: nat)
    requires i <= k <= |s|
    requires forall m :: i <= m < k ==> IsWhiteSpace(s[m])
    requires k == |s| || !IsWhiteSpace(s[k])
    ensures SkipWhiteSpace(s, i) == k
  {
  }

  /** The walk back stops after the last character that is not white space, and only there. */
  lemma BackOverWhiteSpaceAt(s: string, lo: nat, j: nat, k: nat)
    requires lo <= k <= j <= |s|
    requires forall m :: k <= m < j ==> IsWhiteSpace(s[m])
    requires k == lo || !IsWhiteSpace(s[k - 1])
    ensures BackOverWhiteSpace(s, lo, j) == k
  {
  }

  /** What Trim keeps is a slice of s, and everything it cuts on either side
      is white space. */
  lemma TrimSlice(s: string)
    ensures exists i :: 0 <= i <= |s| - |Trim(s)| && Trim(s) == s[i..i + |Trim(s)|]
              && IsNullOrWhiteSpace(s[..i]) && IsNullOrWhiteSpace(s[i + |Trim(s)|..])
  {
    var a := SkipWhiteSpace(s, 0);
    var b := BackOverWhiteSpace(s, a, |s|);
    assert Trim(s) == s[a..b];
    assert IsNullOrWhiteSpace(s[..a]);
    assert IsNullOrWhiteSpace(s[b..]);
  }

  /** Trim leaves a trimmed string alone. */
  lemma TrimOfTrimmed(s: string)
    requires IsTrimmed(s)
    ensures Trim(s) == s
  {
    SkipWhiteSpaceAt(s, 0, 0);
    BackOverWhiteSpaceAt(s, 0, |s|, |s|);
    assert s[0..|s|] == s;
  }

  /** Trim changes a string only by making it shorter. */
  lemma TrimShortens(s: string)
    ensures |Trim(s)| <= |s|
    ensures !IsTrimmed(s) ==> |Trim(s)| < |s|
  {
    var a := SkipWhiteSpace(s, 0);
    var b := BackOverWhiteSpace(s, a, |s|);
    if |Trim(s)| == |s| {
      assert a == 0 && b == |s|;
      assert s != [] ==> !IsWhiteSpace(s[0]) && !IsWhiteSpace(s[|s| - 1]);
    }
  }

  /** Trim is idempotent. */
  lemma TrimIdempotent(s: string)
    ensures Trim(Trim(s)) == Trim(s)
  {
    TrimOfTrimmed(Trim(s));
  }

  /** White space put around a trimmed text is exactly what Trim takes away. */
  lemma TrimPadded(pre: string, t: string, post: string)
    requires IsNullOrWhiteSpace(pre) && IsNullOrWhiteSpace(post) && IsTrimmed(t)
    ensures Trim(pre + t + post) == t
  {
    var u := pre + t + post;
    var a := |pre|;
    var b := |pre| + |t|;
    if t == [] {
      assert forall m :: 0 <= m < |u| ==> IsWhiteSpace(u[m]) by {
        forall m | 0 <= m < |u| ensures IsWhiteSpace(u[m]) {
          if m < a { assert u[m] == pre[m]; } else { assert u[m] == post[m - a]; }
        }
      }
      SkipWhiteSpaceAt(u, 0, |u|);
      BackOverWhiteSpaceAt(u, |u|, |u|, |u|);
    } else {
      forall m | 0 <= m < a ensures IsWhiteSpace(u[m]) {
        assert u[m] == pre[m];
      }
      assert u[a] == t[0];
      SkipWhiteSpaceAt(u, 0, a);
      forall m | b <= m < |u| ensures IsWhiteSpace(u[m]) {
        assert u[m] == post[m - b];
      }
      assert u[b - 1] == t[|t| - 1];
      BackOverWhiteSpaceAt(u, a, |u|, b);
      assert u[a..b] == t;
    }
  }

  /** string.Join(sep, parts). */
  function Join(sep: string, parts: seq<string>): string
  {
    if |parts| == 0 then []
    else if |parts| == 1 then parts[0]
    else parts[0] + sep + Join(sep, parts[1..])
  }

  /** The upper-case mapping that ordinal ignore-case comparison applies, on ASCII letters. */
  function ToUpperAscii(c: char): char {
    if 'a' <= c <= 'z' then (c as int - 32) as char else c
  }

  /** string.Equals(a, b, StringComparison.OrdinalIgnoreCase), on ASCII letters. */
  predicate EqualsIgnoreCase(a: string, b: string) {
    |a| == |b| && forall i :: 0 <= i < |a| ==> ToUpperAscii(a[i]) == ToUpperAscii(b[i])
  }

  predicate StartsWithIgnoreCase(s: string, prefix: string) {
    |prefix| <= |s| && EqualsIgnoreCase(s[..|prefix|], prefix)
  }

  /** string.Replace(old, rep) for a one-character old value: each occurrence
      of c, left to right, becomes rep; the inserted text is not rescanned. */
  function ReplaceChar(s: string, c: char, rep: string): string
  {
    if s == [] then [] else (if s[0] == c then rep else [s[0]]) + ReplaceChar(s[1..], c, rep)
  }

  lemma {:induction false} ReplaceCharAppend(a: string, b: string, c: char, rep: string)
    ensures ReplaceChar(a + b, c, rep) == ReplaceChar(a, c, rep) + ReplaceChar(b, c, rep)
  {
    if a != [] {
      assert (a + b)[1..] == a[1..] + b;
      ReplaceCharAppend(a[1..], b, c, rep);
    } else {
      assert a + b == b;
    }
  }
}
