/** The JavaScript string operations the server relies on: the whitespace
    class shared by the regular-expression escape `\s` and
    `String.prototype.trim`, trimming, prefix and suffix tests, and searching
    for the first occurrence of a fixed string. Strings are sequences of
    Unicode code points; the source's UTF-16 strings hold the same text, and
    searching for a well-formed string gives the same first match in both. */
module Text {
  import opened Common

  /** ECMAScript WhiteSpace and LineTerminator code points, which is the set
      matched by `\s` and removed by `trim()`. */
  predicate IsWs(c: char) {
    || c == '\t' || c == '\n' || c == '\U{000B}' || c == '\U{000C}' || c == '\r'
    || c == ' ' || c == '\U{00A0}' || c == '\U{1680}'
    || ('\U{2000}' <= c <= '\U{200A}')
    || c == '\U{2028}' || c == '\U{2029}' || c == '\U{202F}' || c == '\U{205F}'
    || c == '\U{3000}' || c == '\U{FEFF}'
  }

  predicate IsBlank(s: string) {
    forall i :: 0 <= i < |s| ==> IsWs(s[i])
  }

  /** Neither end of `s` is whitespace (vacuously true of the empty string). */
  predicate IsTrimmed(s: string) {
    s == [] || (!IsWs(s[0]) && !IsWs(s[|s| - 1]))
  }

  /** The end of the run of whitespace that starts at `i`. */
  function SkipWs(s: string, i: nat): (j: nat)
    requires i <= |s|
    ensures i <= j <= |s|
    ensures forall k :: i <= k < j ==> IsWs(s[k])
    ensures j == |s| || !IsWs(s[j])
    decreases |s| - i
  {
    if i < |s| && IsWs(s[i]) then SkipWs(s, i + 1) else i
  }

  /** The start of the run of whitespace that ends at `j`, going back no
      further than `lo`. */
  function BackWs(s: string, lo: nat, j: nat): (i: nat)
    requires lo <= j <= |s|
    ensures lo <= i <= j
    ensures forall k :: i <= k < j ==> IsWs(s[k])
    ensures i == lo || !IsWs(s[i - 1])
    decreases j - lo
  {
    if lo < j && IsWs(s[j - 1]) then BackWs(s, lo, j - 1) else j
  }

  /** The run of whitespace is determined by where it stops. */
  lemma {:induction false} SkipWsStops(s: string, i: nat, j: nat)
    requires i <= j <= |s|
    requires forall k :: i <= k < j ==> IsWs(s[k])
    requires j == |s| || !IsWs(s[j])
    ensures SkipWs(s, i) == j
    decreases j - i
  {
    if i < j {
      SkipWsStops(s, i + 1, j);
    }
  }

  lemma {:induction false} BackWsStops(s: string, lo: nat, i: nat, j: nat)
    requires lo <= i <= j <= |s|
    requires forall k :: i <= k < j ==> IsWs(s[k])
    requires i == lo || !IsWs(s[i - 1])
    ensures BackWs(s, lo, j) == i
    decreases j - i
  {
    if i < j {
      BackWsStops(s, lo, i, j - 1);
    }
  }

  /** Where the text left by `trim()` starts in its argument. */
  function TrimOffset(s: string): (o: nat)
    ensures o <= |s|
  {
    SkipWs(s, 0)
  }

  /** Drops the leading whitespace of `s`: what `\s*` consumes before a capture. */
  function TrimStart(s: string): (r: string)
    ensures |r| <= |s| && r == s[|s| - |r|..]
    ensures IsBlank(s[..|s| - |r|])
    ensures r == [] || !IsWs(r[0])
    ensures r == [] <==> IsBlank(s)
  {
    var o := SkipWs(s, 0);
    assert IsBlank(s) ==> o == |s|;
    s[o..]
  }

  /** `String.prototype.trim`. */
  function Trim(s: string): (r: string)
    ensures IsTrimmed(r)
    ensures r == [] <==> IsBlank(s)
    ensures TrimOffset(s) + |r| <= |s| && s[TrimOffset(s)..TrimOffset(s) + |r|] == r
  {
    var o := SkipWs(s, 0);
    var e := BackWs(s, o, |s|);
    assert IsBlank(s) ==> o == |s|;
    assert o == e ==> IsBlank(s) by {
      if o == e {
        forall k | 0 <= k < |s|
          ensures IsWs(s[k])
        {
        }
      }
    }
    s[o..e]
  }

  /** Trimming removes exactly the surrounding whitespace: together with the
      contract of `Trim` this determines `trim()` completely. */
  lemma TrimPadded(w1: string, r: string, w2: string)
    requires IsBlank(w1) && IsBlank(w2) && IsTrimmed(r)
    ensures Trim(w1 + r + w2) == r
  {
    var s := w1 + r + w2;
    if r == [] {
      SkipWsStops(s, 0, |s|);
      assert s[|s|..|s|] == r;
    } else {
      var e := |w1| + |r|;
      assert s[|w1|] == r[0] && s[e - 1] == r[|r| - 1];
      SkipWsStops(s, 0, |w1|);
      BackWsStops(s, |w1|, e, |s|);
      assert s[|w1|..e] == r;
    }
  }

  lemma TrimOfTrimmed(r: string)
    requires IsTrimmed(r)
    ensures Trim(r) == r
  {
    TrimPadded([], r, []);
    assert [] + r + [] == r;
  }

  /** What is left after the leading whitespace is the trimmed text
      followed by the trailing whitespace. */
  lemma TrimStartSplits(s: string) returns (w: string)
    ensures IsBlank(w) && TrimStart(s) == Trim(s) + w
  {
    var o := SkipWs(s, 0);
    var e := BackWs(s, o, |s|);
    w := s[e..];
    forall k | 0 <= k < |w|
      ensures IsWs(w[k])
    {
      assert w[k] == s[e + k];
    }
    assert s[o..] == s[o..e] + w;
  }

  /** Trimming the front first does not change what `trim()` returns. */
  lemma TrimAfterTrimStart(s: string)
    ensures Trim(TrimStart(s)) == Trim(s)
  {
    var w := TrimStartSplits(s);
    TrimPadded([], Trim(s), w);
    assert [] + Trim(s) + w == TrimStart(s);
  }

  /** `s.startsWith(p)`. */
  predicate StartsWith(s: string, p: string) {
    |p| <= |s| && s[..|p|] == p
  }

  /** A string that starts with `p` starts with every prefix of `p`. */
  lemma StartsWithPrefix(s: string, p: string, n: nat)
    requires n <= |p|
    ensures StartsWith(s, p) ==> StartsWith(s, p[..n])
  {
    if StartsWith(s, p) {
      assert s[..n] == s[..|p|][..n];
    }
  }

  /** `s.endsWith(p)`, the test behind an end-anchored `replace(/p$/, "")`. */
  predicate EndsWith(s: string, p: string) {
    |p| <= |s| && s[|s| - |p|..] == p
  }

  /** `s.replace(/p$/, "")` for a literal `p`: drops one trailing `p`. */
  function DropSuffix(s: string, p: string): (r: string)
    ensures EndsWith(s, p) ==> r + p == s
    ensures !EndsWith(s, p) ==> r == s
  {
    if EndsWith(s, p) then s[..|s| - |p|] else s
  }

  predicate OccursAt(s: string, pat: string, i: int) {
    0 <= i && i + |pat| <= |s| && s[i..i + |pat|] == pat
  }

  /** `i` is where the first occurrence of `pat` at or after `from` begins. */
  predicate FirstAt(s: string, pat: string, from: int, i: int) {
    from <= i && OccursAt(s, pat, i) && forall k :: from <= k < i ==> !OccursAt(s, pat, k)
  }

  /** `s.indexOf(pat, from)`, with `None` for -1: the left-most match a
      regular expression that begins with the literal `pat` tries first. */
  function IndexOf(s: string, pat: string, from: nat): (r: Option<nat>)
    requires from <= |s|
    ensures r.Some? ==> FirstAt(s, pat, from, r.value)
    ensures r.None? ==> forall k :: from <= k ==> !OccursAt(s, pat, k)
    decreases |s| - from
  {
    if OccursAt(s, pat, from) then Some(from)
    else if from == |s| then None
    else IndexOf(s, pat, from + 1)
  }

  /** `s.includes(pat)`. */
  function Includes(s: string, pat: string): (r: bool)
    ensures r <==> exists i :: OccursAt(s, pat, i)
  {
    IndexOf(s, pat, 0).Some?
  }

  /** The search finds the first occurrence, whichever one that is. */
  lemma IndexOfFinds(s: string, pat: string, from: nat, i: nat)
    requires from <= |s| && FirstAt(s, pat, from, i)
    ensures IndexOf(s, pat, from) == Some(i)
  {
  }

  /** If `pat[j]` is absent from `p` and differs from the characters of
      `pat` before it, then in `p + x` where `x` starts with `pat`, the first
      occurrence of `pat` is the one right after `p`. This is how a marker
      is shown to be found exactly where it was placed. */
  lemma FirstAfterPrefix(p: string, x: string, pat: string, j: nat)
    requires StartsWith(x, pat)
    requires j < |pat| && pat[j] !in p
    requires forall m :: 0 <= m < j ==> pat[m] != pat[j]
    ensures FirstAt(p + x, pat, 0, |p|)
  {
    var s := p + x;
    assert s[|p|..|p| + |pat|] == x[..|pat|];
    forall k | 0 <= k < |p|
      ensures !OccursAt(s, pat, k)
    {
      if k + |pat| <= |s| {
        if k + j < |p| {
          assert s[k + j] == p[k + j];
        } else {
          assert s[k + j] == x[k + j - |p|] == pat[k + j - |p|];
        }
        assert s[k..k + |pat|][j] != pat[j];
      }
    }
  }
}
