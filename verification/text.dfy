/**
 Whitespace trimming as Go's strings.TrimSpace performs it: leading and
 trailing runes for which unicode.IsSpace holds are removed, nothing else.
 */
module Text {

  /** Go's unicode.IsSpace: the Latin-1 spaces plus the Unicode White_Space runes above Latin-1. */
  predicate IsSpace(c: char) {
    || c == ' ' || c == '\t' || c == '\n' || c == '\U{000B}' || c == '\U{000C}' || c == '\r'
    || c == '\U{0085}' || c == '\U{00A0}' || c == '\U{1680}'
    || ('\U{2000}' <= c <= '\U{200A}')
    || c == '\U{2028}' || c == '\U{2029}' || c == '\U{202F}' || c == '\U{205F}' || c == '\U{3000}'
  }

  /** Every character of t is a space. */
  predicate AllSpace(t: string) {
    forall k :: 0 <= k < |t| ==> IsSpace(t[k])
  }

  /** t neither starts nor ends with a space. */
  predicate IsTrimmed(t: string) {
    t == [] || (!IsSpace(t[0]) && !IsSpace(t[|t| - 1]))
  }

  /** r is the slice s[i..i + |r|] and everything of s outside that slice is space. */
  predicate PaddedBy(s: string, r: string, i: nat) {
    i + |r| <= |s| && r == s[i..i + |r|] && AllSpace(s[..i]) && AllSpace(s[i + |r|..])
  }

  /** Drops the leading spaces: the result is the suffix of s that starts at its first non-space. */
  function TrimLeft(s: string): (r: string)
    ensures |r| <= |s| && r == s[|s| - |r|..]
    ensures AllSpace(s[..|s| - |r|])
    ensures r == [] || !IsSpace(r[0])
  {
    if |s| == 0 || !IsSpace(s[0]) then s
    else
      var r := TrimLeft(s[1..]);
      TrimLeftSlices(s, r);
      r
  }

  /** The recursive case of TrimLeft: a leading space joins the dropped prefix. */
  lemma TrimLeftSlices(s: string, r: string)
    requires |s| > 0 && IsSpace(s[0])
    requires |r| <= |s| - 1 && r == s[1..][|s| - 1 - |r|..] && AllSpace(s[1..][..|s| - 1 - |r|])
    ensures r == s[|s| - |r|..] && AllSpace(s[..|s| - |r|])
  {
    var n := |s| - |r|;
    assert s[1..][|s| - 1 - |r|..] == s[n..];
    assert s[..n] == [s[0]] + s[1..][..n - 1];
  }

  /** Drops the trailing spaces: the result is the prefix of s that ends at its last non-space. */
  function TrimRight(s: string): (r: string)
    ensures |r| <= |s| && r == s[..|r|]
    ensures AllSpace(s[|r|..])
    ensures r == [] || !IsSpace(r[|r| - 1])
  {
    if |s| == 0 || !IsSpace(s[|s| - 1]) then s
    else
      var r := TrimRight(s[..|s| - 1]);
      TrimRightSlices(s, r);
      r
  }

  /** The recursive case of TrimRight: a trailing space joins the dropped suffix. */
  lemma TrimRightSlices(s: string, r: string)
    requires |s| > 0 && IsSpace(s[|s| - 1])
    requires |r| <= |s| - 1 && r == s[..|s| - 1][..|r|] && AllSpace(s[..|s| - 1][|r|..])
    ensures r == s[..|r|] && AllSpace(s[|r|..])
  {
    assert s[..|s| - 1][..|r|] == s[..|r|];
    assert s[|r|..] == s[..|s| - 1][|r|..] + [s[|s| - 1]];
  }

  /**
   strings.TrimSpace: the result is trimmed, and it is a contiguous slice of s
   with nothing but spaces on either side of it.
   */
  function TrimSpace(s: string): (r: string)
    ensures IsTrimmed(r)
    ensures exists i :: PaddedBy(s, r, i)
  {
    var left := TrimLeft(s);
    var r := TrimRight(left);
    TrimSpaceSlices(s, left, r);
    r
  }

  /** A prefix r of a suffix left of s sits in s at the offset where left starts. */
  lemma TrimSpaceSlices(s: string, left: string, r: string)
    requires |left| <= |s| && left == s[|s| - |left|..] && AllSpace(s[..|s| - |left|])
    requires |r| <= |left| && r == left[..|r|] && AllSpace(left[|r|..])
    ensures PaddedBy(s, r, |s| - |left|)
    ensures r != [] ==> r[0] == left[0]
  {
    var i := |s| - |left|;
    assert s[i + |r|..] == left[|r|..];
    assert s[i..i + |r|] == left[..|r|];
  }

  lemma {:induction false} TrimLeftOfSpaces(a: string, t: string)
    requires AllSpace(a)
    requires t == [] || !IsSpace(t[0])
    ensures TrimLeft(a + t) == t
    decreases |a|
  {
    if a == [] {
      assert a + t == t;
    } else {
      assert (a + t)[1..] == a[1..] + t;
      TrimLeftOfSpaces(a[1..], t);
    }
  }

  lemma {:induction false} TrimRightOfSpaces(t: string, b: string)
    requires AllSpace(b)
    requires t == [] || !IsSpace(t[|t| - 1])
    ensures TrimRight(t + b) == t
    decreases |b|
  {
    if b == [] {
      assert t + b == t;
    } else {
      assert (t + b)[..|t + b| - 1] == t + b[..|b| - 1];
      TrimRightOfSpaces(t, b[..|b| - 1]);
    }
  }

  /**
   TrimSpace is determined by its contract: whenever s is a trimmed t padded
   with spaces on both sides, TrimSpace(s) is exactly t.
   */
  lemma TrimSpaceOfPadded(a: string, t: string, b: string)
    requires AllSpace(a) && AllSpace(b) && IsTrimmed(t)
    ensures TrimSpace(a + t + b) == t
  {
    if t == [] {
      assert a + t + b == a + b;
      assert AllSpace(a + b);
      TrimLeftOfSpaces(a + b, []);
      assert a + b + [] == a + b;
    } else {
      assert a + t + b == a + (t + b);
      TrimLeftOfSpaces(a, t + b);
      TrimRightOfSpaces(t, b);
    }
  }

  /** Trimming twice is trimming once. */
  lemma TrimSpaceIdempotent(s: string)
    ensures TrimSpace(TrimSpace(s)) == TrimSpace(s)
  {
    var t := TrimSpace(s);
    TrimSpaceOfPadded([], t, []);
    assert [] + t + [] == t;
  }

  /** A non-space character outside the padding lies inside the slice. */
  lemma PaddedKeeps(s: string, r: string, i: nat, k: nat)
    requires PaddedBy(s, r, i)
    requires k < |s| && !IsSpace(s[k])
    ensures i <= k < i + |r| && r[k - i] == s[k]
  {
  }

  /** A non-space character of s survives trimming. */
  lemma TrimSpaceKeeps(s: string, k: nat)
    requires k < |s| && !IsSpace(s[k])
    ensures s[k] in TrimSpace(s)
  {
    var r := TrimSpace(s);
    var i :| PaddedBy(s, r, i);
    PaddedKeeps(s, r, i, k);
  }
}
