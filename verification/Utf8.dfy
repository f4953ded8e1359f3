/** Well-formed UTF-8 as in section 3 of RFC 3629; a `char` stands for one byte. */
module Utf8 {

  predicate IsCont(c: char) { 0x80 <= c as int < 0xc0 }

  predicate In(s: string, i: nat, lo: int, hi: int) {
    i < |s| && lo <= s[i] as int <= hi
  }

  /** The ranges of the first two bytes. */
  predicate Two(s: string, lo0: int, hi0: int, lo1: int, hi1: int) {
    In(s, 0, lo0, hi0) && In(s, 1, lo1, hi1)
  }

  /** The length of the well-formed character at the front, or 0. */
  function Head(s: string): (n: nat)
    ensures n <= |s| && n <= 4
    ensures n > 0 ==> !IsCont(s[0])
    ensures forall k :: 1 <= k < n ==> IsCont(s[k])
  {
    if In(s, 0, 0, 0x7f) then 1
    else if Two(s, 0xc2, 0xdf, 0x80, 0xbf) then 2
    else if In(s, 2, 0x80, 0xbf)
            && (Two(s, 0xe0, 0xe0, 0xa0, 0xbf) || Two(s, 0xe1, 0xec, 0x80, 0xbf)
                || Two(s, 0xed, 0xed, 0x80, 0x9f) || Two(s, 0xee, 0xef, 0x80, 0xbf)) then 3
    else if In(s, 2, 0x80, 0xbf) && In(s, 3, 0x80, 0xbf)
            && (Two(s, 0xf0, 0xf0, 0x90, 0xbf) || Two(s, 0xf1, 0xf3, 0x80, 0xbf) || Two(s, 0xf4, 0xf4, 0x80, 0x8f)) then 4
    else 0
  }

  predicate WellFormed(s: string)
    decreases |s|
  {
    s == "" || (Head(s) > 0 && WellFormed(s[Head(s)..]))
  }

  /** Some continuation makes the text well-formed. */
  ghost predicate Prefix(s: string) {
    exists t :: WellFormed(s + t)
  }

  lemma HeadOfPrefix(a: string, b: string)
    requires Head(a) > 0
    ensures Head(a + b) == Head(a)
  {
  }

  /** A well-formed front may be taken off a well-formed text. */
  lemma {:induction false} DropFront(a: string, b: string)
    requires WellFormed(a) && WellFormed(a + b)
    ensures WellFormed(b)
    decreases |a|
  {
    if a == "" {
      assert a + b == b;
    } else {
      HeadOfPrefix(a, b);
      var n := Head(a);
      assert (a + b)[n..] == a[n..] + b;
      DropFront(a[n..], b);
    }
  }

  lemma {:induction false} AppendWellFormed(a: string, b: string)
    requires WellFormed(a) && WellFormed(b)
    ensures WellFormed(a + b)
    decreases |a|
  {
    if a == "" {
      assert a + b == b;
    } else {
      HeadOfPrefix(a, b);
      var n := Head(a);
      assert (a + b)[n..] == a[n..] + b;
      AppendWellFormed(a[n..], b);
    }
  }

  predicate AtBoundary(s: string, k: nat) {
    k == |s| || (k < |s| && !IsCont(s[k]))
  }

  lemma HeadAlone(s: string, n: nat)
    requires n == Head(s) > 0
    ensures WellFormed(s[..n])
  {
    var head := s[..n];
    assert Head(head) == n;
    assert head[n..] == "";
  }

  /** A well-formed text may be cut wherever a code point starts, or at its end. */
  lemma {:induction false} CutAtBoundary(s: string, k: nat)
    requires WellFormed(s) && k <= |s| && AtBoundary(s, k)
    ensures WellFormed(s[..k]) && WellFormed(s[k..])
    decreases |s|
  {
    if k == 0 {
      assert s[0..] == s;
    } else {
      var n := Head(s);
      assert k >= n;
      CutAtBoundary(s[n..], k - n);
      HeadAlone(s, n);
      AppendWellFormed(s[..n], s[n..][..k - n]);
      CutGlue(s, n, k);
    }
  }

  lemma CutGlue(s: string, n: nat, k: nat)
    requires n <= k <= |s|
    ensures s[..n] + s[n..][..k - n] == s[..k] && s[n..][k - n..] == s[k..]
  {
  }

  /** In well-formed text a boundary is followed by a whole character. */
  lemma BoundaryHead(s: string, k: nat)
    requires WellFormed(s) && k < |s| && !IsCont(s[k])
    ensures Head(s[k..]) > 0 && AtBoundary(s, k + Head(s[k..]))
  {
    CutAtBoundary(s, k);
    var t := s[k..];
    var n := Head(t);
    if n < |t| {
      assert WellFormed(t[n..]);
      assert !IsCont(t[n..][0]);
      assert t[n] == s[k + n];
    }
  }
}
