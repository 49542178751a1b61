/** The Python `str` operations that the websocket endpoint applies to an
    inbound frame and to the provider name: `startswith`, `replace(old, "")`,
    `strip()`, `lower()` and `upper()`. Strings are sequences of code points. */
module Text {

  /** `s.startswith(p)` */
  predicate StartsWith(s: string, p: string) {
    |p| <= |s| && s[..|p|] == p
  }

  /** True iff `p` occurs in `s` starting at index `i`. */
  predicate OccursAt(s: string, p: string, i: int) {
    0 <= i && i + |p| <= |s| && s[i..i + |p|] == p
  }

  /** `s.replace(p, "")` for a non-empty `p`: one left-to-right scan that
      deletes every non-overlapping occurrence of `p`. */
  function RemoveAll(s: string, p: string): (r: string)
    requires p != []
    ensures |r| <= |s|
    decreases |s|
  {
    if |s| < |p| then s
    else if s[..|p|] == p then RemoveAll(s[|p|..], p)
    else [s[0]] + RemoveAll(s[1..], p)
  }

  /** `p` cannot occur where `s` holds a character other than `p`'s first. */
  lemma NotOccursAtHead(s: string, p: string, i: int)
    requires p != [] && 0 <= i < |s| && s[i] != p[0]
    ensures !OccursAt(s, p, i)
  {
    if i + |p| <= |s| {
      assert s[i..i + |p|][0] == s[i];
    }
  }

  /** A text in which `p` does not occur comes out of the scan unchanged. */
  lemma {:induction false} RemoveAllAbsent(s: string, p: string)
    requires p != []
    requires forall i :: 0 <= i < |s| ==> !OccursAt(s, p, i)
    ensures RemoveAll(s, p) == s
    decreases |s|
  {
    if |s| >= |p| {
      RemoveAllSkip(s, p);
      forall i | 0 <= i < |s| - 1
        ensures !OccursAt(s[1..], p, i)
      {
        ShiftedOccurrence(s, p, i);
      }
      RemoveAllAbsent(s[1..], p);
      assert [s[0]] + s[1..] == s;
    }
  }

  /** Python's scan consumes a leading occurrence and continues after it. */
  lemma RemoveAllLeading(p: string, rest: string)
    requires p != []
    ensures RemoveAll(p + rest, p) == RemoveAll(rest, p)
  {
    assert (p + rest)[..|p|] == p;
    assert (p + rest)[|p|..] == rest;
  }

  /** The scan keeps, unchanged, every character before the first occurrence
      of `p`, and resumes right after that occurrence: this is how
      `str.replace` is specified (find the leftmost match, copy the text
      before it, continue behind it). */
  lemma {:induction false} RemoveAllFirstOccurrence(a: string, p: string, b: string)
    requires p != []
    requires forall i :: 0 <= i < |a| ==> !OccursAt(a + p + b, p, i)
    ensures RemoveAll(a + p + b, p) == a + RemoveAll(b, p)
    decreases |a|
  {
    var s := a + p + b;
    if a == [] {
      assert s == p + b;
      RemoveAllLeading(p, b);
    } else {
      var t := a[1..] + p + b;
      assert s[1..] == t;
      RemoveAllSkip(s, p);
      forall i | 0 <= i < |a[1..]|
        ensures !OccursAt(t, p, i)
      {
        ShiftedOccurrence(s, p, i);
      }
      RemoveAllFirstOccurrence(a[1..], p, b);
      var rest := RemoveAll(b, p);
      assert s[0] == a[0];
      assert RemoveAll(s, p) == [a[0]] + (a[1..] + rest);
      assert [a[0]] + (a[1..] + rest) == a + rest;
    }
  }

  /** Where `p` does not occur at the front, the scan keeps the first
      character and goes on with the rest. */
  lemma RemoveAllSkip(s: string, p: string)
    requires p != [] && s != [] && !OccursAt(s, p, 0)
    ensures RemoveAll(s, p) == [s[0]] + RemoveAll(s[1..], p)
  {
    if |s| >= |p| {
      assert s[0..|p|] == s[..|p|];
    }
  }

  /** An occurrence in `s[1..]` is an occurrence in `s`, one place further. */
  lemma ShiftedOccurrence(s: string, p: string, i: int)
    requires s != [] && 0 <= i && !OccursAt(s, p, i + 1)
    ensures !OccursAt(s[1..], p, i)
  {
    if i + |p| <= |s| - 1 {
      assert s[1..][i..i + |p|] == s[i + 1..i + 1 + |p|];
    }
  }

  /** `str.isspace()` for one character: the code points CPython's `strip()`
      removes when called without arguments. */
  predicate IsSpace(c: char) {
    var n := c as int;
    (0x09 <= n <= 0x0D) || (0x1C <= n <= 0x20) || n == 0x85 || n == 0xA0
    || n == 0x1680 || (0x2000 <= n <= 0x200A) || n == 0x2028 || n == 0x2029
    || n == 0x202F || n == 0x205F || n == 0x3000
  }

  predicate AllSpace(s: string) {
    forall k :: 0 <= k < |s| ==> IsSpace(s[k])
  }

  /** `s.lstrip()`; `StripLeftSpec` says which suffix of `s` it is. */
  function StripLeft(s: string): string {
    if s != [] && IsSpace(s[0]) then StripLeft(s[1..]) else s
  }

  /** `s.rstrip()`; `StripRightSpec` says which prefix of `s` it is. */
  function StripRight(s: string): string {
    if s != [] && IsSpace(s[|s| - 1]) then StripRight(s[..|s| - 1]) else s
  }

  /** `s.strip()`; `StripSpec` says which slice of `s` it is. */
  function Strip(s: string): string {
    StripRight(StripLeft(s))
  }

  /** `lstrip` removes the longest all-whitespace prefix. */
  lemma {:induction false} StripLeftSpec(s: string)
    ensures var r := StripLeft(s);
      && |r| <= |s| && r == s[|s| - |r|..]
      && (forall k :: 0 <= k < |s| - |r| ==> IsSpace(s[k]))
      && (r != [] ==> !IsSpace(r[0]))
    decreases |s|
  {
    if s != [] && IsSpace(s[0]) {
      StripLeftSpec(s[1..]);
      var r := StripLeft(s[1..]);
      assert s[1..][|s| - 1 - |r|..] == s[|s| - |r|..];
      forall k | 1 <= k < |s| - |r| ensures IsSpace(s[k]) {
        assert s[k] == s[1..][k - 1];
      }
    }
  }

  /** `rstrip` removes the longest all-whitespace suffix. */
  lemma {:induction false} StripRightSpec(s: string)
    ensures var r := StripRight(s);
      && |r| <= |s| && r == s[..|r|]
      && (forall k :: |r| <= k < |s| ==> IsSpace(s[k]))
      && (r != [] ==> !IsSpace(r[|r| - 1]))
    decreases |s|
  {
    if s != [] && IsSpace(s[|s| - 1]) {
      var n := |s| - 1;
      StripRightSpec(s[..n]);
      var r := StripRight(s[..n]);
      assert s[..n][..|r|] == s[..|r|];
      forall k | |r| <= k < n ensures IsSpace(s[k]) {
        assert s[k] == s[..n][k];
      }
    }
  }

  /** `strip` keeps the part of `s` between its leading and its trailing
      whitespace: what is cut off is whitespace, and what is kept neither
      begins nor ends with whitespace. */
  lemma StripSpec(s: string)
    ensures var r := Strip(s); var i := |s| - |StripLeft(s)|;
      && 0 <= i && i + |r| <= |s| && r == s[i..i + |r|]
      && (forall k :: 0 <= k < i ==> IsSpace(s[k]))
      && (forall k :: i + |r| <= k < |s| ==> IsSpace(s[k]))
      && (r != [] ==> !IsSpace(r[0]) && !IsSpace(r[|r| - 1]))
  {
    var l := StripLeft(s);
    var r := StripRight(l);
    var i := |s| - |l|;
    StripLeftSpec(s);
    StripRightSpec(l);
    assert r == s[i..i + |r|] by {
      assert l[..|r|] == s[i..i + |r|];
    }
    forall k | i + |r| <= k < |s| ensures IsSpace(s[k]) {
      assert s[k] == l[k - i];
    }
  }

  /** Stripping undoes any whitespace padding of a text that has no
      whitespace at its ends. */
  lemma {:induction false} StripPadded(pre: string, t: string, post: string)
    requires AllSpace(pre) && AllSpace(post)
    requires t != [] ==> !IsSpace(t[0]) && !IsSpace(t[|t| - 1])
    ensures Strip(pre + t + post) == t
  {
    if t == [] {
      var s := pre + t + post;
      assert AllSpace(s);
      StripLeftSpec(s);
      StripRightSpec(StripLeft(s));
    } else {
      assert (t + post)[0] == t[0];
      assert pre + t + post == pre + (t + post);
      StripLeftPadded(pre, t + post);
      StripRightPadded(t, post);
    }
  }

  lemma {:induction false} StripLeftPadded(pre: string, u: string)
    requires AllSpace(pre)
    requires u != [] ==> !IsSpace(u[0])
    ensures StripLeft(pre + u) == u
    decreases |pre|
  {
    if pre == [] {
      assert pre + u == u;
    } else {
      assert (pre + u)[1..] == pre[1..] + u;
      StripLeftPadded(pre[1..], u);
    }
  }

  lemma {:induction false} StripRightPadded(t: string, post: string)
    requires AllSpace(post)
    requires t != [] ==> !IsSpace(t[|t| - 1])
    ensures StripRight(t + post) == t
    decreases |post|
  {
    if post == [] {
      assert t + post == t;
    } else {
      var n := |post| - 1;
      assert (t + post)[..|t + post| - 1] == t + post[..n];
      StripRightPadded(t, post[..n]);
    }
  }

  /** `c.lower()` for ASCII letters; other characters are left as they are. */
  function LowerChar(c: char): char {
    if 'A' <= c <= 'Z' then (c as int + 32) as char else c
  }

  /** `c.upper()` for ASCII letters; other characters are left as they are. */
  function UpperChar(c: char): char {
    if 'a' <= c <= 'z' then (c as int - 32) as char else c
  }

  /** `s.lower()` */
  function Lower(s: string): (r: string)
    ensures |r| == |s|
    ensures forall i :: 0 <= i < |s| ==> r[i] == LowerChar(s[i])
    ensures forall i :: 0 <= i < |r| ==> !('A' <= r[i] <= 'Z')
  {
    if s == [] then [] else [LowerChar(s[0])] + Lower(s[1..])
  }

  /** Lower-casing leaves a text without upper-case ASCII letters alone;
      in particular lower-casing twice is lower-casing once. */
  lemma {:induction false} LowerFixed(s: string)
    requires forall i :: 0 <= i < |s| ==> !('A' <= s[i] <= 'Z')
    ensures Lower(s) == s
  {
    if s != [] {
      LowerFixed(s[1..]);
      assert [s[0]] + s[1..] == s;
    }
  }

  /** `s.upper()` */
  function Upper(s: string): (r: string)
    ensures |r| == |s|
    ensures forall i :: 0 <= i < |s| ==> r[i] == UpperChar(s[i])
    ensures forall i :: 0 <= i < |r| ==> !('a' <= r[i] <= 'z')
  {
    if s == [] then [] else [UpperChar(s[0])] + Upper(s[1..])
  }
}
