/**
 * Python's str.strip() without arguments, over Dafny strings (sequences of Unicode scalar values).
 * Both the completion reply (main.py:153) and the key file contents (apikeycheck.py:24) go through it.
 */
module PyStr {

  /** str.isspace() for one character: the characters str.strip() removes. */
  predicate IsSpace(c: char)
  {
    var n := c as int;
    || (0x09 <= n <= 0x0D)
    || (0x1C <= n <= 0x20)
    || n == 0x85 || n == 0xA0 || n == 0x1680
    || (0x2000 <= n <= 0x200A)
    || n == 0x2028 || n == 0x2029 || n == 0x202F || n == 0x205F || n == 0x3000
  }

  /** Neither the first nor the last character is whitespace. */
  predicate NoEdgeSpace(s: string)
  {
    s == [] || (!IsSpace(s[0]) && !IsSpace(s[|s| - 1]))
  }

  /** r is the slice of s at position i, and everything of s before and after it is whitespace. */
  ghost predicate TrimsAt(s: string, i: int, r: string)
  {
    && 0 <= i && i + |r| <= |s| && s[i..i + |r|] == r
    && (forall k :: 0 <= k < i ==> IsSpace(s[k]))
    && (forall k :: i + |r| <= k < |s| ==> IsSpace(s[k]))
  }

  /** r is s with some whitespace removed at the front and some at the back, and nothing else. */
  ghost predicate Trims(s: string, r: string)
  {
    exists i :: TrimsAt(s, i, r)
  }

  /** str.lstrip(): drops the leading whitespace. */
  function LStrip(s: string): (r: string)
    ensures |r| <= |s| && r == s[|s| - |r|..]
    ensures forall k :: 0 <= k < |s| - |r| ==> IsSpace(s[k])
    ensures r == [] || !IsSpace(r[0])
  {
    if s != [] && IsSpace(s[0]) then
      var r := LStrip(s[1..]);
      assert forall k :: 1 <= k < |s| ==> s[1..][k - 1] == s[k];
      r
    else
      s
  }

  /** str.rstrip(): drops the trailing whitespace. */
  function RStrip(s: string): (r: string)
    ensures |r| <= |s| && r == s[..|r|]
    ensures forall k :: |r| <= k < |s| ==> IsSpace(s[k])
    ensures r == [] || !IsSpace(r[|r| - 1])
  {
    if s != [] && IsSpace(s[|s| - 1]) then
      var r := RStrip(s[..|s| - 1]);
      assert forall k :: 0 <= k < |s| - 1 ==> s[..|s| - 1][k] == s[k];
      r
    else
      s
  }

  /** str.strip(): the result has no whitespace at either edge. */
  function Strip(s: string): (r: string)
    ensures |r| <= |s| && NoEdgeSpace(r)
  {
    var l := LStrip(s);
    var r := RStrip(l);
    assert r != [] ==> r[0] == l[0];
    r
  }

  /** What Strip cuts away is whitespace at the front and at the back, and nothing else. */
  lemma StripTrims(s: string)
    ensures Trims(s, Strip(s))
  {
    var l := LStrip(s);
    var r := RStrip(l);
    var i := |s| - |l|;
    assert l == s[i..];
    assert s[i..i + |r|] == l[..|r|] == r;
    assert forall k :: i + |r| <= k < |s| ==> s[k] == l[k - i];
    assert TrimsAt(s, i, r);
  }

  /** Two trimmings of s that leave no whitespace at their edges are the same string. */
  lemma TrimsUnique(s: string, r1: string, r2: string)
    requires Trims(s, r1) && NoEdgeSpace(r1)
    requires Trims(s, r2) && NoEdgeSpace(r2)
    ensures r1 == r2
  {
    var i1 :| TrimsAt(s, i1, r1);
    var i2 :| TrimsAt(s, i2, r2);
    TrimsAtUnique(s, i1, r1, i2, r2);
  }

  lemma TrimsAtUnique(s: string, i1: int, r1: string, i2: int, r2: string)
    requires TrimsAt(s, i1, r1) && NoEdgeSpace(r1)
    requires TrimsAt(s, i2, r2) && NoEdgeSpace(r2)
    ensures r1 == r2
  {
    assert r1 != [] ==> s[i1] == r1[0] && s[i1 + |r1| - 1] == r1[|r1| - 1];
    assert r2 != [] ==> s[i2] == r2[0] && s[i2 + |r2| - 1] == r2[|r2| - 1];
  }

  /** Strip is the only trimming with no whitespace at its edges. */
  lemma StripIsTheTrimming(s: string, r: string)
    requires Trims(s, r) && NoEdgeSpace(r)
    ensures Strip(s) == r
  {
    StripTrims(s);
    TrimsUnique(s, Strip(s), r);
  }

  /** A string with no whitespace at its edges is left as it is. */
  lemma StripKeepsEdgeless(s: string)
    requires NoEdgeSpace(s)
    ensures Strip(s) == s
  {
    assert TrimsAt(s, 0, s);
    StripIsTheTrimming(s, s);
  }

  /** Stripping twice is stripping once. */
  lemma StripIdempotent(s: string)
    ensures Strip(Strip(s)) == Strip(s)
  {
    StripKeepsEdgeless(Strip(s));
  }
}
