/**
 * Strings as sequences of characters: Python's `sep.join(parts)` and the
 * positional facts about it that the prompt and context lemmas rely on.
 */
module Text {

  /** `t` occurs in `s` starting at index `i`. */
  predicate ContainsAt(s: string, t: string, i: int)
  {
    0 <= i && i + |t| <= |s| && s[i..i + |t|] == t
  }

  predicate StartsWith(s: string, prefix: string)
  {
    |prefix| <= |s| && s[..|prefix|] == prefix
  }

  predicate EndsWith(s: string, suffix: string)
  {
    |suffix| <= |s| && s[|s| - |suffix|..] == suffix
  }

  /** Sum of the lengths of `parts`. */
  function TotalLength(parts: seq<string>): nat
  {
    if parts == [] then 0 else |parts[0]| + TotalLength(parts[1..])
  }

  /** Python's `sep.join(parts)`. */
  function Join(parts: seq<string>, sep: string): (r: string)
    ensures parts == [] ==> r == ""
    ensures |parts| == 1 ==> r == parts[0]
    ensures parts != [] ==> |r| == TotalLength(parts) + (|parts| - 1) * |sep|
  {
    if parts == [] then ""
    else if |parts| == 1 then parts[0]
    else parts[0] + sep + Join(parts[1..], sep)
  }

  /** Index in `Join(parts, sep)` at which `parts[i]` starts. */
  function Offset(parts: seq<string>, sep: string, i: nat): nat
    requires i <= |parts|
  {
    if i == 0 then 0 else |parts[0]| + |sep| + Offset(parts[1..], sep, i - 1)
  }

  lemma ContainsAtAppend(s: string, suffix: string, t: string, i: int)
    requires ContainsAt(s, t, i)
    ensures ContainsAt(s + suffix, t, i)
  {
    assert (s + suffix)[i..i + |t|] == s[i..i + |t|];
  }

  lemma ContainsAtPrepend(prefix: string, s: string, t: string, i: int)
    requires ContainsAt(s, t, i)
    ensures ContainsAt(prefix + s, t, |prefix| + i)
  {
    assert (prefix + s)[|prefix| + i..|prefix| + i + |t|] == s[i..i + |t|];
  }

  /** An occurrence of `u` inside an occurrence of `t` is an occurrence in `s`. */
  lemma ContainsAtNested(s: string, t: string, i: int, u: string, j: int)
    requires ContainsAt(s, t, i) && ContainsAt(t, u, j)
    ensures ContainsAt(s, u, i + j)
  {
    forall k | 0 <= k < |u|
      ensures s[i + j..i + j + |u|][k] == u[k]
    {
      assert s[i + j + k] == s[i..i + |t|][j + k] == t[j + k] == t[j..j + |u|][k];
    }
  }

  /**
   * The layout of a join: every part sits at its offset, exactly one
   * separator follows each part except the last, and the last part ends
   * the string, so nothing else is in it.
   */
  lemma {:induction false} JoinPieceAt(parts: seq<string>, sep: string, i: nat)
    requires i < |parts|
    ensures ContainsAt(Join(parts, sep), parts[i], Offset(parts, sep, i))
    ensures i + 1 < |parts| ==>
      ContainsAt(Join(parts, sep), sep, Offset(parts, sep, i) + |parts[i]|)
    ensures i + 1 < |parts| ==>
      Offset(parts, sep, i + 1) == Offset(parts, sep, i) + |parts[i]| + |sep|
    ensures i + 1 == |parts| ==> Offset(parts, sep, i) + |parts[i]| == |Join(parts, sep)|
  {
    if |parts| == 1 {
      assert Join(parts, sep)[0..|parts[0]|] == parts[0];
    } else {
      var rest := Join(parts[1..], sep);
      assert Join(parts, sep) == (parts[0] + sep) + rest;
      if i == 0 {
        assert ContainsAt(parts[0] + sep, parts[0], 0);
        ContainsAtAppend(parts[0] + sep, rest, parts[0], 0);
        assert ContainsAt(parts[0] + sep, sep, |parts[0]|);
        ContainsAtAppend(parts[0] + sep, rest, sep, |parts[0]|);
        assert Offset(parts, sep, 1) == |parts[0]| + |sep| + Offset(parts[1..], sep, 0);
      } else {
        JoinPieceAt(parts[1..], sep, i - 1);
        assert parts[1..][i - 1] == parts[i];
        ContainsAtPrepend(parts[0] + sep, rest, parts[i], Offset(parts[1..], sep, i - 1));
        if i + 1 < |parts| {
          ContainsAtPrepend(parts[0] + sep, rest, sep, Offset(parts[1..], sep, i - 1) + |parts[i]|);
          assert parts[1..][1..] == parts[2..];
          assert Offset(parts, sep, i + 1) == |parts[0]| + |sep| + Offset(parts[1..], sep, i);
        }
      }
    }
  }

  /** With a non-empty separator, later parts start strictly later. */
  lemma {:induction false} OffsetIncreasing(parts: seq<string>, sep: string, i: nat, j: nat)
    requires i < j < |parts| && |sep| > 0
    ensures Offset(parts, sep, i) + |parts[i]| < Offset(parts, sep, j)
    decreases j - i
  {
    JoinPieceAt(parts, sep, i);
    if j > i + 1 {
      OffsetIncreasing(parts, sep, i + 1, j);
    }
  }

  /** The pieces of `a + x + b + y + c + z + e` are its slices, in order. */
  lemma SevenPieces(a: string, x: string, b: string, y: string, c: string, z: string, e: string)
    ensures var p := a + x + b + y + c + z + e;
      var i1 := |a|;
      var i2 := i1 + |x|;
      var i3 := i2 + |b|;
      var i4 := i3 + |y|;
      var i5 := i4 + |c|;
      var i6 := i5 + |z|;
      && |p| == i6 + |e|
      && p[..i1] == a && p[i1..i2] == x && p[i2..i3] == b && p[i3..i4] == y
      && p[i4..i5] == c && p[i5..i6] == z && p[i6..] == e
  {
  }

  /** Cutting a string at ascending indices and concatenating the slices gives it back. */
  lemma SevenSlices(p: string, i1: nat, i2: nat, i3: nat, i4: nat, i5: nat, i6: nat)
    requires i1 <= i2 <= i3 <= i4 <= i5 <= i6 <= |p|
    ensures p == p[..i1] + p[i1..i2] + p[i2..i3] + p[i3..i4] + p[i4..i5] + p[i5..i6] + p[i6..]
  {
  }

  /** The pieces of `a + x + e` are its slices, in order. */
  lemma ThreePieces(a: string, x: string, e: string)
    ensures var p := a + x + e;
      |p| == |a| + |x| + |e| && p[..|a|] == a && p[|a|..|a| + |x|] == x && p[|a| + |x|..] == e
  {
  }

  lemma ThreeSlices(p: string, i1: nat, i2: nat)
    requires i1 <= i2 <= |p|
    ensures p == p[..i1] + p[i1..i2] + p[i2..]
  {
  }

  lemma StartsWithConcat(a: string, x: string)
    ensures StartsWith(a + x, a)
  {
  }

  lemma StartsWithTransitive(p: string, a: string, b: string)
    requires StartsWith(p, a) && StartsWith(a, b)
    ensures StartsWith(p, b)
  {
    assert p[..|b|] == p[..|a|][..|b|];
  }

  /** What occurs in a prefix occurs, at the same index, in the whole. */
  lemma ContainsAtPrefix(p: string, a: string, t: string, i: int)
    requires StartsWith(p, a) && ContainsAt(a, t, i)
    ensures ContainsAt(p, t, i)
  {
    assert p[i..i + |t|] == p[..|a|][i..i + |t|];
  }

  /** A string whose consecutive slices are the given pieces is their concatenation. */
  lemma SevenSlicesAre(p: string, a: string, x: string, b: string, y: string, c: string, z: string, e: string)
    requires |p| == |a| + |x| + |b| + |y| + |c| + |z| + |e|
    requires p[..|a|] == a
    requires p[|a|..|a| + |x|] == x
    requires p[|a| + |x|..|a| + |x| + |b|] == b
    requires p[|a| + |x| + |b|..|a| + |x| + |b| + |y|] == y
    requires p[|a| + |x| + |b| + |y|..|a| + |x| + |b| + |y| + |c|] == c
    requires p[|a| + |x| + |b| + |y| + |c|..|a| + |x| + |b| + |y| + |c| + |z|] == z
    requires p[|a| + |x| + |b| + |y| + |c| + |z|..] == e
    ensures p == a + x + b + y + c + z + e
  {
    var i1 := |a|;
    var i2 := i1 + |x|;
    var i3 := i2 + |b|;
    var i4 := i3 + |y|;
    var i5 := i4 + |c|;
    var i6 := i5 + |z|;
    SevenSlices(p, i1, i2, i3, i4, i5, i6);
  }

  /** Part `i` of a join framed by `intro` and `close` sits after `intro`, at its join offset. */
  lemma JoinPieceFramed(intro: string, parts: seq<string>, sep: string, close: string, i: nat)
    requires i < |parts|
    ensures ContainsAt(intro + Join(parts, sep) + close, parts[i], |intro| + Offset(parts, sep, i))
  {
    JoinPieceAt(parts, sep, i);
    ContainsAtPrepend(intro, Join(parts, sep), parts[i], Offset(parts, sep, i));
    ContainsAtAppend(intro + Join(parts, sep), close, parts[i], |intro| + Offset(parts, sep, i));
  }

  /** A framed join placed at `at` in `p` puts its part `i` at `at` plus its framed offset. */
  lemma JoinPieceFramedIn(p: string, at: int, intro: string, parts: seq<string>, sep: string, close: string, i: nat)
    requires i < |parts|
    requires ContainsAt(p, intro + Join(parts, sep) + close, at)
    ensures ContainsAt(p, parts[i], at + |intro| + Offset(parts, sep, i))
  {
    JoinPieceFramed(intro, parts, sep, close, i);
    ContainsAtNested(p, intro + Join(parts, sep) + close, at, parts[i], |intro| + Offset(parts, sep, i));
  }
}
