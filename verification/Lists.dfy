/** Lists of numbers without repetition, and their concatenations. */
module Lists {

  ghost predicate Distinct(s: seq<nat>) {
    forall i, j :: 0 <= i < j < |s| ==> s[i] != s[j]
  }

  ghost predicate Disjoint(s: seq<nat>, t: seq<nat>) {
    forall i, j :: 0 <= i < |s| && 0 <= j < |t| ==> s[i] != t[j]
  }

  function Flatten(p: seq<seq<nat>>): seq<nat> {
    if p == [] then [] else Flatten(p[..|p| - 1]) + p[|p| - 1]
  }

  lemma {:induction false} FlattenSplit(p: seq<seq<nat>>, m: nat)
    requires m <= |p|
    ensures Flatten(p) == Flatten(p[..m]) + Flatten(p[m..])
  {
    if m == |p| {
      assert p[..m] == p;
    } else {
      var n := |p| - 1;
      FlattenSplit(p[..n], m);
      assert p[..n][..m] == p[..m] && p[..n][m..] == p[m..][..n - m];
    }
  }

  /** Where piece `i` is in the concatenation. */
  lemma FlattenAt(p: seq<seq<nat>>, i: nat)
    requires i < |p|
    ensures Flatten(p) == Flatten(p[..i]) + p[i] + Flatten(p[i + 1..])
  {
    FlattenSplit(p, i + 1);
    assert p[..i + 1][..i] == p[..i];
  }

  lemma DistinctParts(s: seq<nat>, t: seq<nat>)
    requires Distinct(s + t)
    ensures Distinct(s) && Distinct(t) && Disjoint(s, t)
  {
    forall i, j | 0 <= i < |s| && 0 <= j < |t| ensures s[i] != t[j] {
      assert (s + t)[i] == s[i] && (s + t)[|s| + j] == t[j];
    }
    forall i, j | 0 <= i < j < |t| ensures t[i] != t[j] {
      assert (s + t)[|s| + i] == t[i] && (s + t)[|s| + j] == t[j];
    }
    forall i, j | 0 <= i < j < |s| ensures s[i] != s[j] {
      assert (s + t)[i] == s[i] && (s + t)[j] == s[j];
    }
  }

  lemma DistinctJoin(s: seq<nat>, t: seq<nat>)
    requires Distinct(s) && Distinct(t) && Disjoint(s, t)
    ensures Distinct(s + t)
  {
  }

  lemma PrefixBelow(s: seq<nat>, t: seq<nat>, bound: nat)
    requires Distinct(s + t) && forall b :: b in s + t ==> b < bound
    ensures Distinct(s) && forall b :: b in s ==> b < bound
  {
    DistinctParts(s, t);
    forall b | b in s ensures b < bound { assert b in s + t; }
  }

  lemma {:induction false} InFlatten(p: seq<seq<nat>>, i: nat, x: nat)
    requires i < |p| && x < |p[i]|
    ensures p[i][x] in Flatten(p)
  {
    if i < |p| - 1 { InFlatten(p[..|p| - 1], i, x); }
  }

  /** Pieces of a list without repetition have none, and none in common. */
  lemma {:induction false} PiecesApart(p: seq<seq<nat>>, i: nat, j: nat)
    requires i < j < |p| && Distinct(Flatten(p))
    ensures Disjoint(p[i], p[j]) && Distinct(p[i]) && Distinct(p[j])
  {
    var q := p[..|p| - 1];
    DistinctParts(Flatten(q), p[|p| - 1]);
    if j < |q| {
      PiecesApart(q, i, j);
    } else {
      PieceDistinct(q, i);
      forall x | 0 <= x < |p[i]| ensures p[i][x] in Flatten(q) { InFlatten(q, i, x); }
    }
  }

  lemma {:induction false} PieceDistinct(p: seq<seq<nat>>, i: nat)
    requires i < |p| && Distinct(Flatten(p))
    ensures Distinct(p[i])
  {
    DistinctParts(Flatten(p[..|p| - 1]), p[|p| - 1]);
    if i < |p| - 1 { PieceDistinct(p[..|p| - 1], i); }
  }

  /** A concatenation and the lengths of its pieces determine the pieces. */
  lemma {:induction false} FlattenDetermines(p: seq<seq<nat>>, q: seq<seq<nat>>)
    requires Flatten(p) == Flatten(q) && |p| == |q| && forall i :: 0 <= i < |p| ==> |p[i]| == |q[i]|
    ensures p == q
  {
    if p != [] {
      var n := |p| - 1;
      var (s, t) := (Flatten(p[..n]), Flatten(q[..n]));
      assert |s| == |Flatten(p)| - |p[n]| == |t|;
      assert s == Flatten(p)[..|s|] && t == Flatten(q)[..|t|];
      assert p[n] == Flatten(p)[|s|..] && q[n] == Flatten(q)[|t|..];
      FlattenDetermines(p[..n], q[..n]);
      assert p == p[..n] + [p[n]] && q == q[..n] + [q[n]];
    }
  }

  // ----- Concatenations of blocks -----

  /** `s` with `t` in place of what was at `p`. */
  function Splice(s: seq<nat>, p: nat, t: seq<nat>): (r: seq<nat>)
    requires p + |t| <= |s|
    ensures |r| == |s|
  {
    s[..p] + t + s[p + |t|..]
  }

  ghost predicate Blocks(p: seq<seq<nat>>) {
    forall i :: 0 <= i < |p| ==> |p[i]| == 512
  }

  lemma {:induction false} FlattenLength(p: seq<seq<nat>>)
    requires Blocks(p)
    ensures |Flatten(p)| == 512 * |p|
  {
    if p != [] { FlattenLength(p[..|p| - 1]); }
  }

  lemma {:induction false} FlattenBlock(p: seq<seq<nat>>, i: nat)
    requires Blocks(p) && i < |p|
    ensures |Flatten(p)| == 512 * |p| && Flatten(p)[512 * i..512 * i + 512] == p[i]
  {
    var q := p[..|p| - 1];
    FlattenLength(p);
    FlattenLength(q);
    if i < |q| {
      FlattenBlock(q, i);
      assert Flatten(p)[512 * i..512 * i + 512] == Flatten(q)[512 * i..512 * i + 512];
    }
  }

  lemma SpliceLeft(s: seq<nat>, t: seq<nat>, p: nat, src: seq<nat>)
    requires p + |src| <= |s|
    ensures Splice(s + t, p, src) == Splice(s, p, src) + t
  {
  }

  lemma SpliceRight(s: seq<nat>, t: seq<nat>, o: nat, src: seq<nat>)
    requires o + |src| <= |t|
    ensures Splice(s + t, |s| + o, src) == s + Splice(t, o, src)
  {
  }

  /** A change within one block is a change at its place in the whole. */
  lemma {:induction false} FlattenSplice(p: seq<seq<nat>>, i: nat, o: nat, src: seq<nat>)
    requires Blocks(p) && i < |p| && o + |src| <= 512
    ensures |Flatten(p)| == 512 * |p|
    ensures Flatten(p[i := Splice(p[i], o, src)]) == Splice(Flatten(p), 512 * i + o, src)
  {
    var (n, p') := (|p| - 1, p[i := Splice(p[i], o, src)]);
    var q := p[..n];
    FlattenLength(p);
    FlattenLength(q);
    if i == n {
      assert p'[..n] == q;
      SpliceRight(Flatten(q), p[n], o, src);
    } else {
      assert p'[..n] == q[i := Splice(q[i], o, src)];
      FlattenSplice(q, i, o, src);
      SpliceLeft(Flatten(q), p[n], 512 * i + o, src);
    }
  }

  // ----- Rearrangements -----

  lemma {:induction false} DistinctCounts(s: seq<nat>)
    ensures Distinct(s) <==> forall x :: multiset(s)[x] <= 1
  {
    if s != [] {
      var (t, y) := (s[..|s| - 1], s[|s| - 1]);
      assert s == t + [y];
      DistinctCounts(t);
      if Distinct(s) {
        assert y !in t;
      } else if Distinct(t) {
        assert y in t;
        assert multiset(s)[y] == multiset(t)[y] + 1 > 1;
      } else {
        var x :| multiset(t)[x] > 1;
        assert multiset(s)[x] > 1;
      }
    }
  }

  lemma Rearranged(s: seq<nat>, t: seq<nat>)
    requires Distinct(s) && multiset(s) == multiset(t)
    ensures Distinct(t) && |t| == |s| && forall b :: b in t <==> b in s
  {
    DistinctCounts(s);
    DistinctCounts(t);
    assert |multiset(s)| == |s| && |multiset(t)| == |t|;
    forall b ensures b in t <==> b in s { assert b in multiset(s) <==> b in multiset(t); }
  }

  /** One piece replaced. */
  lemma FlattenUpdate(p: seq<seq<nat>>, i: nat, x: seq<nat>)
    requires i < |p|
    ensures multiset(Flatten(p[i := x])) == multiset(Flatten(p)) - multiset(p[i]) + multiset(x)
    ensures multiset(p[i]) <= multiset(Flatten(p))
  {
    FlattenAt(p, i);
    FlattenAt(p[i := x], i);
    assert p[i := x][..i] == p[..i] && p[i := x][i + 1..] == p[i + 1..];
  }
}
