/** The data area of an easy-fs volume: which blocks are in use, and what the free ones hold. */
module EfsSpace {
  import opened Lists
  import opened EfsMap
  import opened EfsBitmap

  /** The data area: `size` blocks from block `start` on. */
  datatype Area = Area(start: nat, size: nat)

  function Zeros(n: nat): (r: seq<nat>)
    ensures |r| == n && forall i :: 0 <= i < n ==> r[i] == 0
  {
    seq(n, i => 0)
  }

  /** The blocks in `used` are exactly those whose bits are set; all others of the area are zero. */
  ghost predicate SpaceOk(area: Area, disk: Disk, bits: seq<seq<nat>>, used: seq<nat>) {
    && DiskOk(disk) && |disk| <= WORD_BOUND && area.start + area.size <= |disk|
    && BitmapOk(bits) && area.size <= 4096 * |bits|
    && Distinct(used) && (forall b :: b in used ==> area.start <= b < area.start + area.size)
    && (forall j: nat :: j < 4096 * |bits| ==> (IsSet(bits, j) <==> area.start + j in used))
    && (forall b :: area.start <= b < area.start + area.size && b !in used ==> disk[b] == Zeros(BLOCK_SZ))
  }

  // ----- Counting -----

  /** A list with all of `n` numbers is at least that long. */
  lemma {:induction false} CoverLength(s: seq<nat>, lo: nat, n: nat)
    requires forall b :: lo <= b < lo + n ==> b in s
    ensures |s| >= n
  {
    if n > 0 {
      assert lo + n - 1 in s;
      var k :| 0 <= k < |s| && s[k] == lo + n - 1;
      var t := s[..k] + s[k + 1..];
      forall b | lo <= b < lo + n - 1 ensures b in t {
        assert b in s;
        var i :| 0 <= i < |s| && s[i] == b;
        assert if i < k then t[i] == b else t[i - 1] == b;
      }
      CoverLength(t, lo, n - 1);
    }
  }

  /** As many different numbers as there are in a range are all of them. */
  lemma {:induction false} FullCover(s: seq<nat>, lo: nat, n: nat, b: nat)
    requires Distinct(s) && (forall x :: x in s ==> lo <= x < lo + n) && |s| >= n && lo <= b < lo + n
    ensures b in s
  {
    if b !in s {
      var t := s + [b];
      forall i, j | 0 <= i < j < |t| ensures t[i] != t[j] {}
      RangeLength(t, lo, n);
    }
  }

  lemma {:induction false} RangeLength(s: seq<nat>, lo: nat, n: nat)
    requires Distinct(s) && forall x :: x in s ==> lo <= x < lo + n
    ensures |s| <= n
  {
    if s == [] { return; }
    assert s[0] in s;
    if k :| 0 <= k < |s| && s[k] == lo + n - 1 {
      var t := s[..k] + s[k + 1..];
      forall x | x in t ensures lo <= x < lo + n - 1 {
        var i :| 0 <= i < |t| && t[i] == x;
        var j := if i < k then i else i + 1;
        assert x == s[j] && s[j] in s && s[j] != s[k];
      }
      RangeLength(t, lo, n - 1);
    } else {
      RangeLength(s, lo, n - 1);
    }
  }

  // ----- Allocation -----

  /** The lowest clear bit is inside the area just when not all blocks are in use. */
  lemma LowestIsInside(area: Area, disk: Disk, bits: seq<seq<nat>>, used: seq<nat>, i: nat)
    requires SpaceOk(area, disk, bits, used) && i < 4096 * |bits| && !IsSet(bits, i)
    requires forall j: nat :: j < i ==> IsSet(bits, j)
    ensures i < area.size <==> |used| < area.size
  {
    if i >= area.size {
      forall b | area.start <= b < area.start + area.size ensures b in used { assert IsSet(bits, b - area.start); }
      CoverLength(used, area.start, area.size);
    } else {
      if |used| >= area.size { FullCover(used, area.start, area.size, area.start + i); }
    }
  }

  lemma SpaceAfterAlloc(area: Area, disk: Disk, bits: seq<seq<nat>>, used: seq<nat>, i: nat, bits': seq<seq<nat>>)
    requires SpaceOk(area, disk, bits, used) && i < area.size && !IsSet(bits, i)
    requires BitmapOk(bits') && |bits'| == |bits|
    requires forall j: nat :: j < 4096 * |bits| ==> (IsSet(bits', j) <==> j == i || IsSet(bits, j))
    ensures SpaceOk(area, disk, bits', used + [area.start + i])
    ensures disk[area.start + i] == Zeros(BLOCK_SZ) && area.start + i !in used
  {
    assert area.start + i !in used;
  }

  /** A block is cleared and its bit reset; `rest` are the other blocks in use. */
  lemma SpaceAfterFree(area: Area, disk: Disk, bits: seq<seq<nat>>, used: seq<nat>, b: nat, rest: seq<nat>, bits': seq<seq<nat>>)
    requires SpaceOk(area, disk, bits, used) && multiset(used) == multiset(rest + [b])
    requires BitmapOk(bits') && |bits'| == |bits| && area.start <= b < area.start + area.size
    requires forall j: nat :: j < 4096 * |bits| ==> (IsSet(bits', j) <==> j != b - area.start && IsSet(bits, j))
    ensures SpaceOk(area, disk[b := Zeros(BLOCK_SZ)], bits', rest)
  {
    Rearranged(used, rest + [b]);
    DistinctParts(rest, [b]);
    assert forall k :: 0 <= k < |rest| ==> rest[k] != [b][0];
    forall x | x in rest ensures x in used { assert x in rest + [b]; }
    forall x | x in used ensures x in rest || x == b { assert x in rest + [b]; }
  }

  lemma SpaceRearranged(area: Area, disk: Disk, bits: seq<seq<nat>>, used: seq<nat>, used': seq<nat>)
    requires SpaceOk(area, disk, bits, used) && multiset(used) == multiset(used')
    ensures SpaceOk(area, disk, bits, used')
  {
    Rearranged(used, used');
  }
}
