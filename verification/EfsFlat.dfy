/** The three-level block map is a flat list of data blocks. */
module EfsFlat {
  import opened Lists
  import opened EfsMap
  import opened EfsGrow
  import opened EfsInode

  /** Different positions hold different blocks. */
  lemma DataIdInjective(ino: Inode, disk: Disk, n: nat, i: nat, j: nat)
    requires |ino.direct| == DIRECT && i < j < n && Distinct(Owned(ino, disk, n))
    ensures DataId(ino, disk, i) != DataId(ino, disk, j)
  {
    var p := Pieces(ino, disk, n);
    PiecesApart(p, i, j);
    assert p[i][|p[i]| - 1] == DataId(ino, disk, i) && p[j][|p[j]| - 1] == DataId(ino, disk, j);
  }

  lemma DataIdOwned(ino: Inode, disk: Disk, n: nat, i: nat)
    requires |ino.direct| == DIRECT && i < n
    ensures DataId(ino, disk, i) in Owned(ino, disk, n)
  {
    var p := Pieces(ino, disk, n);
    assert p[i][|p[i]| - 1] == DataId(ino, disk, i);
    InFlatten(p, i, |p[i]| - 1);
  }

  lemma {:induction false} FromFlatten(p: seq<seq<nat>>, b: nat) returns (i: nat, x: nat)
    requires b in Flatten(p)
    ensures i < |p| && x < |p[i]| && p[i][x] == b
  {
    var n := |p| - 1;
    if b in Flatten(p[..n]) {
      i, x := FromFlatten(p[..n], b);
    } else {
      i := n;
      x :| 0 <= x < |p[n]| && p[n][x] == b;
    }
  }

  /** A data block is never an index block. */
  lemma DataIsNotIndex(ino: Inode, disk: Disk, n: nat, i: nat)
    requires |ino.direct| == DIRECT && i < n && Distinct(Owned(ino, disk, n))
    ensures DataId(ino, disk, i) !in Index(ino, disk, n)
  {
    var (b, p) := (DataId(ino, disk, i), Pieces(ino, disk, n));
    if b in Index(ino, disk, n) {
      var j, x := FromFlatten(IndexPieces(ino, disk, n), b);
      assert p[j][x] == b && p[i][|p[i]| - 1] == b && x < |p[j]| - 1;
      if i < j { PiecesApart(p, i, j); } else if j < i { PiecesApart(p, j, i); } else { PieceDistinct(p, i); }
    }
  }

  lemma IndexOwned(ino: Inode, disk: Disk, n: nat, b: nat)
    requires |ino.direct| == DIRECT && b in Index(ino, disk, n)
    ensures b in Owned(ino, disk, n)
  {
    var j, x := FromFlatten(IndexPieces(ino, disk, n), b);
    assert Pieces(ino, disk, n)[j][x] == b;
    InFlatten(Pieces(ino, disk, n), j, x);
  }

  /** The blocks owned, in order, determine the map. */
  lemma OwnedDetermines(ino: Inode, disk: Disk, ino': Inode, disk': Disk, n: nat)
    requires |ino.direct| == DIRECT && |ino'.direct| == DIRECT && Owned(ino, disk, n) == Owned(ino', disk', n)
    ensures Kept(ino, disk, ino', disk', n)
    ensures forall i :: 0 <= i < n ==> DataId(ino', disk', i) == DataId(ino, disk, i)
  {
    var (p, q) := (Pieces(ino, disk, n), Pieces(ino', disk', n));
    FlattenDetermines(p, q);
    forall i | 0 <= i < n
      ensures Fresh(ino, disk, i) == Fresh(ino', disk', i) && DataId(ino', disk', i) == DataId(ino, disk, i)
    {
      assert p[i] == q[i];
      assert p[i][|p[i]| - 1] == DataId(ino, disk, i) && q[i][|q[i]| - 1] == DataId(ino', disk', i);
    }
  }

  /** Growth only appends: position `i` holds the block that was given `Place(i)`-th, counting all blocks
      ever given, index blocks included; so earlier positions keep their blocks. */
  lemma GrowthAppends(ino: Inode, g: Growth, n: nat, ino': Inode, disk': Disk)
    requires |ino.direct| == DIRECT && g.owned == Owned(ino, g.disk, n) && n <= g.target
    requires Growing(g, ino', disk', g.target, |g.blocks|, false)
    ensures forall i: nat :: i < n ==> DataId(ino', disk', i) == DataId(ino, g.disk, i)
    ensures forall i: nat :: i < g.target ==>
              Place(i) < |g.owned + g.blocks| && DataId(ino', disk', i) == (g.owned + g.blocks)[Place(i)]
    ensures forall i: nat :: n <= i < g.target ==>
              0 <= Place(i) - |g.owned| < |g.blocks| && DataId(ino', disk', i) == g.blocks[Place(i) - |g.owned|]
  {
    assert g.blocks[..|g.blocks|] == g.blocks;
    assert Owned(ino', disk', g.target) == g.owned + g.blocks;
    OwnedLength(ino, g.disk, n);
    forall i: nat | i < g.target
      ensures Place(i) < |g.owned + g.blocks| && DataId(ino', disk', i) == (g.owned + g.blocks)[Place(i)]
      ensures if i < n then DataId(ino', disk', i) == DataId(ino, g.disk, i) else Place(i) >= |g.owned|
    {
      DataIdAt(ino', disk', g.target, i);
      if i < n { DataIdAt(ino, g.disk, n, i); } else { TotalMonotone(n, i); }
    }
  }

  // ----- Round trip -----

  /** Blocks that each growth in a series takes (see `TotalBlocksCounts`). */
  function SupplySize(sizes: seq<nat>, i: nat): int
    requires i < |sizes|
  {
    Total(DataBlocks(sizes[i])) - if i == 0 then 0 else Total(DataBlocks(sizes[i - 1]))
  }

  /** The supplies for a series of growths: each of the size needed, and no block twice. */
  ghost predicate Series(disk: Disk, sizes: seq<nat>, supplies: seq<seq<nat>>) {
    && DiskOk(disk) && |disk| <= WORD_BOUND && |supplies| == |sizes|
    && (forall i :: 0 <= i < |sizes| ==> DataBlocks(sizes[i]) <= MAX_BLOCKS)
    && (forall i, j :: 0 <= i && j == i + 1 < |sizes| ==> sizes[i] <= sizes[j])
    && (forall i :: 0 <= i < |sizes| ==> |supplies[i]| == SupplySize(sizes, i))
    && Distinct(Flatten(supplies)) && (forall b :: b in Flatten(supplies) ==> b < |disk|)
  }

  lemma SeriesPrefix(supplies: seq<seq<nat>>, k: nat, bound: nat)
    requires k < |supplies| && Distinct(Flatten(supplies)) && forall b :: b in Flatten(supplies) ==> b < bound
    ensures Flatten(supplies[..k + 1]) == Flatten(supplies[..k]) + supplies[k]
    ensures Distinct(Flatten(supplies[..k]) + supplies[k])
    ensures forall b :: b in Flatten(supplies[..k]) + supplies[k] ==> b < bound
  {
    var (s, r) := (Flatten(supplies[..k + 1]), Flatten(supplies[k + 1..]));
    FlattenSplit(supplies, k + 1);
    PrefixBelow(s, r, bound);
    assert s == Flatten(supplies[..k]) + supplies[k] by { assert supplies[..k + 1][..k] == supplies[..k]; }
  }

  /** The next supply of a series is one that `increase_size` accepts. */
  lemma SeriesSupplies(disk0: Disk, disk: Disk, sizes: seq<nat>, supplies: seq<seq<nat>>, k: nat, ino: Inode, g: Growth)
    requires Series(disk0, sizes, supplies) && k < |sizes| && DiskOk(disk) && |disk| == |disk0| && |ino.direct| == DIRECT
    requires ino.size == (if k == 0 then 0 else sizes[k - 1])
    requires Owned(ino, disk, DataBlocks(ino.size)) == Flatten(supplies[..k])
    requires g == Growth(Flatten(supplies[..k]), supplies[k], disk, DataBlocks(sizes[k]))
    ensures ino.size <= sizes[k] && Flatten(supplies[..k + 1]) == g.owned + g.blocks && Supplied(g)
  {
    SeriesPrefix(supplies, k, |disk|);
    assert |g.owned| + |g.blocks| == Total(g.target) by {
      OwnedLength(ino, disk, DataBlocks(ino.size));
      assert |supplies[k]| == SupplySize(sizes, k);
    }
  }

  /** Any series of growths of an empty inode, and then clearing it: all blocks given come back, in the
      order they were given. */
  method GrowAndClear(vol: Volume, sizes: seq<nat>, supplies: seq<seq<nat>>) returns (v: seq<nat>)
    requires Series(vol.disk, sizes, supplies)
    modifies vol
    ensures v == Flatten(supplies)
    ensures |v| == if sizes == [] then 0 else TotalBlocks(sizes[|sizes| - 1])
  {
    var ino := Inode(0, seq(DIRECT, i => 0), 0, 0);
    var k := 0;
    while k < |sizes|
      invariant k <= |sizes| && |ino.direct| == DIRECT && ino.size == (if k == 0 then 0 else sizes[k - 1])
      invariant DiskOk(vol.disk) && |vol.disk| == |old(vol.disk)|
      invariant Owned(ino, vol.disk, DataBlocks(ino.size)) == Flatten(supplies[..k])
    {
      ghost var g := Growth(Flatten(supplies[..k]), supplies[k], vol.disk, DataBlocks(sizes[k]));
      SeriesSupplies(old(vol.disk), vol.disk, sizes, supplies, k, ino, g);
      ino := vol.IncreaseSize(ino, sizes[k], supplies[k], g);
      assert supplies[k][..|supplies[k]|] == supplies[k];
      k := k + 1;
    }
    assert supplies[..k] == supplies;
    v, ino := vol.ClearSize(ino);
  }
}
