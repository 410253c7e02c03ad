/** Files sharing the data area of an easy-fs volume, on plain values. */
module EfsFiles {
  import opened Lists
  import opened EfsMap
  import opened EfsGrow
  import opened EfsInode
  import opened EfsFlat
  import opened EfsData
  import opened EfsBitmap
  import opened EfsSpace

  /** The blocks of a file. */
  function OwnedBy(ino: Inode, disk: Disk): seq<nat>
    requires |ino.direct| == DIRECT
  {
    Owned(ino, disk, DataBlocks(ino.size))
  }

  /** All its data blocks hold. */
  function AllBytes(ino: Inode, disk: Disk): (r: seq<nat>)
    requires |ino.direct| == DIRECT
    ensures |r| == 512 * DataBlocks(ino.size)
  {
    Bytes(ino, disk, DataBlocks(ino.size))
  }

  /** What a reader sees of it. */
  function Content(ino: Inode, disk: Disk): (r: seq<nat>)
    requires |ino.direct| == DIRECT
    ensures |r| == ino.size
  {
    BlocksCover(ino.size);
    AllBytes(ino, disk)[..ino.size]
  }

  /** A file is not too large, and zero behind its end. */
  ghost predicate FileOk(ino: Inode, disk: Disk) {
    && |ino.direct| == DIRECT && DataBlocks(ino.size) <= MAX_BLOCKS
    && AllBytes(ino, disk) == Content(ino, disk) + Zeros(512 * DataBlocks(ino.size) - ino.size)
  }

  ghost predicate InodesOk(inodes: seq<Inode>) {
    forall k :: 0 <= k < |inodes| ==> |inodes[k].direct| == DIRECT
  }

  function OwnedLists(inodes: seq<Inode>, disk: Disk): seq<seq<nat>>
    requires InodesOk(inodes)
  {
    seq(|inodes|, k requires 0 <= k < |inodes| => OwnedBy(inodes[k], disk))
  }

  function AllContents(inodes: seq<Inode>, disk: Disk): (r: seq<seq<nat>>)
    requires InodesOk(inodes)
    ensures |r| == |inodes| && forall k :: 0 <= k < |inodes| ==> r[k] == Content(inodes[k], disk)
  {
    seq(|inodes|, k requires 0 <= k < |inodes| => Content(inodes[k], disk))
  }

  /** The blocks of all files. */
  function Used(inodes: seq<Inode>, disk: Disk): seq<nat>
    requires InodesOk(inodes)
  {
    Flatten(OwnedLists(inodes, disk))
  }

  /** The set bits are exactly the blocks of all files, without overlap, and of those in `pend`. */
  ghost predicate FsOk(area: Area, inodes: seq<Inode>, disk: Disk, bits: seq<seq<nat>>, pend: seq<nat>) {
    && InodesOk(inodes) && (forall k :: 0 <= k < |inodes| ==> FileOk(inodes[k], disk))
    && SpaceOk(area, disk, bits, Used(inodes, disk) + pend)
  }

  // ----- Frames -----

  ghost predicate SameOn(disk: Disk, disk': Disk, s: seq<nat>) {
    |disk'| == |disk| && forall b :: b in s && b < |disk| ==> disk'[b] == disk[b]
  }

  /** A file depends on its own blocks only. */
  lemma FileFrame(ino: Inode, disk: Disk, disk': Disk)
    requires |ino.direct| == DIRECT && SameOn(disk, disk', OwnedBy(ino, disk))
    ensures OwnedBy(ino, disk') == OwnedBy(ino, disk)
    ensures AllBytes(ino, disk') == AllBytes(ino, disk) && Content(ino, disk') == Content(ino, disk)
    ensures FileOk(ino, disk') <==> FileOk(ino, disk)
  {
    var n := DataBlocks(ino.size);
    forall b | b in Index(ino, disk, n) ensures b in Owned(ino, disk, n) { IndexOwned(ino, disk, n, b); }
    MapFrame(ino, disk, disk', n);
    OwnedSame(ino, disk, ino, disk', n);
    OwnedDetermines(ino, disk, ino, disk', n);
    forall i | 0 <= i < n ensures BlockAt(disk', DataId(ino, disk', i)) == BlockAt(disk, DataId(ino, disk, i)) {
      DataIdOwned(ino, disk, n, i);
    }
    BytesSame(ino, disk, ino, disk', n);
  }

  lemma OwnedIsUsed(inodes: seq<Inode>, disk: Disk, k: nat, b: nat)
    requires InodesOk(inodes) && k < |inodes| && b in OwnedBy(inodes[k], disk)
    ensures b in Used(inodes, disk)
  {
    var p := OwnedLists(inodes, disk);
    var x :| 0 <= x < |p[k]| && p[k][x] == b;
    InFlatten(p, k, x);
  }

  lemma OwnedApart(inodes: seq<Inode>, disk: Disk, k: nat, l: nat)
    requires InodesOk(inodes) && k < |inodes| && l < |inodes| && k != l && Distinct(Used(inodes, disk))
    ensures forall b :: b in OwnedBy(inodes[k], disk) ==> b !in OwnedBy(inodes[l], disk)
  {
    var p := OwnedLists(inodes, disk);
    if k < l { PiecesApart(p, k, l); } else { PiecesApart(p, l, k); }
    assert p[k] == OwnedBy(inodes[k], disk) && p[l] == OwnedBy(inodes[l], disk);
  }

  /** A change of the disk that concerns one file, or none. */
  lemma OthersFrame(inodes: seq<Inode>, disk: Disk, disk': Disk, i: nat, ino': Inode)
    requires InodesOk(inodes) && |ino'.direct| == DIRECT && i < |inodes|
    requires forall k :: 0 <= k < |inodes| && k != i ==> SameOn(disk, disk', OwnedBy(inodes[k], disk))
    ensures InodesOk(inodes[i := ino'])
    ensures OwnedLists(inodes[i := ino'], disk') == OwnedLists(inodes, disk)[i := OwnedBy(ino', disk')]
    ensures forall k :: 0 <= k < |inodes| && k != i ==>
              Content(inodes[k], disk') == Content(inodes[k], disk) && (FileOk(inodes[k], disk') <==> FileOk(inodes[k], disk))
  {
    forall k | 0 <= k < |inodes| && k != i
      ensures OwnedBy(inodes[k], disk') == OwnedBy(inodes[k], disk) && Content(inodes[k], disk') == Content(inodes[k], disk)
      ensures FileOk(inodes[k], disk') <==> FileOk(inodes[k], disk)
    {
      FileFrame(inodes[k], disk, disk');
    }
  }

  /** Nothing outside the data area differs. */
  ghost predicate SameOutside(area: Area, disk: Disk, disk': Disk) {
    |disk'| == |disk| && forall b :: 0 <= b < |disk| && !(area.start <= b < area.start + area.size) ==> disk'[b] == disk[b]
  }

  /** The free blocks stay zero when only used blocks change, and nothing outside the area changes. */
  lemma SpaceFrame(area: Area, disk: Disk, bits: seq<seq<nat>>, used: seq<nat>, disk': Disk)
    requires SpaceOk(area, disk, bits, used) && DiskOk(disk') && |disk'| == |disk|
    requires forall b :: 0 <= b < |disk| && b !in used ==> disk'[b] == disk[b]
    ensures SpaceOk(area, disk', bits, used) && SameOutside(area, disk, disk')
  {
  }

  // ----- Growth -----

  lemma {:induction false} FlattenZeros(p: seq<seq<nat>>)
    requires forall i :: 0 <= i < |p| ==> p[i] == Zeros(512)
    ensures Flatten(p) == Zeros(512 * |p|)
  {
    if p != [] { FlattenZeros(p[..|p| - 1]); }
  }

  /** New data blocks read as zero. */
  lemma GrownBytes(ino: Inode, g: Growth, n: nat, ino': Inode, disk': Disk)
    requires |ino.direct| == DIRECT && g.owned == Owned(ino, g.disk, n) && n <= g.target && Supplied(g)
    requires Growing(g, ino', disk', g.target, |g.blocks|, false)
    requires forall b :: b in g.blocks ==> b < |g.disk| && g.disk[b] == Zeros(512)
    ensures Bytes(ino', disk', g.target) == Bytes(ino, g.disk, n) + Zeros(512 * (g.target - n))
  {
    GrowthAppends(ino, g, n, ino', disk');
    assert g.blocks[..|g.blocks|] == g.blocks && Owned(ino', disk', g.target) == g.owned + g.blocks;
    var p := DataOf(ino', disk', g.target);
    forall i | 0 <= i < g.target
      ensures BlockAt(disk', DataId(ino', disk', i)) == BlockAt(g.disk, DataId(ino', disk', i))
    {
      DataIsNotIndex(ino', disk', g.target, i);
    }
    assert p[..n] == DataOf(ino, g.disk, n);
    FlattenZeros(p[n..]);
    FlattenSplit(p, n);
  }

  /** Blocks allocated for a file make a supply that `increase_size` accepts. */
  lemma AllocatedSupply(area: Area, inodes: seq<Inode>, disk: Disk, bits: seq<seq<nat>>, v: seq<nat>, i: nat, size: nat)
    requires FsOk(area, inodes, disk, bits, v) && i < |inodes| && inodes[i].size <= size && DataBlocks(size) <= MAX_BLOCKS
    requires |v| == TotalBlocks(size) - TotalBlocks(inodes[i].size)
    ensures Supplied(Growth(OwnedBy(inodes[i], disk), v, disk, DataBlocks(size)))
  {
    var (p, own) := (OwnedLists(inodes, disk), OwnedBy(inodes[i], disk));
    DistinctParts(Used(inodes, disk), v);
    assert p[i] == own;
    PieceDistinct(p, i);
    forall x | 0 <= x < |own| ensures own[x] in Used(inodes, disk) { InFlatten(p, i, x); }
    DistinctJoin(own, v);
    forall b | b in own + v ensures b in Used(inodes, disk) + v { if b in own { OwnedIsUsed(inodes, disk, i, b); } }
    OwnedLength(inodes[i], disk, DataBlocks(inodes[i].size));
    TotalBlocksCounts(size);
    TotalBlocksCounts(inodes[i].size);
  }

  lemma BlocksMonotone(a: nat, b: nat)
    requires a <= b
    ensures DataBlocks(a) <= DataBlocks(b)
  {
  }

  /** The file reads as before, and zero behind its old end. */
  lemma GrownContent(ino: Inode, disk: Disk, ino': Inode, disk': Disk)
    requires FileOk(ino, disk) && |ino'.direct| == DIRECT && ino.size <= ino'.size && DataBlocks(ino'.size) <= MAX_BLOCKS
    requires DataBlocks(ino.size) <= DataBlocks(ino'.size)
    requires AllBytes(ino', disk') == AllBytes(ino, disk) + Zeros(512 * (DataBlocks(ino'.size) - DataBlocks(ino.size)))
    ensures FileOk(ino', disk') && Content(ino', disk') == Content(ino, disk) + Zeros(ino'.size - ino.size)
  {
    BlocksCover(ino.size);
    BlocksCover(ino'.size);
    var all := AllBytes(ino', disk');
    var z := 512 * DataBlocks(ino'.size) - ino.size;
    assert all == Content(ino, disk) + Zeros(z);
    assert Content(ino', disk') == all[..ino'.size] == Content(ino, disk) + Zeros(z)[..ino'.size - ino.size];
    assert all[ino'.size..] == Zeros(z)[ino'.size - ino.size..];
  }

  lemma IndexElsewhere(ino: Inode, disk: Disk, n: nat, b: nat)
    requires |ino.direct| == DIRECT && b !in Owned(ino, disk, n)
    ensures b !in Index(ino, disk, n)
  {
    if b in Index(ino, disk, n) { IndexOwned(ino, disk, n, b); }
  }

  /** The blocks that growth changed or added belong to no other file. */
  lemma GrowthIsApart(inodes: seq<Inode>, disk: Disk, v: seq<nat>, i: nat, ino': Inode, disk': Disk, g: Growth, k: nat)
    requires InodesOk(inodes) && i < |inodes| && k < |inodes| && k != i && Distinct(Used(inodes, disk) + v)
    requires g == Growth(OwnedBy(inodes[i], disk), v, disk, g.target) && Growing(g, ino', disk', g.target, |v|, false)
    ensures SameOn(disk, disk', OwnedBy(inodes[k], disk))
  {
    DistinctParts(Used(inodes, disk), v);
    OwnedApart(inodes, disk, k, i);
    assert v[..|v|] == v && Owned(ino', disk', g.target) == g.owned + v;
    forall b | b in OwnedBy(inodes[k], disk) && b < |disk| ensures disk'[b] == disk[b] {
      OwnedIsUsed(inodes, disk, k, b);
      assert b !in g.owned + v;
      IndexElsewhere(ino', disk', g.target, b);
    }
  }

  lemma FileGrown(area: Area, inodes: seq<Inode>, disk: Disk, bits: seq<seq<nat>>, v: seq<nat>, i: nat,
                  ino': Inode, disk': Disk, g: Growth)
    requires FsOk(area, inodes, disk, bits, v) && i < |inodes| && inodes[i].size <= ino'.size
    requires g == Growth(OwnedBy(inodes[i], disk), v, disk, DataBlocks(ino'.size)) && Supplied(g)
    requires Growing(g, ino', disk', g.target, |v|, false)
    requires forall b :: b in v ==> b < |disk| && disk[b] == Zeros(BLOCK_SZ)
    ensures FsOk(area, inodes[i := ino'], disk', bits, []) && SameOutside(area, disk, disk')
    ensures Content(ino', disk') == Content(inodes[i], disk) + Zeros(ino'.size - inodes[i].size)
    ensures forall k :: 0 <= k < |inodes| && k != i ==> Content(inodes[k], disk') == Content(inodes[k], disk)
  {
    BlocksMonotone(inodes[i].size, ino'.size);
    GrownBytes(inodes[i], g, DataBlocks(inodes[i].size), ino', disk');
    GrownContent(inodes[i], disk, ino', disk');
    forall k | 0 <= k < |inodes| && k != i ensures SameOn(disk, disk', OwnedBy(inodes[k], disk)) {
      GrowthIsApart(inodes, disk, v, i, ino', disk', g, k);
    }
    OthersFrame(inodes, disk, disk', i, ino');
    GrownSpace(area, inodes, disk, bits, v, i, ino', disk', g);
  }

  lemma PieceGrown(p: seq<seq<nat>>, i: nat, v: seq<nat>)
    requires i < |p|
    ensures multiset(Flatten(p) + v) == multiset(Flatten(p[i := p[i] + v]) + [])
  {
    FlattenUpdate(p, i, p[i] + v);
  }

  lemma GrownSpace(area: Area, inodes: seq<Inode>, disk: Disk, bits: seq<seq<nat>>, v: seq<nat>, i: nat,
                   ino': Inode, disk': Disk, g: Growth)
    requires InodesOk(inodes) && SpaceOk(area, disk, bits, Used(inodes, disk) + v) && i < |inodes|
    requires g == Growth(OwnedBy(inodes[i], disk), v, disk, DataBlocks(ino'.size)) && Growing(g, ino', disk', g.target, |v|, false)
    requires InodesOk(inodes[i := ino'])
    requires OwnedLists(inodes[i := ino'], disk') == OwnedLists(inodes, disk)[i := OwnedBy(ino', disk')]
    ensures SpaceOk(area, disk', bits, Used(inodes[i := ino'], disk') + []) && SameOutside(area, disk, disk')
  {
    var p := OwnedLists(inodes, disk);
    assert v[..|v|] == v && OwnedBy(ino', disk') == p[i] + v;
    PieceGrown(p, i, v);
    var used := Used(inodes[i := ino'], disk') + [];
    SpaceRearranged(area, disk, bits, Used(inodes, disk) + v, used);
    forall b | 0 <= b < |disk| && b !in used ensures disk'[b] == disk[b] {
      if b in Index(ino', disk', g.target) {
        IndexOwned(ino', disk', g.target, b);
        OwnedIsUsed(inodes[i := ino'], disk', i, b);
      }
    }
    SpaceFrame(area, disk, bits, used, disk');
  }

  // ----- Writing -----

  /** A file of a consistent volume, as `read_at` and `write_at` want it. */
  lemma FileIsMapped(area: Area, inodes: seq<Inode>, disk: Disk, bits: seq<seq<nat>>, i: nat)
    requires FsOk(area, inodes, disk, bits, []) && i < |inodes|
    ensures Mapped(inodes[i], disk, DataBlocks(inodes[i].size))
  {
    var p := OwnedLists(inodes, disk);
    assert Used(inodes, disk) + [] == Flatten(p);
    assert p[i] == OwnedBy(inodes[i], disk);
    PieceDistinct(p, i);
    forall b | b in OwnedBy(inodes[i], disk) ensures b in Flatten(p) { OwnedIsUsed(inodes, disk, i, b); }
  }

  lemma WrittenContent(ino: Inode, disk: Disk, offset: nat, data: seq<nat>, disk': Disk)
    requires FileOk(ino, disk) && offset + |data| <= ino.size
    requires HasWritten(ino, disk, DataBlocks(ino.size), offset, data, |data|, disk')
    ensures FileOk(ino, disk') && Content(ino, disk') == Splice(Content(ino, disk), offset, data)
  {
    BlocksCover(ino.size);
    assert data[..|data|] == data;
    SpliceLeft(Content(ino, disk), Zeros(512 * DataBlocks(ino.size) - ino.size), offset, data);
  }

  lemma FileWritten(area: Area, inodes: seq<Inode>, disk: Disk, bits: seq<seq<nat>>, i: nat,
                    offset: nat, data: seq<nat>, disk': Disk)
    requires FsOk(area, inodes, disk, bits, []) && i < |inodes| && offset + |data| <= inodes[i].size
    requires HasWritten(inodes[i], disk, DataBlocks(inodes[i].size), offset, data, |data|, disk')
    ensures SameOutside(area, disk, disk')
    ensures FsOk(area, inodes, disk', bits, []) && Content(inodes[i], disk') == Splice(Content(inodes[i], disk), offset, data)
    ensures forall k :: 0 <= k < |inodes| && k != i ==> Content(inodes[k], disk') == Content(inodes[k], disk)
  {
    WrittenContent(inodes[i], disk, offset, data, disk');
    assert Used(inodes, disk) + [] == Used(inodes, disk);
    forall k | 0 <= k < |inodes| && k != i ensures SameOn(disk, disk', OwnedBy(inodes[k], disk)) {
      OwnedApart(inodes, disk, k, i);
    }
    OthersFrame(inodes, disk, disk', i, inodes[i]);
    assert inodes[i := inodes[i]] == inodes;
    assert OwnedLists(inodes, disk') == OwnedLists(inodes, disk);
    forall b | 0 <= b < |disk| && b !in Used(inodes, disk) ensures disk'[b] == disk[b] {
      if b in OwnedBy(inodes[i], disk) { OwnedIsUsed(inodes, disk, i, b); }
    }
    SpaceFrame(area, disk, bits, Used(inodes, disk) + [], disk');
  }

  // ----- Clearing -----

  lemma EmptyFile(ino: Inode, disk: Disk)
    requires ino.size == 0 && |ino.direct| == DIRECT
    ensures FileOk(ino, disk) && Content(ino, disk) == [] && OwnedBy(ino, disk) == []
  {
    assert DataBlocks(0) == 0 && Zeros(0) == [];
  }

  /** An emptied file has given up its blocks, which are still marked as used. */
  lemma EmptiedSpace(area: Area, inodes: seq<Inode>, disk: Disk, bits: seq<seq<nat>>, i: nat, ino': Inode)
    requires InodesOk(inodes) && SpaceOk(area, disk, bits, Used(inodes, disk)) && i < |inodes|
    requires |ino'.direct| == DIRECT && OwnedBy(ino', disk) == []
    ensures InodesOk(inodes[i := ino'])
    ensures SpaceOk(area, disk, bits, Used(inodes[i := ino'], disk) + OwnedBy(inodes[i], disk))
  {
    var p := OwnedLists(inodes, disk);
    assert OwnedLists(inodes[i := ino'], disk) == p[i := []];
    FlattenUpdate(p, i, []);
    assert p[i] == OwnedBy(inodes[i], disk);
    var used := Used(inodes[i := ino'], disk) + OwnedBy(inodes[i], disk);
    assert multiset(used) == multiset(Used(inodes, disk));
    SpaceRearranged(area, disk, bits, Used(inodes, disk), used);
  }

  lemma FileEmptied(area: Area, inodes: seq<Inode>, disk: Disk, bits: seq<seq<nat>>, i: nat, ino': Inode)
    requires FsOk(area, inodes, disk, bits, []) && i < |inodes| && ino'.size == 0 && |ino'.direct| == DIRECT
    ensures FsOk(area, inodes[i := ino'], disk, bits, OwnedBy(inodes[i], disk)) && Content(ino', disk) == []
  {
    assert Used(inodes, disk) + [] == Used(inodes, disk);
    EmptyFile(ino', disk);
    EmptiedSpace(area, inodes, disk, bits, i, ino');
  }

  /** A block of no file may change without any file noticing. */
  lemma StrayBlock(inodes: seq<Inode>, disk: Disk, b: nat, block: seq<nat>)
    requires InodesOk(inodes) && b < |disk| && b !in Used(inodes, disk)
    ensures Used(inodes, disk[b := block]) == Used(inodes, disk)
    ensures forall k :: 0 <= k < |inodes| ==>
              && Content(inodes[k], disk[b := block]) == Content(inodes[k], disk)
              && (FileOk(inodes[k], disk[b := block]) <==> FileOk(inodes[k], disk))
  {
    var disk' := disk[b := block];
    forall k | 0 <= k < |inodes|
      ensures OwnedBy(inodes[k], disk') == OwnedBy(inodes[k], disk) && Content(inodes[k], disk') == Content(inodes[k], disk)
      ensures FileOk(inodes[k], disk') <==> FileOk(inodes[k], disk)
    {
      forall x | x in OwnedBy(inodes[k], disk) ensures x != b { OwnedIsUsed(inodes, disk, k, x); }
      FileFrame(inodes[k], disk, disk');
    }
    assert OwnedLists(inodes, disk') == OwnedLists(inodes, disk);
  }

  lemma FirstIsStray(used: seq<nat>, pend: seq<nat>)
    requires Distinct(used + pend) && pend != []
    ensures pend[0] !in used && pend[0] in used + pend && multiset(used + pend) == multiset(used + pend[1..] + [pend[0]])
  {
    DistinctParts(used, pend);
    assert pend == [pend[0]] + pend[1..];
  }

  /** One block that belongs to no file is zeroed and freed. */
  lemma BlockFreed(area: Area, inodes: seq<Inode>, disk: Disk, bits: seq<seq<nat>>, pend: seq<nat>, bits': seq<seq<nat>>)
    requires FsOk(area, inodes, disk, bits, pend) && pend != []
    requires BitmapOk(bits') && |bits'| == |bits| && area.start <= pend[0] < |disk|
    requires forall j: nat :: j < 4096 * |bits| ==> (IsSet(bits', j) <==> j != pend[0] - area.start && IsSet(bits, j))
    ensures FsOk(area, inodes, disk[pend[0] := Zeros(BLOCK_SZ)], bits', pend[1..])
    ensures SameOutside(area, disk, disk[pend[0] := Zeros(BLOCK_SZ)])
    ensures forall k :: 0 <= k < |inodes| ==> Content(inodes[k], disk[pend[0] := Zeros(BLOCK_SZ)]) == Content(inodes[k], disk)
  {
    var used := Used(inodes, disk);
    FirstIsStray(used, pend);
    SpaceAfterFree(area, disk, bits, used + pend, pend[0], used + pend[1..], bits');
    StrayBlock(inodes, disk, pend[0], Zeros(BLOCK_SZ));
  }
}
