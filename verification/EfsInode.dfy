/** `DiskInode::increase_size` and `clear_size`, on the disk as the block cache presents it. */
module EfsInode {
  import opened Lists
  import opened EfsMap
  import opened EfsGrow

  function Min(a: nat, b: nat): nat {
    if a < b then a else b
  }

  lemma SizeIsApart(ino: Inode, disk: Disk, n: nat, size: nat)
    requires |ino.direct| == DIRECT
    ensures Owned(ino.(size := size), disk, n) == Owned(ino, disk, n)
    ensures Index(ino.(size := size), disk, n) == Index(ino, disk, n)
  {
    OwnedSame(ino, disk, ino.(size := size), disk, n);
    IndexKept(ino, disk, ino.(size := size), disk, n);
  }

  lemma GrowthBegins(ino: Inode, disk: Disk, size: nat, blocks: seq<nat>)
    requires |ino.direct| == DIRECT && DiskOk(disk) && ino.size <= size
    ensures var g := Growth(Owned(ino, disk, DataBlocks(ino.size)), blocks, disk, DataBlocks(size));
            Growing(g, ino.(size := size), disk, DataBlocks(ino.size), 0, false)
  {
    SizeIsApart(ino, disk, DataBlocks(ino.size), size);
  }

  lemma AllUsed(g: Growth, ino: Inode, disk: Disk, k: nat)
    requires Supplied(g) && Growing(g, ino, disk, g.target, k, false)
    ensures k == |g.blocks|
  {
    OwnedLength(ino, disk, g.target);
  }

  /** Every entry is a word. */
  ghost predicate Words(ino: Inode) {
    ino.indirect1 < WORD_BOUND && ino.indirect2 < WORD_BOUND && forall i :: 0 <= i < |ino.direct| ==> ino.direct[i] < WORD_BOUND
  }

  lemma SupplyIsWords(g: Growth, k: nat)
    requires Supplied(g) && k < |g.blocks|
    ensures g.blocks[k] < WORD_BOUND
  {
    assert (g.owned + g.blocks)[|g.owned| + k] == g.blocks[k];
    assert g.blocks[k] in g.owned + g.blocks;
  }

  lemma BelowSub(ino: Inode, disk: Disk, c: nat, a: nat, j: nat)
    requires |ino.direct| == DIRECT && j < PER_BLOCK && c == FirstOf(a) + j
    ensures DataId(ino, disk, c) == Entry(disk, SubId(ino, disk, a), j)
    ensures IndexIds(ino, disk, c) == if j > 0 then [] else (if a == 0 then [ino.indirect2] else []) + [SubId(ino, disk, a)]
  {
    HighLowAre(c - INDIRECT1_BOUND, a, j);
  }

  /** The listing so far, with the index blocks for the next data block in it if there are any. */
  ghost predicate Listed(ino: Inode, disk: Disk, c: nat, v: seq<nat>, top: bool)
    requires |ino.direct| == DIRECT
  {
    if top then v == Owned(ino, disk, c) + IndexIds(ino, disk, c) else v == Owned(ino, disk, c)
  }

  lemma ListSubItself(ino: Inode, disk: Disk, a: nat, v: seq<nat>)
    requires |ino.direct| == DIRECT && v == Owned(ino, disk, FirstOf(a)) + (if a == 0 then [ino.indirect2] else [])
    ensures Listed(ino, disk, FirstOf(a), v + [SubId(ino, disk, a)], true)
  {
    BelowSub(ino, disk, FirstOf(a), a, 0);
  }

  lemma ListBelowSub(ino: Inode, disk: Disk, c: nat, a: nat, j: nat, v: seq<nat>)
    requires |ino.direct| == DIRECT && j < PER_BLOCK && c == FirstOf(a) + j && Listed(ino, disk, c, v, j == 0)
    ensures Listed(ino, disk, c + 1, v + [Entry(disk, SubId(ino, disk, a), j)], false)
  {
    BelowSub(ino, disk, c, a, j);
    OwnedNext(ino, disk, c);
  }

  class Volume {
    var disk: Disk

    constructor (disk: Disk)
      ensures this.disk == disk
    {
      this.disk := disk;
    }

    /** `get_block_id`, for a position the map reaches: the three levels are one flat list. */
    method GetBlockId(ino: Inode, i: nat) returns (b: nat)
      requires |ino.direct| == DIRECT && i < MAX_BLOCKS
      ensures b == DataId(ino, disk, i)
      ensures forall n: nat :: i < n ==> Place(i) < |Owned(ino, disk, n)| && b == Owned(ino, disk, n)[Place(i)]
    {
      forall n: nat | i < n ensures Place(i) < |Owned(ino, disk, n)| && DataId(ino, disk, i) == Owned(ino, disk, n)[Place(i)] {
        DataIdAt(ino, disk, n, i);
      }
      if i < DIRECT {
        b := ino.direct[i];
      } else if i < INDIRECT1_BOUND {
        b := Entry(disk, ino.indirect1, i - DIRECT);
      } else {
        var last := i - INDIRECT1_BOUND;
        HighLowDivMod(last);
        var indirect1 := Entry(disk, ino.indirect2, last / 128);
        b := Entry(disk, indirect1, last % 128);
      }
    }

    /** Fills the direct entries; as all three parts, it starts with `c` data blocks in the map and `k`
        blocks of the supply used, and says how many it leaves. */
    method FillDirect(ino: Inode, current: nat, total: nat, supply: seq<nat>, ghost g: Growth)
      returns (r: Inode, current': nat, k: nat)
      requires Supplied(g) && Growing(g, ino, disk, current, 0, false) && supply == g.blocks && total == g.target
      ensures Growing(g, r, disk, current', k, false) && r.size == ino.size && (Words(ino) ==> Words(r))
      ensures current' == if current < Min(total, DIRECT) then Min(total, DIRECT) else current
    {
      r, current', k := ino, current, 0;
      while current' < Min(total, DIRECT)
        invariant Growing(g, r, disk, current', k, false) && r.size == ino.size && (Words(ino) ==> Words(r))
        invariant current <= current' && (current' <= Min(total, DIRECT) || current' == current)
      {
        GrowDirect(g, r, disk, current', k);
        SupplyIsWords(g, k);
        r := r.(direct := r.direct[current' := supply[k]]);
        k, current' := k + 1, current' + 1;
      }
    }

    /** Enters one data block into the indirect block. */
    method FillEntry(ino: Inode, i: nat, supply: seq<nat>, k: nat, ghost g: Growth, ghost c: nat)
      requires Supplied(g) && supply == g.blocks && c == DIRECT + i < g.target && i < PER_BLOCK
      requires Growing(g, ino, disk, c, k, c == DIRECT)
      modifies this
      ensures k < |supply| && Growing(g, ino, disk, c + 1, k + 1, false)
    {
      GrowIndirect1(g, ino, disk, c, k);
      disk := WithEntry(disk, ino.indirect1, i, supply[k]);
    }

    /** Sets the indirect block if it is new and fills its entries; counts are relative to it. */
    method FillIndirect1(ino: Inode, current: nat, total: nat, supply: seq<nat>, k0: nat, ghost g: Growth)
      returns (r: Inode, current': nat, k: nat)
      requires Supplied(g) && supply == g.blocks && 0 < total && total + DIRECT == g.target
      requires Growing(g, ino, disk, DIRECT + current, k0, false)
      modifies this
      ensures Growing(g, r, disk, DIRECT + current', k, false) && r.size == ino.size && (Words(ino) ==> Words(r))
      ensures current' == if current < Min(total, PER_BLOCK) then Min(total, PER_BLOCK) else current
    {
      r, current', k := ino, current, k0;
      ghost var c := DIRECT + current;
      if current == 0 {
        GrowTop(g, r, disk, c, k);
        SupplyIsWords(g, k);
        r, k := r.(indirect1 := supply[k]), k + 1;
      }
      while current' < Min(total, PER_BLOCK)
        invariant c == DIRECT + current' && Growing(g, r, disk, c, k, c == DIRECT) && r.size == ino.size && (Words(ino) ==> Words(r))
        invariant current <= current' && (current' <= Min(total, PER_BLOCK) || current' == current)
      {
        FillEntry(r, current', supply, k, g, c);
        k, current', c := k + 1, current' + 1, c + 1;
      }
    }

    /** Opens low-level indirect block `a0`. */
    method OpenLow(ino: Inode, a0: nat, supply: seq<nat>, k: nat, ghost g: Growth, ghost c: nat)
      requires Supplied(g) && supply == g.blocks && c == FirstOf(a0) < g.target && Growing(g, ino, disk, c, k, a0 == 0)
      modifies this
      ensures k < |supply| && Opened(g, ino, disk, c, k + 1)
    {
      OpenSub(g, ino, disk, a0, k);
      disk := WithEntry(disk, ino.indirect2, a0, supply[k]);
    }

    /** Enters one data block at `(a0, b0)` in a low-level indirect block that is open. */
    method FillLow(ino: Inode, a0: nat, b0: nat, supply: seq<nat>, k: nat, ghost g: Growth, ghost c: nat)
      requires Supplied(g) && supply == g.blocks && c == FirstOf(a0) + b0 && b0 < PER_BLOCK && Opened(g, ino, disk, c, k)
      modifies this
      ensures k < |supply| && Growing(g, ino, disk, c + 1, k + 1, false)
    {
      FillSub(g, ino, disk, c, a0, b0, k);
      disk := WithEntry(disk, SubId(ino, disk, a0), b0, supply[k]);
    }

    /** Enters one data block at `(a0, b0)` below the doubly indirect block, opening a low-level indirect
        block for it if need be. */
    method FillOne(ino: Inode, a0: nat, b0: nat, supply: seq<nat>, k: nat, ghost g: Growth, ghost c: nat) returns (k': nat)
      requires Supplied(g) && supply == g.blocks && c == FirstOf(a0) + b0 < g.target && b0 < PER_BLOCK
      requires Growing(g, ino, disk, c, k, c == INDIRECT1_BOUND)
      modifies this
      ensures Growing(g, ino, disk, c + 1, k', false)
    {
      k' := k;
      if b0 == 0 {
        OpenLow(ino, a0, supply, k, g, c);
        k' := k' + 1;
      } else {
        AlreadyOpen(g, ino, disk, c, a0, b0, k');
      }
      FillLow(ino, a0, b0, supply, k', g, c);
      k' := k' + 1;
    }

    /** Fills the entries below the doubly indirect block, from `(a0, b0)` up to `(a1, b1)`. */
    method FillBelow(ino: Inode, a: nat, b: nat, a1: nat, b1: nat, supply: seq<nat>, k0: nat, ghost g: Growth)
      requires Supplied(g) && supply == g.blocks && FirstOf(a1) + b1 == g.target && b < PER_BLOCK && b1 < PER_BLOCK
      requires FirstOf(a) + b <= g.target && Growing(g, ino, disk, FirstOf(a) + b, k0, FirstOf(a) + b == INDIRECT1_BOUND)
      requires INDIRECT1_BOUND < g.target
      modifies this
      ensures Growing(g, ino, disk, g.target, |supply|, false)
    {
      var a0: nat, b0: nat, k: nat := a, b, k0;
      ghost var c := FirstOf(a) + b;
      while a0 < a1 || (a0 == a1 && b0 < b1)
        invariant c == FirstOf(a0) + b0 <= g.target && b0 < PER_BLOCK
        invariant Growing(g, ino, disk, c, k, c == INDIRECT1_BOUND)
        decreases g.target - c
      {
        k := FillOne(ino, a0, b0, supply, k, g, c);
        b0, c := b0 + 1, c + 1;
        if b0 == PER_BLOCK {
          b0, a0 := 0, a0 + 1;
        }
      }
      AllUsed(g, ino, disk, k);
    }

    /** Sets the doubly indirect block if it is new and fills the entries below it; counts are relative
        to it. */
    method FillIndirect2(ino: Inode, current: nat, total: nat, supply: seq<nat>, k0: nat, ghost g: Growth) returns (r: Inode)
      requires Supplied(g) && supply == g.blocks && 0 < total && total + INDIRECT1_BOUND == g.target
      requires Growing(g, ino, disk, INDIRECT1_BOUND + current, k0, false)
      modifies this
      ensures r.size == ino.size && Growing(g, r, disk, g.target, |supply|, false) && (Words(ino) ==> Words(r))
    {
      var k: nat := k0;
      r := ino;
      if current == 0 {
        GrowTop(g, r, disk, INDIRECT1_BOUND, k);
        SupplyIsWords(g, k);
        r, k := r.(indirect2 := supply[k]), k + 1;
      }
      FillBelow(r, current / 128, current % 128, total / 128, total % 128, supply, k, g);
    }

    /** The part of `increase_size` beyond the direct entries; `current0` of `total0` are in the map. */
    method FillIndirect(ino: Inode, current0: nat, total0: nat, supply: seq<nat>, k0: nat, ghost g: Growth) returns (r: Inode)
      requires Supplied(g) && supply == g.blocks && DIRECT < total0 == g.target && DIRECT <= current0
      requires Growing(g, ino, disk, current0, k0, false)
      modifies this
      ensures r.size == ino.size && Growing(g, r, disk, g.target, |supply|, false) && (Words(ino) ==> Words(r))
    {
      var current, total, k: nat := current0 - DIRECT, total0 - DIRECT, k0;
      r, current, k := FillIndirect1(ino, current, total, supply, k, g);
      if total > PER_BLOCK {
        r := FillIndirect2(r, current - PER_BLOCK, total - PER_BLOCK, supply, k, g);
      } else {
        AllUsed(g, r, disk, k);
      }
    }

    /** `increase_size`: takes exactly the blocks supplied, in order, and changes index blocks only. */
    method IncreaseSize(ino: Inode, newSize: nat, newBlocks: seq<nat>, ghost g: Growth) returns (r: Inode)
      requires |ino.direct| == DIRECT && ino.size <= newSize
      requires g == Growth(Owned(ino, disk, DataBlocks(ino.size)), newBlocks, disk, DataBlocks(newSize)) && Supplied(g)
      modifies this
      ensures r.size == newSize && Growing(g, r, disk, g.target, |newBlocks|, false) && (Words(ino) ==> Words(r))
    {
      var current := DataBlocks(ino.size);
      r := ino.(size := newSize);
      var total := DataBlocks(newSize);
      GrowthBegins(ino, disk, newSize, newBlocks);
      var k;
      r, current, k := FillDirect(r, current, total, newBlocks, g);
      if total > DIRECT {
        r := FillIndirect(r, current, total, newBlocks, k, g);
      } else {
        AllUsed(g, r, disk, k);
      }
    }

    /** Lists the first `count` entries of low-level indirect block `a`, after the block itself. */
    method ListSub(ino: Inode, a: nat, count: nat, v: seq<nat>) returns (v': seq<nat>)
      requires |ino.direct| == DIRECT && a < PER_BLOCK && 0 < count <= PER_BLOCK
      requires v == Owned(ino, disk, FirstOf(a)) + (if a == 0 then [ino.indirect2] else [])
      ensures v' == Owned(ino, disk, FirstOf(a) + count)
    {
      var sub := Entry(disk, ino.indirect2, a);
      ListSubItself(ino, disk, a, v);
      v' := v + [sub];
      var j := 0;
      ghost var c := FirstOf(a);
      while j < count
        invariant j <= count && c == FirstOf(a) + j
        invariant Listed(ino, disk, c, v', j == 0)
      {
        ListBelowSub(ino, disk, c, a, j, v');
        v' := v' + [Entry(disk, sub, j)];
        j, c := j + 1, c + 1;
      }
    }

    /** `clear_size`: the blocks come out in the order they went in, and nothing on the disk changes. */
    method ClearSize(ino: Inode) returns (v: seq<nat>, r: Inode)
      requires |ino.direct| == DIRECT && DataBlocks(ino.size) <= MAX_BLOCKS
      ensures v == Owned(ino, disk, DataBlocks(ino.size)) && |v| == TotalBlocks(ino.size)
      ensures r.size == 0 && |r.direct| == DIRECT
      ensures forall i :: 0 <= i < DIRECT ==> r.direct[i] == if i < DataBlocks(ino.size) then 0 else ino.direct[i]
      ensures r.indirect1 == if DataBlocks(ino.size) > DIRECT then 0 else ino.indirect1
      ensures r.indirect2 == if DataBlocks(ino.size) > INDIRECT1_BOUND then 0 else ino.indirect2
    {
      var blocks := DataBlocks(ino.size);
      OwnedLength(ino, disk, blocks);
      TotalBlocksCounts(ino.size);
      r := ino.(size := 0);
      v := [];
      var current := 0;
      while current < Min(blocks, DIRECT)
        invariant current <= Min(blocks, DIRECT) && |r.direct| == DIRECT && r.size == 0
        invariant v == Owned(ino, disk, current)
        invariant r.indirect1 == ino.indirect1 && r.indirect2 == ino.indirect2
        invariant forall i :: 0 <= i < DIRECT ==> r.direct[i] == if i < current then 0 else ino.direct[i]
      {
        OwnedNext(ino, disk, current);
        v := v + [ino.direct[current]];
        r := r.(direct := r.direct[current := 0]);
        current := current + 1;
      }
      if blocks <= DIRECT { return; }
      v := ListIndirect1(ino, blocks, v);
      r := r.(indirect1 := 0);
      if blocks <= INDIRECT1_BOUND { return; }
      v := ListIndirect2(ino, blocks - INDIRECT1_BOUND, v);
      r := r.(indirect2 := 0);
    }

    method ListIndirect1(ino: Inode, blocks: nat, v: seq<nat>) returns (v': seq<nat>)
      requires |ino.direct| == DIRECT && blocks > DIRECT && v == Owned(ino, disk, DIRECT)
      ensures v' == Owned(ino, disk, Min(blocks, INDIRECT1_BOUND))
    {
      v' := v + [ino.indirect1];
      var current := 0;
      while current < Min(blocks - DIRECT, PER_BLOCK)
        invariant current <= Min(blocks - DIRECT, PER_BLOCK)
        invariant v' == Owned(ino, disk, DIRECT + current) + (if current == 0 then [ino.indirect1] else [])
      {
        OwnedNext(ino, disk, DIRECT + current);
        v' := v' + [Entry(disk, ino.indirect1, current)];
        current := current + 1;
      }
    }

    method ListIndirect2(ino: Inode, blocks: nat, v: seq<nat>) returns (v': seq<nat>)
      requires |ino.direct| == DIRECT && 0 < blocks <= 16384 && v == Owned(ino, disk, INDIRECT1_BOUND)
      ensures v' == Owned(ino, disk, INDIRECT1_BOUND + blocks)
    {
      v' := v + [ino.indirect2];
      var a1, b1 := blocks / 128, blocks % 128;
      var a := 0;
      while a < a1
        invariant a <= a1
        invariant v' == Owned(ino, disk, FirstOf(a)) + (if a == 0 then [ino.indirect2] else [])
      {
        v' := ListSub(ino, a, PER_BLOCK, v');
        a := a + 1;
      }
      if b1 > 0 {
        v' := ListSub(ino, a1, b1, v');
      }
    }
  }
}
