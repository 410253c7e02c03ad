/** Growing and clearing the block map of an inode. */
module EfsGrow {
  import opened Lists
  import opened EfsMap

  // ----- Index blocks are apart -----

  /** The blocks of the first `c` data blocks, and the index blocks that the next one needs. */
  function Reaching(ino: Inode, disk: Disk, c: nat): seq<seq<nat>>
    requires |ino.direct| == DIRECT
  {
    Pieces(ino, disk, c) + [IndexIds(ino, disk, c)]
  }

  lemma ReachingIs(ino: Inode, disk: Disk, c: nat)
    requires |ino.direct| == DIRECT
    ensures Flatten(Reaching(ino, disk, c)) == Owned(ino, disk, c) + IndexIds(ino, disk, c)
  {
    assert Reaching(ino, disk, c)[..c] == Pieces(ino, disk, c);
  }

  /** The data block that brought in low-level indirect block `a`. */
  function FirstOf(a: nat): nat {
    INDIRECT1_BOUND + 128 * a
  }

  /** The piece where a low-level indirect block is the last index block. */
  lemma SubPiece(ino: Inode, disk: Disk, c: nat, a: nat)
    requires |ino.direct| == DIRECT && FirstOf(a) <= c
    ensures var p := Reaching(ino, disk, c)[FirstOf(a)];
            if a == 0 then |p| >= 2 && p[0] == ino.indirect2 && p[1] == SubId(ino, disk, 0)
            else |p| >= 1 && p[0] == SubId(ino, disk, a)
  {
    HighLowAre(FirstOf(a) - INDIRECT1_BOUND, a, 0);
  }

  lemma SubsApart(ino: Inode, disk: Disk, c: nat, a: nat, b: nat)
    requires |ino.direct| == DIRECT && a < b && FirstOf(b) <= c
    requires Distinct(Owned(ino, disk, c) + IndexIds(ino, disk, c))
    ensures SubId(ino, disk, a) != SubId(ino, disk, b) && SubId(ino, disk, b) != ino.indirect2
  {
    var p := Reaching(ino, disk, c);
    ReachingIs(ino, disk, c);
    SubPiece(ino, disk, c, a);
    SubPiece(ino, disk, c, b);
    SubPiece(ino, disk, c, 0);
    PiecesApart(p, FirstOf(a), FirstOf(b));
    PiecesApart(p, FirstOf(0), FirstOf(b));
  }

  lemma SubApart(ino: Inode, disk: Disk, c: nat, a: nat)
    requires |ino.direct| == DIRECT && FirstOf(a) <= c
    requires Distinct(Owned(ino, disk, c) + IndexIds(ino, disk, c))
    ensures ino.indirect1 != SubId(ino, disk, a) && ino.indirect1 != ino.indirect2 && ino.indirect2 != SubId(ino, disk, a)
  {
    var p := Reaching(ino, disk, c);
    ReachingIs(ino, disk, c);
    SubPiece(ino, disk, c, a);
    SubPiece(ino, disk, c, 0);
    assert p[DIRECT] == Fresh(ino, disk, DIRECT) && p[DIRECT][0] == ino.indirect1;
    PiecesApart(p, DIRECT, FirstOf(a));
    PiecesApart(p, DIRECT, FirstOf(0));
    if a > 0 { SubsApart(ino, disk, c, 0, a); }
  }

  // ----- One write to the map -----

  /** The first `c` data blocks, and the index blocks they need, are the same. */
  ghost predicate Kept(ino: Inode, disk: Disk, ino': Inode, disk': Disk, c: nat)
    requires |ino.direct| == DIRECT && |ino'.direct| == DIRECT
  {
    forall i :: 0 <= i < c ==> Fresh(ino', disk', i) == Fresh(ino, disk, i)
  }

  lemma DirectStep(ino: Inode, disk: Disk, c: nat, b: nat)
    requires |ino.direct| == DIRECT && c < DIRECT
    ensures Kept(ino, disk, ino.(direct := ino.direct[c := b]), disk, c)
    ensures Owned(ino.(direct := ino.direct[c := b]), disk, c + 1) == Owned(ino, disk, c) + [b]
  {
    var ino' := ino.(direct := ino.direct[c := b]);
    OwnedSame(ino, disk, ino', disk, c);
    OwnedNext(ino', disk, c);
  }

  lemma Indirect1Set(ino: Inode, disk: Disk, x: nat)
    requires |ino.direct| == DIRECT
    ensures Kept(ino, disk, ino.(indirect1 := x), disk, DIRECT)
    ensures Owned(ino.(indirect1 := x), disk, DIRECT) == Owned(ino, disk, DIRECT)
  {
    OwnedSame(ino, disk, ino.(indirect1 := x), disk, DIRECT);
  }

  lemma Indirect1Step(ino: Inode, disk: Disk, c: nat, b: nat)
    requires |ino.direct| == DIRECT && DiskOk(disk) && ino.indirect1 < |disk| && b < WORD_BOUND
    requires DIRECT <= c < INDIRECT1_BOUND
    ensures Kept(ino, disk, ino, WithEntry(disk, ino.indirect1, c - DIRECT, b), c)
    ensures Owned(ino, WithEntry(disk, ino.indirect1, c - DIRECT, b), c + 1)
            == Owned(ino, disk, c) + IndexIds(ino, disk, c) + [b]
  {
    var disk' := WithEntry(disk, ino.indirect1, c - DIRECT, b);
    WithEntryReads(disk, ino.indirect1, c - DIRECT, b);
    OwnedSame(ino, disk, ino, disk', c);
    OwnedNext(ino, disk', c);
  }

  lemma Indirect2Set(ino: Inode, disk: Disk, x: nat)
    requires |ino.direct| == DIRECT
    ensures Kept(ino, disk, ino.(indirect2 := x), disk, INDIRECT1_BOUND)
    ensures Owned(ino.(indirect2 := x), disk, INDIRECT1_BOUND) == Owned(ino, disk, INDIRECT1_BOUND)
  {
    OwnedSame(ino, disk, ino.(indirect2 := x), disk, INDIRECT1_BOUND);
  }

  /** A new low-level indirect block is entered for data block `c`. */
  lemma SubSet(ino: Inode, disk: Disk, c: nat, a: nat, x: nat)
    requires |ino.direct| == DIRECT && DiskOk(disk) && ino.indirect2 < |disk| && x < WORD_BOUND
    requires c == FirstOf(a) && a < PER_BLOCK && ino.indirect1 != ino.indirect2
    requires forall a' :: 0 <= a' < a ==> SubId(ino, disk, a') != ino.indirect2
    ensures Kept(ino, disk, ino, WithEntry(disk, ino.indirect2, a, x), c)
    ensures Owned(ino, WithEntry(disk, ino.indirect2, a, x), c) == Owned(ino, disk, c)
    ensures SubId(ino, WithEntry(disk, ino.indirect2, a, x), a) == x
  {
    var disk' := WithEntry(disk, ino.indirect2, a, x);
    WithEntryReads(disk, ino.indirect2, a, x);
    forall i | 0 <= i < c ensures Fresh(ino, disk', i) == Fresh(ino, disk, i) {
      if i >= INDIRECT1_BOUND { HighLow(i - INDIRECT1_BOUND); }
    }
    OwnedSame(ino, disk, ino, disk', c);
  }

  /** An entry at `(a, b)` is not seen by earlier data blocks. */
  lemma SubWriteKeeps(ino: Inode, disk: Disk, a: nat, b: nat, v: nat, i: nat)
    requires |ino.direct| == DIRECT && DiskOk(disk) && v < WORD_BOUND && b < PER_BLOCK && i < FirstOf(a) + b
    requires SubId(ino, disk, a) < |disk| && SubId(ino, disk, a) != ino.indirect1 && SubId(ino, disk, a) != ino.indirect2
    requires forall a' :: 0 <= a' < a ==> SubId(ino, disk, a') != SubId(ino, disk, a)
    ensures Fresh(ino, WithEntry(disk, SubId(ino, disk, a), b, v), i) == Fresh(ino, disk, i)
  {
    WithEntryReads(disk, SubId(ino, disk, a), b, v);
    if i >= INDIRECT1_BOUND { HighLow(i - INDIRECT1_BOUND); }
  }

  lemma SubWriteReads(ino: Inode, disk: Disk, c: nat, a: nat, b: nat, v: nat)
    requires |ino.direct| == DIRECT && DiskOk(disk) && v < WORD_BOUND && c == FirstOf(a) + b && b < PER_BLOCK
    requires SubId(ino, disk, a) < |disk| && SubId(ino, disk, a) != ino.indirect2
    ensures var disk' := WithEntry(disk, SubId(ino, disk, a), b, v);
            IndexIds(ino, disk', c) == IndexIds(ino, disk, c) && DataId(ino, disk', c) == v
  {
    WithEntryReads(disk, SubId(ino, disk, a), b, v);
    HighLowAre(c - INDIRECT1_BOUND, a, b);
  }

  /** Data block `c` is entered into low-level indirect block `a`. */
  lemma SubStep(ino: Inode, disk: Disk, c: nat, a: nat, b: nat, v: nat)
    requires |ino.direct| == DIRECT && DiskOk(disk) && v < WORD_BOUND && c == FirstOf(a) + b && b < PER_BLOCK
    requires SubId(ino, disk, a) < |disk| && SubId(ino, disk, a) != ino.indirect1 && SubId(ino, disk, a) != ino.indirect2
    requires forall a' :: 0 <= a' < a ==> SubId(ino, disk, a') != SubId(ino, disk, a)
    ensures Kept(ino, disk, ino, WithEntry(disk, SubId(ino, disk, a), b, v), c)
    ensures Owned(ino, WithEntry(disk, SubId(ino, disk, a), b, v), c + 1)
            == Owned(ino, disk, c) + IndexIds(ino, disk, c) + [v]
    ensures IndexIds(ino, WithEntry(disk, SubId(ino, disk, a), b, v), c) == IndexIds(ino, disk, c)
  {
    var disk' := WithEntry(disk, SubId(ino, disk, a), b, v);
    forall i | 0 <= i < c ensures Fresh(ino, disk', i) == Fresh(ino, disk, i) { SubWriteKeeps(ino, disk, a, b, v, i); }
    SubWriteReads(ino, disk, c, a, b, v);
    OwnedSame(ino, disk, ino, disk', c);
    OwnedNext(ino, disk', c);
  }

  // ----- Index blocks -----

  function IndexPieces(ino: Inode, disk: Disk, n: nat): seq<seq<nat>> {
    seq(n, i requires 0 <= i < n => IndexIds(ino, disk, i))
  }

  /** The index blocks of an inode with `n` data blocks. */
  function Index(ino: Inode, disk: Disk, n: nat): seq<nat> {
    Flatten(IndexPieces(ino, disk, n))
  }

  lemma IndexNext(ino: Inode, disk: Disk, n: nat)
    ensures Index(ino, disk, n + 1) == Index(ino, disk, n) + IndexIds(ino, disk, n)
  {
    assert IndexPieces(ino, disk, n + 1)[..n] == IndexPieces(ino, disk, n);
  }

  lemma IndexHas(ino: Inode, disk: Disk, n: nat, i: nat, x: nat)
    requires i < n && x < |IndexIds(ino, disk, i)|
    ensures IndexIds(ino, disk, i)[x] in Index(ino, disk, n)
  {
    assert IndexPieces(ino, disk, n)[i] == IndexIds(ino, disk, i);
    InFlatten(IndexPieces(ino, disk, n), i, x);
  }

  lemma IndexKept(ino: Inode, disk: Disk, ino': Inode, disk': Disk, c: nat)
    requires |ino.direct| == DIRECT && |ino'.direct| == DIRECT && Kept(ino, disk, ino', disk', c)
    ensures Index(ino', disk', c) == Index(ino, disk, c)
  {
    forall i | 0 <= i < c ensures IndexIds(ino', disk', i) == IndexIds(ino, disk, i) {
      var (f, n) := (Fresh(ino, disk, i), |IndexIds(ino, disk, i)|);
      assert Fresh(ino', disk', i) == f;
      assert IndexIds(ino', disk', i) == f[..|f| - 1] && IndexIds(ino, disk, i) == f[..|f| - 1];
    }
    assert IndexPieces(ino', disk', c) == IndexPieces(ino, disk, c);
  }

  // ----- Growth in progress -----

  /** A call of `increase_size`: the blocks owned before, those supplied, the disk before it, and the
      number of data blocks to reach. */
  datatype Growth = Growth(owned: seq<nat>, blocks: seq<nat>, disk: Disk, target: nat)

  ghost predicate Supplied(g: Growth) {
    && DiskOk(g.disk) && |g.disk| <= WORD_BOUND && g.target <= MAX_BLOCKS
    && Distinct(g.owned + g.blocks) && (forall b :: b in g.owned + g.blocks ==> b < |g.disk|)
    && |g.owned| + |g.blocks| == Total(g.target)
  }

  /** `c` data blocks are in the map, and `k` blocks of the supply are used; `top` tells whether the
      next index block has been set without an entry yet.  Nothing but index blocks has changed. */
  ghost predicate Growing(g: Growth, ino: Inode, disk: Disk, c: nat, k: nat, top: bool) {
    && |ino.direct| == DIRECT && DiskOk(disk) && |disk| == |g.disk|
    && c <= g.target && k <= |g.blocks|
    && Owned(ino, disk, c) + (if top then [TopId(ino, c)] else []) == g.owned + g.blocks[..k]
    && (forall b :: 0 <= b < |disk| && b !in Index(ino, disk, c) ==> disk[b] == g.disk[b])
  }

  function TopId(ino: Inode, c: nat): nat {
    if c == DIRECT then ino.indirect1 else ino.indirect2
  }

  lemma {:induction false} TotalGrows(ino: Inode, disk: Disk, c: nat, n: nat)
    requires c < n
    ensures Total(c) + |IndexIds(ino, disk, c)| + 1 <= Total(n)
  {
    if c < n - 1 { TotalGrows(ino, disk, c, n - 1); }
  }

  /** What is left of the supply suffices for the next data block. */
  lemma SupplySuffices(g: Growth, ino: Inode, disk: Disk, c: nat, k: nat, top: bool)
    requires Supplied(g) && Growing(g, ino, disk, c, k, top) && c < g.target
    ensures k + |IndexIds(ino, disk, c)| + 1 <= |g.blocks| + (if top then 1 else 0)
  {
    OwnedLength(ino, disk, c);
    TotalGrows(ino, disk, c, g.target);
  }

  lemma TakeNext(g: Growth, k: nat)
    requires Supplied(g) && k < |g.blocks|
    ensures g.owned + g.blocks[..k + 1] == g.owned + g.blocks[..k] + [g.blocks[k]] && g.blocks[k] < |g.disk|
    ensures Distinct(g.owned + g.blocks[..k + 1])
  {
    assert g.blocks == g.blocks[..k + 1] + g.blocks[k + 1..];
    assert g.owned + g.blocks == (g.owned + g.blocks[..k + 1]) + g.blocks[k + 1..];
    DistinctParts(g.owned + g.blocks[..k + 1], g.blocks[k + 1..]);
    assert g.blocks[k] in g.owned + g.blocks;
  }

  lemma GrowDirect(g: Growth, ino: Inode, disk: Disk, c: nat, k: nat)
    requires Supplied(g) && Growing(g, ino, disk, c, k, false) && c < DIRECT && c < g.target
    ensures k < |g.blocks| && Growing(g, ino.(direct := ino.direct[c := g.blocks[k]]), disk, c + 1, k + 1, false)
  {
    SupplySuffices(g, ino, disk, c, k, false);
    TakeNext(g, k);
    var ino' := ino.(direct := ino.direct[c := g.blocks[k]]);
    DirectStep(ino, disk, c, g.blocks[k]);
    IndexKept(ino, disk, ino', disk, c);
    IndexNext(ino', disk, c);
  }

  lemma GrowTop(g: Growth, ino: Inode, disk: Disk, c: nat, k: nat)
    requires Supplied(g) && Growing(g, ino, disk, c, k, false) && c < g.target && (c == DIRECT || c == INDIRECT1_BOUND)
    ensures k < |g.blocks|
    ensures Growing(g, if c == DIRECT then ino.(indirect1 := g.blocks[k]) else ino.(indirect2 := g.blocks[k]), disk, c, k + 1, true)
  {
    SupplySuffices(g, ino, disk, c, k, false);
    TakeNext(g, k);
    var ino' := if c == DIRECT then ino.(indirect1 := g.blocks[k]) else ino.(indirect2 := g.blocks[k]);
    if c == DIRECT { Indirect1Set(ino, disk, g.blocks[k]); } else { Indirect2Set(ino, disk, g.blocks[k]); }
    IndexKept(ino, disk, ino', disk, c);
  }

  lemma GrowIndirect1(g: Growth, ino: Inode, disk: Disk, c: nat, k: nat)
    requires Supplied(g) && Growing(g, ino, disk, c, k, c == DIRECT) && DIRECT <= c < INDIRECT1_BOUND && c < g.target
    ensures k < |g.blocks| && ino.indirect1 < |disk| && g.blocks[k] < WORD_BOUND
    ensures Growing(g, ino, WithEntry(disk, ino.indirect1, c - DIRECT, g.blocks[k]), c + 1, k + 1, false)
  {
    SupplySuffices(g, ino, disk, c, k, c == DIRECT);
    TakeNext(g, k);
    TopOwned(g, ino, disk, c, k);
    var disk' := WithEntry(disk, ino.indirect1, c - DIRECT, g.blocks[k]);
    Indirect1Step(ino, disk, c, g.blocks[k]);
    IndexKept(ino, disk, ino, disk', c);
    IndexNext(ino, disk', c);
    IndexHas(ino, disk', c + 1, DIRECT, 0);
  }

  /** The indirect block is one of the blocks handed over. */
  lemma TopOwned(g: Growth, ino: Inode, disk: Disk, c: nat, k: nat)
    requires Supplied(g) && Growing(g, ino, disk, c, k, c == DIRECT) && DIRECT <= c
    ensures ino.indirect1 < |disk|
  {
    var s := g.owned + g.blocks[..k];
    if c == DIRECT {
      assert s[|s| - 1] == ino.indirect1;
    } else {
      assert Pieces(ino, disk, c)[DIRECT][0] == ino.indirect1;
      InFlatten(Pieces(ino, disk, c), DIRECT, 0);
    }
    assert ino.indirect1 in s;
    assert ino.indirect1 in g.owned + g.blocks;
  }

  // ----- The doubly indirect part -----

  /** Like `Growing`, with all index blocks that data block `c` needs in place. */
  ghost predicate Opened(g: Growth, ino: Inode, disk: Disk, c: nat, k: nat) {
    && |ino.direct| == DIRECT && DiskOk(disk) && |disk| == |g.disk|
    && c < g.target && k <= |g.blocks|
    && Owned(ino, disk, c) + IndexIds(ino, disk, c) == g.owned + g.blocks[..k]
    && (forall b :: 0 <= b < |disk| && b !in Index(ino, disk, c + 1) ==> disk[b] == g.disk[b])
  }

  lemma PrefixOk(g: Growth, k: nat)
    requires Supplied(g) && k <= |g.blocks|
    ensures Distinct(g.owned + g.blocks[..k]) && forall b :: b in g.owned + g.blocks[..k] ==> b < |g.disk|
  {
    assert g.owned + g.blocks == (g.owned + g.blocks[..k]) + g.blocks[k..];
    PrefixBelow(g.owned + g.blocks[..k], g.blocks[k..], |g.disk|);
  }

  lemma NewIndirect2(ino: Inode, disk: Disk)
    requires |ino.direct| == DIRECT && Distinct(Owned(ino, disk, INDIRECT1_BOUND) + [ino.indirect2])
    ensures ino.indirect1 != ino.indirect2
  {
    var p := Pieces(ino, disk, INDIRECT1_BOUND);
    assert p[DIRECT][0] == ino.indirect1;
    InFlatten(p, DIRECT, 0);
    DistinctParts(Owned(ino, disk, INDIRECT1_BOUND), [ino.indirect2]);
    assert [ino.indirect2][0] == ino.indirect2;
  }

  lemma OldIndirect2(ino: Inode, disk: Disk, c: nat, a: nat)
    requires |ino.direct| == DIRECT && Distinct(Owned(ino, disk, c)) && FirstOf(a) < c
    ensures ino.indirect2 in Owned(ino, disk, c) && ino.indirect1 != ino.indirect2 && SubId(ino, disk, a) != ino.indirect2
  {
    var p := Pieces(ino, disk, c);
    assert p[DIRECT][0] == ino.indirect1 && p[INDIRECT1_BOUND][0] == ino.indirect2;
    assert p[INDIRECT1_BOUND][1] == SubId(ino, disk, 0);
    InFlatten(p, INDIRECT1_BOUND, 0);
    PiecesApart(p, DIRECT, INDIRECT1_BOUND);
    if a > 0 {
      HighLowAre(FirstOf(a) - INDIRECT1_BOUND, a, 0);
      assert p[FirstOf(a)][0] == SubId(ino, disk, a);
      PiecesApart(p, INDIRECT1_BOUND, FirstOf(a));
    }
  }

  /** The doubly indirect block is apart from the index blocks in use before low-level block `a`. */
  lemma Indirect2Apart(g: Growth, ino: Inode, disk: Disk, a: nat, k: nat)
    requires Supplied(g) && Growing(g, ino, disk, FirstOf(a), k, a == 0)
    ensures ino.indirect2 < |disk| && ino.indirect1 != ino.indirect2
    ensures forall a' :: 0 <= a' < a ==> SubId(ino, disk, a') != ino.indirect2
  {
    PrefixOk(g, k);
    if a == 0 {
      var s := g.owned + g.blocks[..k];
      assert s[|s| - 1] == ino.indirect2 && ino.indirect2 in s;
      NewIndirect2(ino, disk);
    } else {
      assert Owned(ino, disk, FirstOf(a)) == g.owned + g.blocks[..k];
      OldIndirect2(ino, disk, FirstOf(a), 0);
      forall a' | 0 <= a' < a ensures SubId(ino, disk, a') != ino.indirect2 { OldIndirect2(ino, disk, FirstOf(a), a'); }
    }
  }

  lemma SubFits(g: Growth, ino: Inode, disk: Disk, a: nat, k: nat)
    requires Supplied(g) && Growing(g, ino, disk, FirstOf(a), k, a == 0) && FirstOf(a) < g.target
    ensures k < |g.blocks| && ino.indirect2 < |disk| && g.blocks[k] < WORD_BOUND && a < PER_BLOCK
    ensures ino.indirect1 != ino.indirect2 && forall a' :: 0 <= a' < a ==> SubId(ino, disk, a') != ino.indirect2
    ensures g.owned + g.blocks[..k + 1] == g.owned + g.blocks[..k] + [g.blocks[k]]
  {
    SupplySuffices(g, ino, disk, FirstOf(a), k, a == 0);
    TakeNext(g, k);
    Indirect2Apart(g, ino, disk, a, k);
  }

  lemma OpenSub(g: Growth, ino: Inode, disk: Disk, a: nat, k: nat)
    requires Supplied(g) && Growing(g, ino, disk, FirstOf(a), k, a == 0) && FirstOf(a) < g.target
    ensures k < |g.blocks| && ino.indirect2 < |disk| && g.blocks[k] < WORD_BOUND && a < PER_BLOCK
    ensures Opened(g, ino, WithEntry(disk, ino.indirect2, a, g.blocks[k]), FirstOf(a), k + 1)
  {
    SubFits(g, ino, disk, a, k);
    SubSet(ino, disk, FirstOf(a), a, g.blocks[k]);
    OpenedIndex(g, ino, disk, FirstOf(a), a, k);
    OpenedOwned(ino, disk, WithEntry(disk, ino.indirect2, a, g.blocks[k]), a, g.blocks[k], g.owned + g.blocks[..k]);
  }

  /** The blocks owned and the index blocks for the next data block, with the new low-level one. */
  lemma OpenedOwned(ino: Inode, disk: Disk, disk': Disk, a: nat, x: nat, s: seq<nat>)
    requires |ino.direct| == DIRECT && Owned(ino, disk', FirstOf(a)) == Owned(ino, disk, FirstOf(a)) && SubId(ino, disk', a) == x
    requires Owned(ino, disk, FirstOf(a)) + (if a == 0 then [ino.indirect2] else []) == s
    ensures Owned(ino, disk', FirstOf(a)) + IndexIds(ino, disk', FirstOf(a)) == s + [x]
  {
    SubIndexIds(ino, disk', a);
  }

  /** The index blocks that the first data block below low-level indirect block `a` needs. */
  lemma SubIndexIds(ino: Inode, disk: Disk, a: nat)
    ensures IndexIds(ino, disk, FirstOf(a)) == (if a == 0 then [ino.indirect2] else []) + [SubId(ino, disk, a)]
  {
    HighLowAre(FirstOf(a) - INDIRECT1_BOUND, a, 0);
  }

  /** Entering a low-level indirect block changes the doubly indirect block only. */
  lemma OpenedIndex(g: Growth, ino: Inode, disk: Disk, c: nat, a: nat, k: nat)
    requires Growing(g, ino, disk, c, k, a == 0) && c == FirstOf(a) && a < PER_BLOCK && k < |g.blocks|
    requires ino.indirect2 < |disk| && g.blocks[k] < WORD_BOUND
    requires Kept(ino, disk, ino, WithEntry(disk, ino.indirect2, a, g.blocks[k]), c)
    ensures var disk' := WithEntry(disk, ino.indirect2, a, g.blocks[k]);
            forall b :: 0 <= b < |disk| && b !in Index(ino, disk', c + 1) ==> disk'[b] == g.disk[b]
  {
    var disk' := WithEntry(disk, ino.indirect2, a, g.blocks[k]);
    IndexKept(ino, disk, ino, disk', c);
    IndexNext(ino, disk', c);
    IndexHas(ino, disk', c + 1, INDIRECT1_BOUND, 0);
  }

  lemma SubsAreApart(g: Growth, ino: Inode, disk: Disk, c: nat, a: nat, k: nat)
    requires Supplied(g) && Opened(g, ino, disk, c, k) && FirstOf(a) <= c
    ensures SubId(ino, disk, a) != ino.indirect1 && SubId(ino, disk, a) != ino.indirect2
    ensures forall a' :: 0 <= a' < a ==> SubId(ino, disk, a') != SubId(ino, disk, a)
  {
    PrefixOk(g, k);
    SubApart(ino, disk, c, a);
    forall a' | 0 <= a' < a ensures SubId(ino, disk, a') != SubId(ino, disk, a) { SubsApart(ino, disk, c, a', a); }
  }

  lemma SubInOwned(ino: Inode, disk: Disk, c: nat, a: nat)
    requires |ino.direct| == DIRECT && FirstOf(a) <= c
    ensures SubId(ino, disk, a) in Owned(ino, disk, c) + IndexIds(ino, disk, c)
  {
    SubPiece(ino, disk, c, a);
    InFlatten(Reaching(ino, disk, c), FirstOf(a), if a == 0 then 1 else 0);
    ReachingIs(ino, disk, c);
  }

  lemma SubInIndex(ino: Inode, disk: Disk, c: nat, a: nat)
    requires FirstOf(a) <= c
    ensures SubId(ino, disk, a) in Index(ino, disk, c + 1)
  {
    HighLowAre(FirstOf(a) - INDIRECT1_BOUND, a, 0);
    IndexHas(ino, disk, c + 1, FirstOf(a), if a == 0 then 1 else 0);
  }

  lemma OpenedSuffices(g: Growth, ino: Inode, disk: Disk, c: nat, k: nat)
    requires Supplied(g) && Opened(g, ino, disk, c, k)
    ensures k < |g.blocks| && forall b :: b in Owned(ino, disk, c) + IndexIds(ino, disk, c) ==> b < |disk|
  {
    OwnedLength(ino, disk, c);
    TotalGrows(ino, disk, c, g.target);
    PrefixOk(g, k);
  }

  lemma FillSub(g: Growth, ino: Inode, disk: Disk, c: nat, a: nat, b: nat, k: nat)
    requires Supplied(g) && Opened(g, ino, disk, c, k) && c == FirstOf(a) + b && b < PER_BLOCK
    ensures k < |g.blocks| && SubId(ino, disk, a) < |disk| && g.blocks[k] < WORD_BOUND
    ensures Growing(g, ino, WithEntry(disk, SubId(ino, disk, a), b, g.blocks[k]), c + 1, k + 1, false)
  {
    OpenedSuffices(g, ino, disk, c, k);
    TakeNext(g, k);
    SubInOwned(ino, disk, c, a);
    SubInIndex(ino, disk, c, a);
    SubsAreApart(g, ino, disk, c, a, k);
    var disk' := WithEntry(disk, SubId(ino, disk, a), b, g.blocks[k]);
    SubStep(ino, disk, c, a, b, g.blocks[k]);
    IndexKept(ino, disk, ino, disk', c);
    IndexNext(ino, disk, c);
    IndexNext(ino, disk', c);
  }

  /** Within a low-level indirect block nothing need be opened. */
  lemma AlreadyOpen(g: Growth, ino: Inode, disk: Disk, c: nat, a: nat, b: nat, k: nat)
    requires Growing(g, ino, disk, c, k, false) && c == FirstOf(a) + b && 0 < b < PER_BLOCK && c < g.target
    ensures Opened(g, ino, disk, c, k)
  {
    HighLowAre(c - INDIRECT1_BOUND, a, b);
    IndexNext(ino, disk, c);
  }
}
