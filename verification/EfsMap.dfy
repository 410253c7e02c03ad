/** The block map of a disk inode: direct, indirect and doubly indirect block numbers, on plain values. */
module EfsMap {
  import opened Lists

  const BLOCK_SZ: nat := 512
  const DIRECT: nat := 28                     // INODE_DIRECT_COUNT
  const PER_BLOCK: nat := 128                 // INODE_INDIRECT1_COUNT
  const INDIRECT1_BOUND: nat := 156
  const MAX_BLOCKS: nat := 16540              // INDIRECT2_BOUND
  const WORD_BOUND: nat := 0x1_0000_0000      // block numbers are u32

  type Disk = seq<seq<nat>>

  datatype Inode = Inode(size: nat, direct: seq<nat>, indirect1: nat, indirect2: nat)

  ghost predicate DiskOk(disk: Disk) {
    forall b :: 0 <= b < |disk| ==> |disk[b]| == BLOCK_SZ
  }

  // ----- Blocks as arrays of little-endian words -----

  function Word(block: seq<nat>, i: nat): nat
    requires |block| == BLOCK_SZ && i < PER_BLOCK
  {
    block[4 * i] + 0x100 * (block[4 * i + 1] + 0x100 * (block[4 * i + 2] + 0x100 * block[4 * i + 3]))
  }

  function WithWord(block: seq<nat>, i: nat, v: nat): (r: seq<nat>)
    requires |block| == BLOCK_SZ && i < PER_BLOCK && v < WORD_BOUND
    ensures |r| == BLOCK_SZ
  {
    var v1 := v / 0x100;
    var v2 := v1 / 0x100;
    block[4 * i := v % 0x100][4 * i + 1 := v1 % 0x100][4 * i + 2 := v2 % 0x100][4 * i + 3 := v2 / 0x100]
  }

  lemma WordRoundTrip(block: seq<nat>, i: nat, v: nat, j: nat)
    requires |block| == BLOCK_SZ && i < PER_BLOCK && j < PER_BLOCK && v < WORD_BOUND
    ensures Word(WithWord(block, i, v), j) == if i == j then v else Word(block, j)
  {
    var v1 := v / 0x100;
    var v2 := v1 / 0x100;
    assert v == v % 0x100 + 0x100 * v1 && v1 == v1 % 0x100 + 0x100 * v2 && v2 == v2 % 0x100 + 0x100 * (v2 / 0x100);
  }

  /** Word `i` of block `b`; the code only asks for words of blocks that exist. */
  function Entry(disk: Disk, b: nat, i: nat): nat {
    if b < |disk| && |disk[b]| == BLOCK_SZ && i < PER_BLOCK then Word(disk[b], i) else 0
  }

  function WithEntry(disk: Disk, b: nat, i: nat, v: nat): (r: Disk)
    requires DiskOk(disk) && b < |disk| && i < PER_BLOCK && v < WORD_BOUND
    ensures |r| == |disk| && DiskOk(r)
  {
    disk[b := WithWord(disk[b], i, v)]
  }

  lemma WithEntryReads(disk: Disk, b: nat, i: nat, v: nat)
    requires DiskOk(disk) && b < |disk| && i < PER_BLOCK && v < WORD_BOUND
    ensures forall c: nat, j: nat :: Entry(WithEntry(disk, b, i, v), c, j) == if b == c && i == j then v else Entry(disk, c, j)
  {
    forall c: nat, j: nat ensures Entry(WithEntry(disk, b, i, v), c, j) == if b == c && i == j then v else Entry(disk, c, j) {
      if b == c && j < PER_BLOCK { WordRoundTrip(disk[b], i, v, j); }
    }
  }

  // ----- Positions below the doubly indirect block -----

  /** Quotient by `PER_BLOCK`. */
  function High(d: nat): nat {
    if d < PER_BLOCK then 0 else High(d - PER_BLOCK) + 1
  }

  /** Remainder by `PER_BLOCK`. */
  function Low(d: nat): nat {
    if d < PER_BLOCK then d else Low(d - PER_BLOCK)
  }

  lemma {:induction false} HighLow(d: nat)
    ensures d == 128 * High(d) + Low(d) && Low(d) < PER_BLOCK
  {
    if d >= PER_BLOCK { HighLow(d - PER_BLOCK); }
  }

  lemma HighLowAre(d: nat, a: nat, b: nat)
    requires d == 128 * a + b && b < PER_BLOCK
    ensures High(d) == a && Low(d) == b
  {
    HighLow(d);
  }

  lemma HighLowDivMod(d: nat)
    ensures High(d) == d / 128 && Low(d) == d % 128
  {
    HighLowAre(d, d / 128, d % 128);
  }

  // ----- The map -----

  /** The low-level indirect block `a` of the doubly indirect part. */
  function SubId(ino: Inode, disk: Disk, a: nat): nat {
    Entry(disk, ino.indirect2, a)
  }

  /** `get_block_id` */
  function DataId(ino: Inode, disk: Disk, i: nat): nat
    requires |ino.direct| == DIRECT
  {
    if i < DIRECT then ino.direct[i]
    else if i < INDIRECT1_BOUND then Entry(disk, ino.indirect1, i - DIRECT)
    else Entry(disk, SubId(ino, disk, High(i - INDIRECT1_BOUND)), Low(i - INDIRECT1_BOUND))
  }

  /** The index blocks that data block `i` is the first to need. */
  function IndexIds(ino: Inode, disk: Disk, i: nat): seq<nat> {
    if i == DIRECT then [ino.indirect1]
    else if i == INDIRECT1_BOUND then [ino.indirect2, SubId(ino, disk, 0)]
    else if i > INDIRECT1_BOUND && Low(i - INDIRECT1_BOUND) == 0 then [SubId(ino, disk, High(i - INDIRECT1_BOUND))]
    else []
  }

  function Fresh(ino: Inode, disk: Disk, i: nat): seq<nat>
    requires |ino.direct| == DIRECT
  {
    IndexIds(ino, disk, i) + [DataId(ino, disk, i)]
  }

  function Pieces(ino: Inode, disk: Disk, n: nat): seq<seq<nat>>
    requires |ino.direct| == DIRECT
  {
    seq(n, i requires 0 <= i < n => Fresh(ino, disk, i))
  }

  /** All blocks of an inode with `n` data blocks, in the order they were added. */
  function Owned(ino: Inode, disk: Disk, n: nat): seq<nat>
    requires |ino.direct| == DIRECT
  {
    Flatten(Pieces(ino, disk, n))
  }

  lemma OwnedNext(ino: Inode, disk: Disk, n: nat)
    requires |ino.direct| == DIRECT
    ensures Owned(ino, disk, n + 1) == Owned(ino, disk, n) + Fresh(ino, disk, n)
  {
    assert Pieces(ino, disk, n + 1)[..n] == Pieces(ino, disk, n);
  }

  lemma OwnedSame(ino: Inode, disk: Disk, ino': Inode, disk': Disk, n: nat)
    requires |ino.direct| == DIRECT && |ino'.direct| == DIRECT
    requires forall i :: 0 <= i < n ==> Fresh(ino', disk', i) == Fresh(ino, disk, i)
    ensures Owned(ino', disk', n) == Owned(ino, disk, n)
  {
    assert Pieces(ino', disk', n) == Pieces(ino, disk, n);
  }

  // ----- Sizes -----

  function DataBlocks(size: nat): nat {
    (size + BLOCK_SZ - 1) / 512
  }

  /** `total_blocks` */
  function TotalBlocks(size: nat): nat {
    var n := DataBlocks(size);
    n
    + (if n > DIRECT then 1 else 0)
    + (if n > INDIRECT1_BOUND then 1 + (n - INDIRECT1_BOUND + PER_BLOCK - 1) / 128 else 0)
  }

  /** How many index blocks data block `i` is the first to need. */
  function NewIndexes(i: nat): nat {
    if i == DIRECT then 1
    else if i == INDIRECT1_BOUND then 2
    else if i > INDIRECT1_BOUND && Low(i - INDIRECT1_BOUND) == 0 then 1
    else 0
  }

  /** Blocks of an inode with `n` data blocks. */
  function Total(n: nat): nat {
    if n == 0 then 0 else Total(n - 1) + NewIndexes(n - 1) + 1
  }

  lemma FreshLength(ino: Inode, disk: Disk, i: nat)
    requires |ino.direct| == DIRECT
    ensures |Fresh(ino, disk, i)| == NewIndexes(i) + 1
  {
  }

  lemma {:induction false} OwnedLength(ino: Inode, disk: Disk, n: nat)
    requires |ino.direct| == DIRECT
    ensures |Owned(ino, disk, n)| == Total(n)
  {
    if n > 0 {
      OwnedLength(ino, disk, n - 1);
      OwnedNext(ino, disk, n - 1);
      FreshLength(ino, disk, n - 1);
    }
  }

  lemma OwnedSplit(ino: Inode, disk: Disk, m: nat, n: nat)
    requires |ino.direct| == DIRECT && m <= n
    ensures Owned(ino, disk, n) == Owned(ino, disk, m) + Flatten(Pieces(ino, disk, n)[m..])
  {
    FlattenSplit(Pieces(ino, disk, n), m);
    assert Pieces(ino, disk, n)[..m] == Pieces(ino, disk, m);
  }

  lemma {:induction false} TotalMonotone(m: nat, n: nat)
    requires m <= n
    ensures Total(m) <= Total(n)
  {
    if m < n { TotalMonotone(m, n - 1); }
  }

  /** Where data block `i` stands among all blocks, in the order they were added: behind the data blocks
      before it and the index blocks that these and it need. */
  function Place(i: nat): nat {
    Total(i) + NewIndexes(i)
  }

  lemma PlaceIs(i: nat)
    ensures Place(i) == i + (if i >= DIRECT then 1 else 0)
                        + (if i >= INDIRECT1_BOUND then 2 + (i - INDIRECT1_BOUND) / 128 else 0)
  {
    assert Total(i + 1) == Place(i) + 1;
    TotalFormula(i + 1);
    if i >= INDIRECT1_BOUND {
      var d := i - INDIRECT1_BOUND;
      HighLow(d);
      HighLowAre(d + PER_BLOCK, High(d) + 1, Low(d));
      HighLowDivMod(d);
    }
  }

  /** The map is flat: position `i` is element `Place(i)` of the list of all blocks. */
  lemma DataIdAt(ino: Inode, disk: Disk, n: nat, i: nat)
    requires |ino.direct| == DIRECT && i < n
    ensures Place(i) < |Owned(ino, disk, n)| && DataId(ino, disk, i) == Owned(ino, disk, n)[Place(i)]
  {
    OwnedSplit(ino, disk, i + 1, n);
    OwnedNext(ino, disk, i);
    OwnedLength(ino, disk, i);
    FreshLength(ino, disk, i);
    var f := Fresh(ino, disk, i);
    assert Owned(ino, disk, i + 1)[Total(i) + NewIndexes(i)] == f[NewIndexes(i)] == DataId(ino, disk, i);
  }

  /** The formula of `total_blocks` counts data and index blocks. */
  lemma TotalBlocksCounts(size: nat)
    ensures TotalBlocks(size) == Total(DataBlocks(size))
  {
    var n := DataBlocks(size);
    TotalFormula(n);
    if n > INDIRECT1_BOUND { HighLowDivMod(n - INDIRECT1_BOUND + PER_BLOCK - 1); }
  }

  lemma {:induction false} TotalFormula(n: nat)
    ensures Total(n) == n + (if n > DIRECT then 1 else 0)
                        + (if n > INDIRECT1_BOUND then 1 + High(n - INDIRECT1_BOUND + PER_BLOCK - 1) else 0)
  {
    if n > 0 {
      TotalFormula(n - 1);
      if n > INDIRECT1_BOUND + 1 {
        var d := n - 1 - INDIRECT1_BOUND;
        HighLow(d);
        HighLowAre(d + PER_BLOCK, High(d) + 1, Low(d));
        if Low(d) == 0 {
          HighLowAre(d + PER_BLOCK - 1, High(d), PER_BLOCK - 1);
        } else {
          HighLowAre(d + PER_BLOCK - 1, High(d) + 1, Low(d) - 1);
        }
      }
    }
  }
}
