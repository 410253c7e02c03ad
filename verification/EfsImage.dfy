/** What an easy-fs volume looks like on the device: super block, bitmaps and inodes as bytes. */
module EfsImage {
  import opened Basics
  import opened Lists
  import opened EfsMap
  import opened EfsLayout
  import opened EfsBitmap
  import opened EfsInode

  const MAGIC: nat := 0x3b80_0001 // EFS_MAGIC

  // ----- Blocks made of words -----

  /** Byte `k` of a little-endian word. */
  function ByteOf(w: nat, k: nat): nat {
    if k == 0 then w % 0x100
    else if k == 1 then w / 0x100 % 0x100
    else if k == 2 then w / 0x100 / 0x100 % 0x100
    else w / 0x100 / 0x100 / 0x100
  }

  /** A block of 128 words. */
  function BlockOf(words: seq<nat>): (r: seq<nat>)
    requires |words| == PER_BLOCK
    ensures |r| == BLOCK_SZ
  {
    seq(BLOCK_SZ, k requires 0 <= k < BLOCK_SZ => ByteOf(words[k / 4], k % 4))
  }

  lemma WordOf(words: seq<nat>, i: nat)
    requires |words| == PER_BLOCK && i < PER_BLOCK && words[i] < WORD_BOUND
    ensures Word(BlockOf(words), i) == words[i]
  {
    var (b, w) := (BlockOf(words), words[i]);
    assert b[4 * i] == ByteOf(w, 0) && b[4 * i + 1] == ByteOf(w, 1) && b[4 * i + 2] == ByteOf(w, 2) && b[4 * i + 3] == ByteOf(w, 3);
    WordSplits(w);
  }

  lemma WordSplits(w: nat)
    requires w < WORD_BOUND
    ensures w == ByteOf(w, 0) + 0x100 * (ByteOf(w, 1) + 0x100 * (ByteOf(w, 2) + 0x100 * ByteOf(w, 3)))
  {
    var v1 := w / 0x100;
    var v2 := v1 / 0x100;
    assert w == w % 0x100 + 0x100 * v1 && v1 == v1 % 0x100 + 0x100 * v2 && v2 == v2 % 0x100 + 0x100 * (v2 / 0x100);
  }

  /** The number `v`, in the four bytes from `at` on, the lowest first. */
  predicate LittleEndian(bytes: seq<nat>, at: nat, v: nat) {
    && at + 4 <= |bytes| && (forall k :: at <= k < at + 4 ==> bytes[k] < 0x100)
    && v == bytes[at] + 0x100 * bytes[at + 1] + 0x1_0000 * bytes[at + 2] + 0x100_0000 * bytes[at + 3]
  }

  lemma WordBytes(bytes: seq<nat>, at: nat, w: nat)
    requires at + 4 <= |bytes| && w < WORD_BOUND && forall k :: 0 <= k < 4 ==> bytes[at + k] == ByteOf(w, k)
    ensures LittleEndian(bytes, at, w)
  {
    WordSplits(w);
    assert bytes[at + 0] == ByteOf(w, 0) && bytes[at + 1] == ByteOf(w, 1);
    assert bytes[at + 2] == ByteOf(w, 2) && bytes[at + 3] == ByteOf(w, 3);
  }

  lemma BlockBytes(words: seq<nat>, i: nat)
    requires |words| == PER_BLOCK && i < PER_BLOCK && words[i] < WORD_BOUND
    ensures LittleEndian(BlockOf(words), 4 * i, words[i])
  {
    forall k | 0 <= k < 4 ensures BlockOf(words)[4 * i + k] == ByteOf(words[i], k) {
      assert (4 * i + k) / 4 == i && (4 * i + k) % 4 == k;
    }
    WordBytes(BlockOf(words), 4 * i, words[i]);
  }

  // ----- The super block -----

  function SuperWord(l: Layout, total: nat, i: nat): nat {
    if i == 0 then MAGIC
    else if i == 1 then total
    else if i == 2 then l.inodeBitmap
    else if i == 3 then l.inodeArea
    else if i == 4 then l.dataBitmap
    else if i == 5 then l.dataArea
    else 0
  }

  function SuperWords(l: Layout, total: nat): (r: seq<nat>)
    ensures |r| == PER_BLOCK && forall i :: 0 <= i < PER_BLOCK ==> r[i] == SuperWord(l, total, i)
  {
    seq(PER_BLOCK, i requires 0 <= i => SuperWord(l, total, i))
  }

  function SuperBlock(l: Layout, total: nat): (r: seq<nat>)
    ensures |r| == BLOCK_SZ
  {
    BlockOf(SuperWords(l, total))
  }

  /** `SuperBlock::is_valid` and the areas it names. */
  function ReadSuper(block: seq<nat>): Option<Layout>
    requires |block| == BLOCK_SZ
  {
    if Word(block, 0) != MAGIC then None
    else Some(Layout(Word(block, 2), Word(block, 3), Word(block, 4), Word(block, 5)))
  }

  ghost predicate LayoutOk(l: Layout, total: nat) {
    l.DataStart() + l.dataArea == total <= WORD_BOUND && 0 < total
  }

  lemma SuperRoundTrip(l: Layout, total: nat)
    requires LayoutOk(l, total)
    ensures ReadSuper(SuperBlock(l, total)) == Some(l)
  {
    forall i | 0 <= i < 6 && i != 1 ensures Word(SuperBlock(l, total), i) == SuperWord(l, total, i) {
      WordOf(SuperWords(l, total), i);
    }
  }

  /** Where each field of the super block is on the device; the rest of the block is zero. */
  lemma SuperBytes(l: Layout, total: nat)
    requires LayoutOk(l, total) && total < WORD_BOUND
    ensures var b := SuperBlock(l, total);
            && LittleEndian(b, 0, 0x3b80_0001) && LittleEndian(b, 4, total)
            && LittleEndian(b, 8, l.inodeBitmap) && LittleEndian(b, 12, l.inodeArea)
            && LittleEndian(b, 16, l.dataBitmap) && LittleEndian(b, 20, l.dataArea)
            && forall k :: 24 <= k < BLOCK_SZ ==> b[k] == 0
  {
    var words := SuperWords(l, total);
    BlockBytes(words, 0);
    BlockBytes(words, 1);
    BlockBytes(words, 2);
    BlockBytes(words, 3);
    BlockBytes(words, 4);
    BlockBytes(words, 5);
  }

  // ----- Bitmaps -----

  function BitmapWord(words: seq<nat>, i: nat): nat
    requires |words| == 64 && i < PER_BLOCK
  {
    if i % 2 == 0 then words[i / 2] % WORD_BOUND else words[i / 2] / WORD_BOUND
  }

  function BitmapWords(words: seq<nat>): (r: seq<nat>)
    requires |words| == 64
    ensures |r| == PER_BLOCK
  {
    seq(PER_BLOCK, i requires 0 <= i < PER_BLOCK => BitmapWord(words, i))
  }

  function BitmapBlock(words: seq<nat>): (r: seq<nat>)
    requires |words| == 64
    ensures |r| == BLOCK_SZ
  {
    BlockOf(BitmapWords(words))
  }

  function ReadBitmap(block: seq<nat>): (r: seq<nat>)
    requires |block| == BLOCK_SZ
    ensures |r| == 64
  {
    seq(64, w requires 0 <= w < 64 => Word(block, 2 * w) + WORD_BOUND * Word(block, 2 * w + 1))
  }

  lemma BitmapWordRead(words: seq<nat>, w: nat)
    requires |words| == 64 && w < 64 && words[w] <= FULL
    ensures ReadBitmap(BitmapBlock(words))[w] == words[w]
  {
    var halves := BitmapWords(words);
    assert 2 * w / 2 == w && (2 * w + 1) / 2 == w;
    assert halves[2 * w] == words[w] % WORD_BOUND && halves[2 * w + 1] == words[w] / WORD_BOUND;
    WordOf(halves, 2 * w);
    WordOf(halves, 2 * w + 1);
  }

  lemma BitmapRoundTrip(words: seq<nat>)
    requires |words| == 64 && forall w :: 0 <= w < 64 ==> words[w] <= FULL
    ensures ReadBitmap(BitmapBlock(words)) == words
  {
    forall w | 0 <= w < 64 ensures ReadBitmap(BitmapBlock(words))[w] == words[w] { BitmapWordRead(words, w); }
  }

  /** Each 64-bit word of a bitmap, in eight bytes, the lowest first. */
  lemma BitmapBytes(words: seq<nat>, w: nat)
    requires |words| == 64 && w < 64 && words[w] <= FULL
    ensures LittleEndian(BitmapBlock(words), 8 * w, words[w] % WORD_BOUND)
    ensures LittleEndian(BitmapBlock(words), 8 * w + 4, words[w] / WORD_BOUND)
  {
    var halves := BitmapWords(words);
    assert 2 * w / 2 == w && (2 * w + 1) / 2 == w;
    BlockBytes(halves, 2 * w);
    BlockBytes(halves, 2 * w + 1);
  }

  // ----- Inodes -----

  function InodeWord(ino: Inode, i: nat): nat
    requires |ino.direct| == DIRECT
  {
    if i == 0 then ino.size
    else if i <= DIRECT then ino.direct[i - 1]
    else if i == 29 then ino.indirect1
    else if i == 30 then ino.indirect2
    else 0
  }

  /** The 128 bytes of an inode; its type, in the last word, is not part of the model. */
  function InodeBytes(ino: Inode): (r: seq<nat>)
    requires |ino.direct| == DIRECT
    ensures |r| == INODE_SIZE
  {
    seq(INODE_SIZE, k requires 0 <= k < INODE_SIZE => ByteOf(InodeWord(ino, k / 4), k % 4))
  }

  function EmptyInode(): (r: Inode)
    ensures |r.direct| == DIRECT && r.size == 0
  {
    Inode(0, seq(DIRECT, i => 0), 0, 0)
  }

  /** Inode `i`, or that of an unused slot. */
  function SlotOf(inodes: seq<Inode>, i: nat): (r: Inode)
    requires forall k :: 0 <= k < |inodes| ==> |inodes[k].direct| == DIRECT
    ensures |r.direct| == DIRECT
  {
    if i < |inodes| then inodes[i] else EmptyInode()
  }

  /** Block `b` of the inode area. */
  function InodeBlock(inodes: seq<Inode>, b: nat): (r: seq<nat>)
    requires forall k :: 0 <= k < |inodes| ==> |inodes[k].direct| == DIRECT
    ensures |r| == BLOCK_SZ
  {
    seq(BLOCK_SZ, k requires 0 <= k < BLOCK_SZ => InodeBytes(SlotOf(inodes, 4 * b + k / 128))[k % 128])
  }

  /** Word `i` of slot `s` of a block. */
  function SlotWord(block: seq<nat>, s: nat, i: nat): nat
    requires |block| == BLOCK_SZ && s < 4 && i < 32
  {
    Word(block, 32 * s + i)
  }

  function SlotDirect(block: seq<nat>, s: nat): (r: seq<nat>)
    requires |block| == BLOCK_SZ && s < 4
    ensures |r| == DIRECT && forall d :: 0 <= d < DIRECT ==> r[d] == SlotWord(block, s, d + 1)
  {
    seq(DIRECT, d requires 0 <= d < DIRECT => SlotWord(block, s, d + 1))
  }

  /** The inode in slot `s` of a block. */
  function ReadInode(block: seq<nat>, s: nat): Inode
    requires |block| == BLOCK_SZ && s < 4
  {
    Inode(SlotWord(block, s, 0), SlotDirect(block, s), SlotWord(block, s, 29), SlotWord(block, s, 30))
  }

  lemma SlotByte(inodes: seq<Inode>, b: nat, s: nat, j: nat)
    requires (forall k :: 0 <= k < |inodes| ==> |inodes[k].direct| == DIRECT) && s < 4 && j < INODE_SIZE
    ensures InodeBlock(inodes, b)[128 * s + j] == InodeBytes(SlotOf(inodes, 4 * b + s))[j]
  {
    assert (128 * s + j) / 128 == s && (128 * s + j) % 128 == j;
  }

  lemma SlotWordRead(inodes: seq<Inode>, b: nat, s: nat, i: nat)
    requires (forall k :: 0 <= k < |inodes| ==> |inodes[k].direct| == DIRECT) && s < 4 && i < 32
    requires InodeWord(SlotOf(inodes, 4 * b + s), i) < WORD_BOUND
    ensures SlotWord(InodeBlock(inodes, b), s, i) == InodeWord(SlotOf(inodes, 4 * b + s), i)
  {
    var w := InodeWord(SlotOf(inodes, 4 * b + s), i);
    forall k | 0 <= k < 4 ensures InodeBlock(inodes, b)[4 * (32 * s + i) + k] == ByteOf(w, k) {
      assert (4 * i + k) / 4 == i && (4 * i + k) % 4 == k;
      SlotByte(inodes, b, s, 4 * i + k);
      assert 4 * (32 * s + i) + k == 128 * s + (4 * i + k);
    }
    WordSplits(w);
  }

  lemma InodeRoundTrip(inodes: seq<Inode>, b: nat, s: nat)
    requires (forall k :: 0 <= k < |inodes| ==> |inodes[k].direct| == DIRECT) && s < 4
    requires var ino := SlotOf(inodes, 4 * b + s); Words(ino) && ino.size < WORD_BOUND
    ensures ReadInode(InodeBlock(inodes, b), s) == SlotOf(inodes, 4 * b + s)
  {
    var (block, ino) := (InodeBlock(inodes, b), SlotOf(inodes, 4 * b + s));
    forall i | 0 <= i < 31 ensures SlotWord(block, s, i) == InodeWord(ino, i) { SlotWordRead(inodes, b, s, i); }
    assert SlotDirect(block, s) == ino.direct;
  }

  lemma SlotBytes(inodes: seq<Inode>, b: nat, s: nat, i: nat, at: nat, v: nat)
    requires (forall k :: 0 <= k < |inodes| ==> |inodes[k].direct| == DIRECT) && s < 4 && i < 32
    requires v == InodeWord(SlotOf(inodes, 4 * b + s), i) < WORD_BOUND && at == 128 * s + 4 * i
    ensures LittleEndian(InodeBlock(inodes, b), at, v)
  {
    forall k | 0 <= k < 4 ensures InodeBlock(inodes, b)[at + k] == ByteOf(v, k) {
      assert (4 * i + k) / 4 == i && (4 * i + k) % 4 == k;
      SlotByte(inodes, b, s, 4 * i + k);
    }
    WordBytes(InodeBlock(inodes, b), at, v);
  }

  /** Where each field of the inode in slot `s` is in its block. */
  lemma InodeFields(inodes: seq<Inode>, b: nat, s: nat)
    requires (forall k :: 0 <= k < |inodes| ==> |inodes[k].direct| == DIRECT) && s < 4
    requires var ino := SlotOf(inodes, 4 * b + s); Words(ino) && ino.size < WORD_BOUND
    ensures var (block, ino) := (InodeBlock(inodes, b), SlotOf(inodes, 4 * b + s));
            && LittleEndian(block, 128 * s, ino.size)
            && (forall d :: 0 <= d < 28 ==> LittleEndian(block, 128 * s + 4 + 4 * d, ino.direct[d]))
            && LittleEndian(block, 128 * s + 116, ino.indirect1) && LittleEndian(block, 128 * s + 120, ino.indirect2)
  {
    var (block, ino) := (InodeBlock(inodes, b), SlotOf(inodes, 4 * b + s));
    SlotBytes(inodes, b, s, 0, 128 * s, ino.size);
    forall d | 0 <= d < 28 ensures LittleEndian(block, 128 * s + 4 + 4 * d, ino.direct[d]) {
      SlotBytes(inodes, b, s, d + 1, 128 * s + 4 + 4 * d, ino.direct[d]);
    }
    SlotBytes(inodes, b, s, 29, 128 * s + 116, ino.indirect1);
    SlotBytes(inodes, b, s, 30, 128 * s + 120, ino.indirect2);
  }

  /** Changing one inode, that of slot `t` in block `q`, writes the 128 bytes of its slot and nothing else. */
  lemma InodeWriteThrough(inodes: seq<Inode>, i: nat, ino: Inode, b: nat, q: nat, t: nat)
    requires (forall k :: 0 <= k < |inodes| ==> |inodes[k].direct| == DIRECT) && i < |inodes| && |ino.direct| == DIRECT
    requires i == 4 * q + t && t < 4
    ensures InodeBlock(inodes[i := ino], b) ==
            if b == q then Splice(InodeBlock(inodes, b), 128 * t, InodeBytes(ino)) else InodeBlock(inodes, b)
  {
    var (before, after) := (InodeBlock(inodes, b), InodeBlock(inodes[i := ino], b));
    forall k | 0 <= k < BLOCK_SZ
      ensures after[k] == if b == q then Splice(before, 128 * t, InodeBytes(ino))[k] else before[k]
    {
      var (s, j) := (k / 128, k % 128);
      assert k == 128 * s + j;
      SlotByte(inodes, b, s, j);
      SlotByte(inodes[i := ino], b, s, j);
    }
  }

  // ----- The whole device -----

  /** The parts of a volume fit its layout. */
  ghost predicate Fits(l: Layout, inodes: seq<Inode>, ids: seq<seq<nat>>, data: seq<seq<nat>>, disk: Disk) {
    && LayoutOk(l, |disk|) && DiskOk(disk) && BitmapOk(ids) && BitmapOk(data)
    && |ids| == l.inodeBitmap && |data| == l.dataBitmap && |inodes| <= 4 * l.inodeArea
    && forall i :: 0 <= i < |inodes| ==> |inodes[i].direct| == DIRECT && Words(inodes[i]) && inodes[i].size < WORD_BOUND
  }

  /** The device: the blocks of the data area behind super block, bitmaps and inodes. */
  ghost function Image(l: Layout, inodes: seq<Inode>, ids: seq<seq<nat>>, data: seq<seq<nat>>, disk: Disk): (r: Disk)
    requires Fits(l, inodes, ids, data, disk)
    ensures |r| == |disk| && DiskOk(r)
  {
    seq(|disk|, b requires 0 <= b < |disk| => BlockOn(l, inodes, ids, data, disk, b))
  }

  ghost function BlockOn(l: Layout, inodes: seq<Inode>, ids: seq<seq<nat>>, data: seq<seq<nat>>, disk: Disk, b: nat): (r: seq<nat>)
    requires Fits(l, inodes, ids, data, disk) && b < |disk|
    ensures |r| == BLOCK_SZ
  {
    if b == 0 then SuperBlock(l, |disk|)
    else if b < l.InodeStart() then BitmapBlock(ids[b - 1])
    else if b < l.DataBitmapStart() then InodeBlock(inodes, b - l.InodeStart())
    else if b < l.DataStart() then BitmapBlock(data[b - l.DataBitmapStart()])
    else disk[b]
  }

  /** A bitmap of `n` blocks from block `start` on. */
  function BitmapAt(device: Disk, start: nat, n: nat): (r: seq<seq<nat>>)
    requires (forall b :: 0 <= b < |device| ==> |device[b]| == BLOCK_SZ) && start + n <= |device|
    ensures |r| == n && forall b :: 0 <= b < n ==> r[b] == ReadBitmap(device[start + b])
  {
    seq(n, b requires 0 <= b < n => ReadBitmap(device[start + b]))
  }

  /** Inode `i`, at the place `get_disk_inode_pos` says. */
  function InodeAt(device: Disk, l: Layout, i: nat): Inode
    requires (forall b :: 0 <= b < |device| ==> |device[b]| == BLOCK_SZ) && l.InodeStart() + i / 4 < |device|
  {
    ReadInode(device[InodePos(l, i).0], i % 4)
  }

  lemma IdsRead(l: Layout, inodes: seq<Inode>, ids: seq<seq<nat>>, data: seq<seq<nat>>, disk: Disk, b: nat)
    requires Fits(l, inodes, ids, data, disk) && b < |ids|
    ensures ReadBitmap(Image(l, inodes, ids, data, disk)[1 + b]) == ids[b]
  {
    assert Image(l, inodes, ids, data, disk)[1 + b] == BitmapBlock(ids[b]);
    BitmapRoundTrip(ids[b]);
  }

  lemma DataRead(l: Layout, inodes: seq<Inode>, ids: seq<seq<nat>>, data: seq<seq<nat>>, disk: Disk, b: nat)
    requires Fits(l, inodes, ids, data, disk) && b < |data|
    ensures ReadBitmap(Image(l, inodes, ids, data, disk)[l.DataBitmapStart() + b]) == data[b]
  {
    assert Image(l, inodes, ids, data, disk)[l.DataBitmapStart() + b] == BitmapBlock(data[b]);
    BitmapRoundTrip(data[b]);
  }

  lemma BitmapsRead(l: Layout, inodes: seq<Inode>, ids: seq<seq<nat>>, data: seq<seq<nat>>, disk: Disk, device: Disk)
    requires Fits(l, inodes, ids, data, disk) && device == Image(l, inodes, ids, data, disk)
    ensures BitmapAt(device, 1, |ids|) == ids && BitmapAt(device, l.DataBitmapStart(), |data|) == data
  {
    forall b | 0 <= b < |ids| ensures ReadBitmap(device[1 + b]) == ids[b] { IdsRead(l, inodes, ids, data, disk, b); }
    forall b | 0 <= b < |data| ensures ReadBitmap(device[l.DataBitmapStart() + b]) == data[b] {
      DataRead(l, inodes, ids, data, disk, b);
    }
  }

  /** All that makes up the volume can be read back from the device (see also `ImageInode`). */
  lemma ImageReads(l: Layout, inodes: seq<Inode>, ids: seq<seq<nat>>, data: seq<seq<nat>>, disk: Disk, device: Disk)
    requires Fits(l, inodes, ids, data, disk) && device == Image(l, inodes, ids, data, disk)
    ensures ReadSuper(device[0]) == Some(l)
    ensures BitmapAt(device, 1, l.inodeBitmap) == ids && BitmapAt(device, l.DataBitmapStart(), l.dataBitmap) == data
    ensures forall b :: l.DataStart() <= b < |disk| ==> device[b] == disk[b]
  {
    assert device[0] == SuperBlock(l, |disk|);
    SuperRoundTrip(l, |disk|);
    BitmapsRead(l, inodes, ids, data, disk, device);
  }

  /** Block `b` of the inode area, on the device. */
  lemma InodeBlockAt(l: Layout, inodes: seq<Inode>, ids: seq<seq<nat>>, data: seq<seq<nat>>, disk: Disk, b: nat)
    requires Fits(l, inodes, ids, data, disk) && b < l.inodeArea
    ensures l.InodeStart() + b < |disk|
    ensures Image(l, inodes, ids, data, disk)[l.InodeStart() + b] == InodeBlock(inodes, b)
  {
  }

  lemma SlotInside(l: Layout, i: nat)
    requires i < 4 * l.inodeArea
    ensures i / 4 < l.inodeArea && i == 4 * (i / 4) + i % 4
  {
  }

  lemma ImageInode(l: Layout, inodes: seq<Inode>, ids: seq<seq<nat>>, data: seq<seq<nat>>, disk: Disk, i: nat)
    requires Fits(l, inodes, ids, data, disk) && i < |inodes|
    ensures l.InodeStart() + i / 4 < |disk| && InodeAt(Image(l, inodes, ids, data, disk), l, i) == inodes[i]
  {
    SlotInside(l, i);
    var (b, s) := (i / 4, i % 4);
    assert SlotOf(inodes, 4 * b + s) == inodes[i] && Words(inodes[i]) && inodes[i].size < WORD_BOUND;
    InodeRoundTrip(inodes, b, s);
    InodeBlockAt(l, inodes, ids, data, disk, b);
    assert Image(l, inodes, ids, data, disk)[InodePos(l, i).0] == InodeBlock(inodes, b);
  }

  /** Setting an inode writes its slot, and nothing else on the device. */
  lemma ImageWriteThrough(l: Layout, inodes: seq<Inode>, ids: seq<seq<nat>>, data: seq<seq<nat>>, disk: Disk, i: nat, ino: Inode)
    requires Fits(l, inodes, ids, data, disk) && i < |inodes| && |ino.direct| == DIRECT && Fits(l, inodes[i := ino], ids, data, disk)
    ensures var (device, (b, o)) := (Image(l, inodes, ids, data, disk), InodePos(l, i));
            && b < |disk| && o + INODE_SIZE <= BLOCK_SZ
            && Image(l, inodes[i := ino], ids, data, disk) == device[b := Splice(device[b], o, InodeBytes(ino))]
  {
    var (device, device') := (Image(l, inodes, ids, data, disk), Image(l, inodes[i := ino], ids, data, disk));
    SlotInside(l, i);
    InodeBlockAt(l, inodes, ids, data, disk, i / 4);
    var (b, o) := InodePos(l, i);
    assert o == 128 * (i % 4);
    forall x | 0 <= x < |disk| ensures device'[x] == if x == b then Splice(device[b], o, InodeBytes(ino)) else device[x] {
      BlockWriteThrough(l, inodes, ids, data, disk, i, ino, x, i / 4, i % 4);
    }
  }

  lemma BlockWriteThrough(l: Layout, inodes: seq<Inode>, ids: seq<seq<nat>>, data: seq<seq<nat>>, disk: Disk, i: nat, ino: Inode,
                          x: nat, q: nat, t: nat)
    requires Fits(l, inodes, ids, data, disk) && i < |inodes| && |ino.direct| == DIRECT && Fits(l, inodes[i := ino], ids, data, disk)
    requires i == 4 * q + t && t < 4 && q < l.inodeArea && x < |disk|
    ensures var before := BlockOn(l, inodes, ids, data, disk, x);
            BlockOn(l, inodes[i := ino], ids, data, disk, x) ==
            if x == l.InodeStart() + q then Splice(before, 128 * t, InodeBytes(ino)) else before
  {
    if l.InodeStart() <= x < l.DataBitmapStart() {
      var b := x - l.InodeStart();
      assert BlockOn(l, inodes, ids, data, disk, x) == InodeBlock(inodes, b);
      assert BlockOn(l, inodes[i := ino], ids, data, disk, x) == InodeBlock(inodes[i := ino], b);
      InodeWriteThrough(inodes, i, ino, b, q, t);
    } else {
      OtherBlock(l, inodes, inodes[i := ino], ids, data, disk, x);
    }
  }

  /** Blocks outside the inode area do not depend on the inodes. */
  lemma OtherBlock(l: Layout, inodes: seq<Inode>, inodes': seq<Inode>, ids: seq<seq<nat>>, data: seq<seq<nat>>, disk: Disk, x: nat)
    requires Fits(l, inodes, ids, data, disk) && Fits(l, inodes', ids, data, disk) && x < |disk|
    requires !(l.InodeStart() <= x < l.DataBitmapStart())
    ensures BlockOn(l, inodes', ids, data, disk, x) == BlockOn(l, inodes, ids, data, disk, x)
  {
  }
}
