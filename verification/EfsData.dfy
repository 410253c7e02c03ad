/** File contents: reading and writing through the block map refine a flat byte sequence. */
module EfsData {
  import opened Basics
  import opened Lists
  import opened EfsMap
  import opened EfsGrow
  import opened EfsInode
  import opened EfsFlat

  /** `n` data blocks whose blocks exist and do not repeat. */
  ghost predicate Mapped(ino: Inode, disk: Disk, n: nat) {
    && |ino.direct| == DIRECT && DiskOk(disk) && n <= MAX_BLOCKS
    && Distinct(Owned(ino, disk, n)) && forall b :: b in Owned(ino, disk, n) ==> b < |disk|
  }

  /** Block `b`, or zeros where there is none. */
  function BlockAt(disk: Disk, b: nat): (r: seq<nat>)
    ensures |r| == BLOCK_SZ
  {
    if b < |disk| && |disk[b]| == BLOCK_SZ then disk[b] else seq(BLOCK_SZ, i => 0)
  }

  function DataOf(ino: Inode, disk: Disk, n: nat): (r: seq<seq<nat>>)
    requires |ino.direct| == DIRECT
    ensures |r| == n && Blocks(r)
  {
    seq(n, i requires 0 <= i < n => BlockAt(disk, DataId(ino, disk, i)))
  }

  /** The contents of the first `n` data blocks. */
  function Bytes(ino: Inode, disk: Disk, n: nat): (r: seq<nat>)
    requires |ino.direct| == DIRECT
    ensures |r| == 512 * n
  {
    FlattenLength(DataOf(ino, disk, n));
    Flatten(DataOf(ino, disk, n))
  }

  lemma BytesSame(ino: Inode, disk: Disk, ino': Inode, disk': Disk, n: nat)
    requires |ino.direct| == DIRECT && |ino'.direct| == DIRECT
    requires forall i :: 0 <= i < n ==> BlockAt(disk', DataId(ino', disk', i)) == BlockAt(disk, DataId(ino, disk, i))
    ensures Bytes(ino', disk', n) == Bytes(ino, disk, n)
  {
    assert DataOf(ino', disk', n) == DataOf(ino, disk, n);
  }

  /** The map depends on the index blocks only. */
  lemma MapFrame(ino: Inode, disk: Disk, disk': Disk, n: nat)
    requires |ino.direct| == DIRECT && |disk'| == |disk|
    requires forall b :: b in Index(ino, disk, n) && b < |disk| ==> disk'[b] == disk[b]
    ensures Kept(ino, disk, ino, disk', n)
  {
    forall i | 0 <= i < n ensures Fresh(ino, disk', i) == Fresh(ino, disk, i) { MapFrameAt(ino, disk, disk', n, i); }
  }

  lemma MapFrameAt(ino: Inode, disk: Disk, disk': Disk, n: nat, i: nat)
    requires |ino.direct| == DIRECT && |disk'| == |disk| && i < n
    requires forall b :: b in Index(ino, disk, n) && b < |disk| ==> disk'[b] == disk[b]
    ensures Fresh(ino, disk', i) == Fresh(ino, disk, i)
  {
    if i >= DIRECT { IndexHas(ino, disk, n, DIRECT, 0); }
    if i >= INDIRECT1_BOUND {
      var d := i - INDIRECT1_BOUND;
      HighLow(d);
      IndexHas(ino, disk, n, INDIRECT1_BOUND, 0);
      SubInIndex(ino, disk, n - 1, High(d));
      HighLow(0);
    }
  }

  /** One block of a file overwritten from offset `o` on. */
  function Overwritten(disk: Disk, b: nat, o: nat, src: seq<nat>): (r: Disk)
    requires DiskOk(disk) && b < |disk| && o + |src| <= BLOCK_SZ
    ensures |r| == |disk| && DiskOk(r)
  {
    disk[b := Splice(disk[b], o, src)]
  }

  /** Writing into a data block writes into the file, and leaves the map alone. */
  lemma DataWrite(ino: Inode, disk: Disk, n: nat, i: nat, o: nat, src: seq<nat>)
    requires Mapped(ino, disk, n) && i < n && o + |src| <= BLOCK_SZ
    ensures DataId(ino, disk, i) < |disk|
    ensures var disk' := Overwritten(disk, DataId(ino, disk, i), o, src);
            && Mapped(ino, disk', n) && Owned(ino, disk', n) == Owned(ino, disk, n)
            && Bytes(ino, disk', n) == Splice(Bytes(ino, disk, n), 512 * i + o, src)
  {
    var b := DataId(ino, disk, i);
    DataIdOwned(ino, disk, n, i);
    DataIsNotIndex(ino, disk, n, i);
    var disk' := Overwritten(disk, b, o, src);
    MapFrame(ino, disk, disk', n);
    OwnedSame(ino, disk, ino, disk', n);
    OwnedDetermines(ino, disk, ino, disk', n);
    forall j | 0 <= j < n && j != i ensures DataId(ino, disk', j) != b {
      if i < j { DataIdInjective(ino, disk, n, i, j); } else { DataIdInjective(ino, disk, n, j, i); }
    }
    var p := DataOf(ino, disk, n);
    assert DataOf(ino, disk', n) == p[i := Splice(p[i], o, src)];
    FlattenSplice(p, i, o, src);
  }

  // ----- read_at and write_at -----

  /** A data block is on the disk, and is the block's part of the contents. */
  lemma Within(ino: Inode, disk: Disk, n: nat, i: nat)
    requires Mapped(ino, disk, n) && i < n
    ensures DataId(ino, disk, i) < |disk| && |disk[DataId(ino, disk, i)]| == 512
    ensures Bytes(ino, disk, n)[512 * i..512 * i + 512] == disk[DataId(ino, disk, i)]
  {
    DataIdOwned(ino, disk, n, i);
    FlattenBlock(DataOf(ino, disk, n), i);
  }

  lemma SliceOfSlice(s: seq<nat>, i: nat, o: nat, m: nat)
    requires 512 * i + 512 <= |s| && o + m <= 512
    ensures s[512 * i..512 * i + 512][o..o + m] == s[512 * i + o..512 * i + o + m]
  {
  }

  /** The part `[start, start + m)` of a file, within data block `block`. */
  method Fetch(vol: Volume, ino: Inode, ghost n: nat, block: nat, o: nat, m: nat) returns (src: seq<nat>)
    requires Mapped(ino, vol.disk, n) && block < n && o + m <= 512
    ensures src == Bytes(ino, vol.disk, n)[512 * block + o..512 * block + o + m]
  {
    var id := vol.GetBlockId(ino, block);
    Within(ino, vol.disk, n, block);
    src := vol.disk[id][o..o + m];
    SliceOfSlice(Bytes(ino, vol.disk, n), block, o, m);
  }

  /** `copy_from_slice` into part of a buffer. */
  method CopyInto(buf: array<nat>, at: nat, src: seq<nat>)
    requires at + |src| <= buf.Length
    modifies buf
    ensures buf[..] == Splice(old(buf[..]), at, src)
  {
    forall i | 0 <= i < |src| { buf[at + i] := src[i]; }
  }

  /** The buffer that was `was` has taken in `size` bytes of `all` from the offset on. */
  ghost predicate HasRead(all: seq<nat>, offset: nat, size: nat, was: seq<nat>, now: seq<nat>) {
    && size <= |was| == |now| && (size > 0 ==> offset + size <= |all|)
    && (forall i :: 0 <= i < size ==> now[i] == all[offset + i])
    && (forall i :: size <= i < |now| ==> now[i] == was[i])
  }

  lemma ReadOn(all: seq<nat>, offset: nat, size: nat, m: nat, was: seq<nat>, now: seq<nat>, src: seq<nat>)
    requires HasRead(all, offset, size, was, now) && size + m <= |was| && offset + size + m <= |all| && m > 0
    requires src == all[offset + size..offset + size + m]
    ensures size + |src| <= |now| && HasRead(all, offset, size + m, was, Splice(now, size, src))
  {
    var now' := Splice(now, size, src);
    forall i | 0 <= i < |now| ensures now'[i] == if i < size + m then all[offset + i] else was[i] {
      if size <= i < size + m { assert src[i - size] == all[offset + i]; }
    }
  }

  /** Copies the part of a data block that comes next. */
  method ReadPart(vol: Volume, ino: Inode, ghost n: nat, block: nat, offset: nat, size: nat, m: nat, buf: array<nat>,
                  ghost was: seq<nat>)
    requires Mapped(ino, vol.disk, n) && block < n && 512 * block <= offset + size < offset + size + m <= 512 * block + 512
    requires size + m <= |was| && HasRead(Bytes(ino, vol.disk, n), offset, size, was, buf[..])
    modifies buf
    ensures HasRead(Bytes(ino, vol.disk, n), offset, size + m, was, buf[..])
  {
    var src := Fetch(vol, ino, n, block, offset + size - 512 * block, m);
    ReadOn(Bytes(ino, vol.disk, n), offset, size, m, was, buf[..], src);
    CopyInto(buf, size, src);
  }

  /** Where the part of a block between `start` and `end` ends. */
  function EndOfBlock(block: nat, end: nat): nat {
    if 512 * block + 512 < end then 512 * block + 512 else end
  }

  lemma BlockIsThere(block: nat, start: nat, end: nat, n: nat)
    requires 512 * block <= start < end <= 512 * n
    ensures block < n
  {
  }

  /** The loop of `read_at`: `n` data blocks hold the file up to `end`. */
  method ReadBlocks(vol: Volume, ino: Inode, ghost n: nat, offset: nat, end: nat, first: nat, buf: array<nat>) returns (size: nat)
    requires Mapped(ino, vol.disk, n) && offset < end <= 512 * n && end - offset <= buf.Length
    requires 512 * first <= offset < 512 * first + 512
    modifies buf
    ensures size == end - offset
    ensures HasRead(Bytes(ino, vol.disk, n), offset, size, old(buf[..]), buf[..])
  {
    var start, block := offset, first;
    size := 0;
    while true
      invariant start == offset + size < end && 512 * block <= start < 512 * block + 512
      invariant HasRead(Bytes(ino, vol.disk, n), offset, size, old(buf[..]), buf[..])
      decreases end - start
    {
      BlockIsThere(block, start, end, n);
      var endBlock := EndOfBlock(block, end);
      ReadPart(vol, ino, n, block, offset, size, endBlock - start, buf, old(buf[..]));
      size := size + (endBlock - start);
      if endBlock == end { return; }
      block, start := block + 1, endBlock;
    }
  }

  lemma BlocksCover(size: nat)
    ensures 512 * DataBlocks(size) < size + 512 && size <= 512 * DataBlocks(size)
  {
  }

  /** `DiskInode::read_at`: what the file has between the offset and the end of the file or buffer. */
  method ReadAt(vol: Volume, ino: Inode, offset: nat, buf: array<nat>) returns (size: nat)
    requires Mapped(ino, vol.disk, DataBlocks(ino.size))
    modifies buf
    ensures size == if offset < ino.size then Min(buf.Length, ino.size - offset) else 0
    ensures HasRead(Bytes(ino, vol.disk, DataBlocks(ino.size)), offset, size, old(buf[..]), buf[..])
  {
    var end := Min(offset + buf.Length, ino.size);
    if offset >= end { return 0; }
    BlocksCover(ino.size);
    size := ReadBlocks(vol, ino, DataBlocks(ino.size), offset, end, offset / 512, buf);
  }

  /** `size` bytes of `data` are in the file from the offset on; the map, and all other blocks, are the
      same as on `disk0`. */
  ghost predicate HasWritten(ino: Inode, disk0: Disk, n: nat, offset: nat, data: seq<nat>, size: nat, disk: Disk) {
    && Mapped(ino, disk0, n) && Mapped(ino, disk, n) && |disk| == |disk0| && Owned(ino, disk, n) == Owned(ino, disk0, n)
    && size <= |data| && offset + size <= 512 * n
    && Bytes(ino, disk, n) == Splice(Bytes(ino, disk0, n), offset, data[..size])
    && (forall b :: 0 <= b < |disk| && b !in Owned(ino, disk0, n) ==> disk[b] == disk0[b])
  }

  lemma SpliceOn(s: seq<nat>, offset: nat, data: seq<nat>, size: nat, m: nat)
    requires size + m <= |data| && offset + size + m <= |s|
    ensures Splice(Splice(s, offset, data[..size]), offset + size, data[size..size + m]) == Splice(s, offset, data[..size + m])
  {
    assert data[..size + m] == data[..size] + data[size..size + m];
  }

  lemma WriteOn(ino: Inode, disk0: Disk, n: nat, offset: nat, data: seq<nat>, size: nat, disk: Disk, block: nat, o: nat, m: nat)
    requires HasWritten(ino, disk0, n, offset, data, size, disk) && block < n && o + m <= 512 && size + m <= |data|
    requires 512 * block + o == offset + size
    ensures DataId(ino, disk, block) < |disk|
    ensures HasWritten(ino, disk0, n, offset, data, size + m, Overwritten(disk, DataId(ino, disk, block), o, data[size..size + m]))
  {
    DataWrite(ino, disk, n, block, o, data[size..size + m]);
    SpliceOn(Bytes(ino, disk0, n), offset, data, size, m);
    DataIdOwned(ino, disk, n, block);
  }

  /** Writes the part of a data block that comes next. */
  method WritePart(vol: Volume, ino: Inode, ghost disk0: Disk, ghost n: nat, block: nat, offset: nat, data: seq<nat>,
                   size: nat, m: nat)
    requires HasWritten(ino, disk0, n, offset, data, size, vol.disk) && block < n && size + m <= |data|
    requires 512 * block <= offset + size <= offset + size + m <= 512 * block + 512
    modifies vol
    ensures HasWritten(ino, disk0, n, offset, data, size + m, vol.disk)
  {
    var id := vol.GetBlockId(ino, block);
    var o := offset + size - 512 * block;
    WriteOn(ino, disk0, n, offset, data, size, vol.disk, block, o, m);
    vol.disk := Overwritten(vol.disk, id, o, data[size..size + m]);
  }

  /** The loop of `write_at`: `n` data blocks hold the file up to `end`. */
  method WriteBlocks(vol: Volume, ino: Inode, ghost n: nat, offset: nat, end: nat, first: nat, data: seq<nat>)
    returns (size: nat)
    requires Mapped(ino, vol.disk, n) && offset <= end <= 512 * n && end - offset <= |data|
    requires first < n && 512 * first <= offset < 512 * first + 512
    modifies vol
    ensures size == end - offset && HasWritten(ino, old(vol.disk), n, offset, data, size, vol.disk)
  {
    var start, block := offset, first;
    size := 0;
    while true
      invariant start == offset + size <= end && block < n && 512 * block <= start < 512 * block + 512
      invariant HasWritten(ino, old(vol.disk), n, offset, data, size, vol.disk)
      decreases n - block
    {
      var endBlock := EndOfBlock(block, end);
      WritePart(vol, ino, old(vol.disk), n, block, offset, data, size, endBlock - start);
      size := size + (endBlock - start);
      if endBlock == end { return; }
      block, start := block + 1, endBlock;
    }
  }

  /** The lookup of position `i` stays within the map and the disk; elsewhere the code panics. */
  predicate Reaches(ino: Inode, disk: Disk, i: nat)
    requires |ino.direct| == DIRECT
  {
    && i < MAX_BLOCKS && DataId(ino, disk, i) < |disk|
    && (DIRECT <= i < INDIRECT1_BOUND ==> ino.indirect1 < |disk|)
    && (INDIRECT1_BOUND <= i ==> ino.indirect2 < |disk| && SubId(ino, disk, High(i - INDIRECT1_BOUND)) < |disk|)
  }

  lemma FreshOwned(ino: Inode, disk: Disk, n: nat, i: nat, b: nat)
    requires |ino.direct| == DIRECT && i < n && b in Fresh(ino, disk, i)
    ensures b in Owned(ino, disk, n)
  {
    var p := Pieces(ino, disk, n);
    var x :| 0 <= x < |p[i]| && p[i][x] == b;
    InFlatten(p, i, x);
  }

  /** Every position of a file can be looked up. */
  lemma FileReaches(ino: Inode, disk: Disk, n: nat, i: nat)
    requires Mapped(ino, disk, n) && i < n
    ensures Reaches(ino, disk, i)
  {
    FreshOwned(ino, disk, n, i, DataId(ino, disk, i));
    if DIRECT <= i < INDIRECT1_BOUND { FreshOwned(ino, disk, n, DIRECT, ino.indirect1); }
    if INDIRECT1_BOUND <= i {
      FreshOwned(ino, disk, n, INDIRECT1_BOUND, ino.indirect2);
      var a := High(i - INDIRECT1_BOUND);
      HighLow(i - INDIRECT1_BOUND);
      BelowSub(ino, disk, FirstOf(a), a, 0);
      FreshOwned(ino, disk, n, FirstOf(a), SubId(ino, disk, a));
    }
  }

  /** `DiskInode::write_at`: the part of the data that fits replaces what was there.  It panics past the
      end of the file, and where the block to start in cannot be looked up, which takes an empty write
      for which the file has no block. */
  method WriteAt(vol: Volume, ino: Inode, offset: nat, data: seq<nat>) returns (r: Option<nat>)
    requires Mapped(ino, vol.disk, DataBlocks(ino.size))
    modifies vol
    ensures r.None? <==> offset > ino.size || !Reaches(ino, old(vol.disk), offset / 512)
    ensures r.None? ==> vol.disk == old(vol.disk) && (offset > ino.size || offset == 512 * DataBlocks(ino.size))
    ensures offset / 512 >= DataBlocks(ino.size) ==> vol.disk == old(vol.disk)
    ensures r.Some? ==> r.value == Min(|data|, ino.size - offset)
    ensures r.Some? ==> HasWritten(ino, old(vol.disk), DataBlocks(ino.size), offset, data, r.value, vol.disk)
  {
    var end := Min(offset + |data|, ino.size);
    if offset > end { return None; }
    BlocksCover(ino.size);
    var first := offset / 512;
    if first < DataBlocks(ino.size) {
      FileReaches(ino, vol.disk, DataBlocks(ino.size), first);
      var size := WriteBlocks(vol, ino, DataBlocks(ino.size), offset, end, first, data);
      return Some(size);
    }
    if !Reaches(ino, vol.disk, first) { return None; }
    var id := vol.GetBlockId(ino, first);
    NothingWritten(vol.disk, id);
    vol.disk := Overwritten(vol.disk, id, 0, data[..0]);
    assert data[..0] == [];
    r := Some(0);
  }

  lemma NothingWritten(disk: Disk, b: nat)
    requires DiskOk(disk) && b < |disk|
    ensures Overwritten(disk, b, 0, []) == disk
  {
    assert Splice(disk[b], 0, []) == disk[b];
  }
}
