/** The easy-fs volume: formatting, files, and the operations of the inode interface. */
module EasyFs {
  import opened Basics
  import opened Lists
  import opened EfsMap
  import opened EfsGrow
  import opened EfsInode
  import opened EfsData
  import opened EfsLayout
  import opened EfsBitmap
  import opened EfsSpace
  import opened EfsFiles
  import opened EfsImage

  /** `s` made at least `n` long with zeros. */
  function Padded(s: seq<nat>, n: nat): (r: seq<nat>)
    ensures |r| == if |s| < n then n else |s|
  {
    if |s| < n then s + Zeros(n - |s|) else s
  }

  /** Blocks that growing a file takes: `blocks_num_needed`, or none when it does not grow. */
  function Needed(size: nat, newSize: nat): nat {
    if newSize < size || TotalBlocks(newSize) < TotalBlocks(size) then 0 else TotalBlocks(newSize) - TotalBlocks(size)
  }

  lemma NeededIs(size: nat, newSize: nat)
    requires size <= newSize
    ensures Needed(size, newSize) == TotalBlocks(newSize) - TotalBlocks(size)
  {
    TotalBlocksCounts(size);
    TotalBlocksCounts(newSize);
    BlocksMonotone(size, newSize);
    TotalMonotone(DataBlocks(size), DataBlocks(newSize));
  }

  /** A new empty file takes no blocks. */
  lemma FileAdded(area: Area, inodes: seq<Inode>, disk: Disk, bits: seq<seq<nat>>)
    requires FsOk(area, inodes, disk, bits, [])
    ensures FsOk(area, inodes + [EmptyInode()], disk, bits, [])
  {
    EmptyFile(EmptyInode(), disk);
    var p := OwnedLists(inodes + [EmptyInode()], disk);
    assert p[..|inodes|] == OwnedLists(inodes, disk) && p[|inodes|] == [];
    assert Used(inodes + [EmptyInode()], disk) == Used(inodes, disk);
  }

  // ----- On the device -----

  /** The parts of the volume are where the layout says, and can be stored there. */
  ghost predicate Stored(l: Layout, area: Area, inodes: seq<Inode>, ids: seq<seq<nat>>, data: seq<seq<nat>>, disk: Disk) {
    && area == Area(l.DataStart(), l.dataArea) && 4 * l.inodeArea == 4096 * l.inodeBitmap
    && Fits(l, inodes, ids, data, disk)
  }

  lemma SizeIsWord(size: nat)
    requires DataBlocks(size) <= MAX_BLOCKS
    ensures size < WORD_BOUND
  {
    BlocksCover(size);
  }

  lemma StoredUpdate(l: Layout, area: Area, inodes: seq<Inode>, ids: seq<seq<nat>>, data: seq<seq<nat>>, disk: Disk,
                     i: nat, ino: Inode, data': seq<seq<nat>>, disk': Disk)
    requires Stored(l, area, inodes, ids, data, disk) && i < |inodes|
    requires |ino.direct| == DIRECT && Words(ino) && DataBlocks(ino.size) <= MAX_BLOCKS
    requires BitmapOk(data') && |data'| == |data| && DiskOk(disk') && |disk'| == |disk|
    ensures Stored(l, area, inodes[i := ino], ids, data', disk')
  {
    SizeIsWord(ino.size);
  }

  lemma StoredNew(l: Layout, area: Area, inodes: seq<Inode>, ids: seq<seq<nat>>, data: seq<seq<nat>>, disk: Disk, ids': seq<seq<nat>>)
    requires Stored(l, area, inodes, ids, data, disk) && |inodes| < 4096 * |ids| && BitmapOk(ids') && |ids'| == |ids|
    ensures Stored(l, area, inodes + [EmptyInode()], ids', data, disk)
  {
    assert Words(EmptyInode());
  }

  /** The data area alone decides what the files hold. */
  lemma AreaDecides(area: Area, inodes: seq<Inode>, disk: Disk, bits: seq<seq<nat>>, disk': Disk)
    requires FsOk(area, inodes, disk, bits, []) && DiskOk(disk') && |disk'| == |disk|
    requires forall b :: area.start <= b < area.start + area.size ==> disk'[b] == disk[b]
    ensures FsOk(area, inodes, disk', bits, []) && AllContents(inodes, disk') == AllContents(inodes, disk)
  {
    assert Used(inodes, disk) + [] == Used(inodes, disk);
    forall k | 0 <= k < |inodes|
      ensures OwnedBy(inodes[k], disk') == OwnedBy(inodes[k], disk) && Content(inodes[k], disk') == Content(inodes[k], disk)
      ensures FileOk(inodes[k], disk')
    {
      forall b | b in OwnedBy(inodes[k], disk) ensures area.start <= b < area.start + area.size {
        OwnedIsUsed(inodes, disk, k, b);
      }
      FileFrame(inodes[k], disk, disk');
    }
    assert OwnedLists(inodes, disk') == OwnedLists(inodes, disk);
  }

  /** On the device itself the volume is stored as well, and looks the same. */
  lemma OpenedIsStored(l: Layout, area: Area, inodes: seq<Inode>, ids: seq<seq<nat>>, data: seq<seq<nat>>, disk: Disk, device: Disk)
    requires Stored(l, area, inodes, ids, data, disk) && device == Image(l, inodes, ids, data, disk)
    requires FsOk(area, inodes, disk, data, [])
    ensures Stored(l, area, inodes, ids, data, device) && Image(l, inodes, ids, data, device) == device
    ensures FsOk(area, inodes, device, data, []) && AllContents(inodes, device) == AllContents(inodes, disk)
  {
    AreaDecides(area, inodes, disk, data, device);
    assert Fits(l, inodes, ids, data, device);
    forall b | 0 <= b < |disk| ensures Image(l, inodes, ids, data, device)[b] == device[b] {}
  }

  method FetchInode(device: Disk, l: Layout, i: nat, ghost ids: seq<seq<nat>>, ghost data: seq<seq<nat>>,
                    ghost inodes: seq<Inode>, ghost disk: Disk)
    returns (ino: Inode)
    requires Fits(l, inodes, ids, data, disk) && device == Image(l, inodes, ids, data, disk) && i < |inodes|
    ensures ino == inodes[i]
  {
    ImageInode(l, inodes, ids, data, disk, i);
    ino := InodeAt(device, l, i);
  }

  /** Reads the inodes whose bits are set. */
  method ReadInodes(device: Disk, l: Layout, ids: seq<seq<nat>>, ghost data: seq<seq<nat>>, ghost inodes: seq<Inode>, ghost disk: Disk)
    returns (r: seq<Inode>)
    requires Fits(l, inodes, ids, data, disk) && device == Image(l, inodes, ids, data, disk) && |inodes| <= 4096 * |ids|
    requires forall j: nat :: j < 4096 * |ids| ==> (IsSet(ids, j) <==> j < |inodes|)
    ensures r == inodes
  {
    r := [];
    var n := 0;
    while n < 4096 * |ids| && IsSet(ids, n)
      invariant n <= |inodes| && r == inodes[..n]
      decreases |inodes| - n
    {
      var ino := FetchInode(device, l, n, ids, data, inodes, disk);
      r := r + [ino];
      n := n + 1;
    }
    assert n == |inodes|;
  }

  lemma NextIsClear(bits: seq<seq<nat>>, n: nat)
    requires BitmapOk(bits) && n <= 4096 * |bits|
    requires forall j: nat :: j < 4096 * |bits| ==> (IsSet(bits, j) <==> j < n)
    ensures n < 4096 * |bits| ==> !IsSet(bits, n)
  {
  }

  datatype FileOp = New | Write(file: nat, offset: nat, bytes: seq<nat>) | Clear(file: nat)

  /** Blocks that files with these contents take, index blocks included. */
  function InUse(contents: seq<seq<nat>>): nat {
    if contents == [] then 0 else InUse(contents[..|contents| - 1]) + TotalBlocks(|contents[|contents| - 1]|)
  }

  /** The blocks in use are as many as the contents take, wherever they are. */
  lemma {:induction false} UsedCounts(inodes: seq<Inode>, disk: Disk)
    requires InodesOk(inodes)
    ensures |Used(inodes, disk)| == InUse(AllContents(inodes, disk))
  {
    if inodes != [] {
      var n := |inodes| - 1;
      UsedCounts(inodes[..n], disk);
      assert AllContents(inodes, disk)[..n] == AllContents(inodes[..n], disk);
      assert OwnedLists(inodes, disk)[..n] == OwnedLists(inodes[..n], disk);
      OwnedLength(inodes[n], disk, DataBlocks(inodes[n].size));
      TotalBlocksCounts(inodes[n].size);
      assert OwnedLists(inodes, disk)[n] == OwnedBy(inodes[n], disk);
    }
  }

  /** What a volume can hold: data blocks and inodes. */
  datatype Limits = Limits(blocks: nat, files: nat)

  /** The file has a block to start writing in, once it is large enough for the data. */
  predicate HasBlock(size: nat, offset: nat, length: nat) {
    length > 0 || offset / 512 < DataBlocks(if size < offset then offset else size)
  }

  /** A write fits into a file of `size` bytes, on a volume with `used` of its `blocks` in use. */
  predicate WriteFits(size: nat, offset: nat, length: nat, used: nat, blocks: nat) {
    HasBlock(size, offset, length) && RoomFor(size, offset, length, used, blocks)
  }

  predicate RoomFor(size: nat, offset: nat, length: nat, used: nat, blocks: nat) {
    DataBlocks(offset + length) <= MAX_BLOCKS && used + Needed(size, offset + length) <= blocks
  }

  /** The volume can do this: the file exists, and there is room. */
  predicate Accepts(limits: Limits, contents: seq<seq<nat>>, op: FileOp) {
    match op
    case New => |contents| < limits.files
    case Write(i, offset, bytes) =>
      i < |contents| && WriteFits(|contents[i]|, offset, |bytes|, InUse(contents), limits.blocks)
    case Clear(i) => i < |contents|
  }

  /** What an operation does to the files' contents. */
  function After(limits: Limits, contents: seq<seq<nat>>, op: FileOp): seq<seq<nat>> {
    if !Accepts(limits, contents, op) then contents
    else
      match op
      case New => contents + [[]]
      case Write(i, offset, bytes) =>
        contents[i := Splice(Padded(contents[i], offset + |bytes|), offset, bytes)]
      case Clear(i) => contents[i := []]
  }

  function AfterAll(limits: Limits, contents: seq<seq<nat>>, ops: seq<FileOp>): seq<seq<nat>> {
    if ops == [] then contents else After(limits, AfterAll(limits, contents, ops[..|ops| - 1]), ops[|ops| - 1])
  }

  /** A file that is large enough has the block it takes to start writing. */
  lemma BlockToWrite(size: nat, grown: nat, offset: nat, length: nat)
    requires grown == if size < offset + length then offset + length else size
    ensures HasBlock(size, offset, length) ==> offset / 512 < DataBlocks(grown)
  {
  }

  lemma NothingSpliced(s: seq<nat>, offset: nat, t: seq<nat>)
    requires offset + |t| <= |s| && t == []
    ensures Splice(s, offset, t) == s
  {
  }

  /** Writing data does not change the map. */
  lemma StillReaches(ino: Inode, disk: Disk, i: nat, disk': Disk)
    requires Mapped(ino, disk', DataBlocks(ino.size)) && (i < DataBlocks(ino.size) || disk' == disk) && Reaches(ino, disk, i)
    ensures Reaches(ino, disk', i)
  {
    if i < DataBlocks(ino.size) { FileReaches(ino, disk', DataBlocks(ino.size), i); }
  }

  class EasyFileSystem {
    const layout: Layout
    const area: Area
    const vol: Volume
    const ids: Bitmap  // the inode bitmap
    const data: Bitmap // the data bitmap
    var inodes: seq<Inode>

    /** The set bits of the data bitmap are exactly the blocks of all files, which do not overlap; free
        blocks are zero, and so are files behind their ends. */
    ghost predicate Valid()
      reads this, vol, ids, data
    {
      && ids != data && FsOk(area, inodes, vol.disk, data.blocks, [])
      && Stored(layout, area, inodes, ids.blocks, data.blocks, vol.disk)
      && |inodes| <= 4096 * |ids.blocks|
      && forall j: nat :: j < 4096 * |ids.blocks| ==> (IsSet(ids.blocks, j) <==> j < |inodes|)
    }

    ghost function ContentOf(i: nat): (r: seq<nat>)
      requires InodesOk(inodes) && i < |inodes|
      reads this, vol
      ensures |r| == inodes[i].size
    {
      Content(inodes[i], vol.disk)
    }

    /** The file contents but for file `i` are those given. */
    ghost predicate OthersAre(i: nat, contents: seq<seq<nat>>)
      requires InodesOk(inodes)
      reads this, vol
    {
      |inodes| == |contents| && forall k :: 0 <= k < |inodes| && k != i ==> ContentOf(k) == contents[k]
    }

    ghost function Contents(): (r: seq<seq<nat>>)
      requires InodesOk(inodes)
      reads this, vol
    {
      AllContents(inodes, vol.disk)
    }

    /** `create`: an empty root directory on a volume laid out as `EfsLayout` says. */
    constructor (total: nat, inodeBitmap: nat)
      requires inodeBitmap >= 1 && 1 + inodeBitmap + InodeBlocks(inodeBitmap) <= total <= WORD_BOUND
      ensures Valid() && fresh(vol) && fresh(ids) && fresh(data)
      ensures inodes == [EmptyInode()] && Contents() == [[]] && |vol.disk| == total
      ensures layout == Create(total, inodeBitmap)
    {
      var l := Create(total, inodeBitmap);
      layout := l;
      area := Area(l.DataStart(), l.dataArea);
      vol := new Volume(seq(total, b => Zeros(BLOCK_SZ)));
      ids := new Bitmap(inodeBitmap);
      data := new Bitmap(l.dataBitmap);
      inodes := [EmptyInode()];
      new;
      BitmapsCover(total, inodeBitmap);
      EmptyFile(inodes[0], vol.disk);
      assert OwnedLists(inodes, vol.disk) == [[]] && Flatten([[]]) == [];
      assert FsOk(area, inodes, vol.disk, data.blocks, []);
      assert !IsSet(ids.blocks, 0);
      var root := ids.Alloc();
      assert root == Some(0);
      assert Words(inodes[0]);
    }

    /** What the device holds: super block, bitmaps, inodes and data. */
    ghost function OnDevice(): Disk
      requires Valid()
      reads this, vol, ids, data
    {
      Image(layout, inodes, ids.blocks, data.blocks, vol.disk)
    }

    /** `open`: a device that a volume was stored on gives the volume back.  (The code reads each inode
        when it is needed.) */
    constructor Open(device: Disk, ghost efs: EasyFileSystem)
      requires efs.Valid() && device == efs.OnDevice()
      ensures Valid() && fresh(vol) && fresh(ids) && fresh(data)
      ensures layout == efs.layout && area == efs.area && inodes == efs.inodes
      ensures ids.blocks == efs.ids.blocks && data.blocks == efs.data.blocks && Contents() == efs.Contents()
      ensures OnDevice() == device
    {
      ImageReads(efs.layout, efs.inodes, efs.ids.blocks, efs.data.blocks, efs.vol.disk, device);
      var super := ReadSuper(device[0]);
      var l := super.value;
      var idBlocks := BitmapAt(device, 1, l.inodeBitmap);
      var dataBlocks := BitmapAt(device, l.DataBitmapStart(), l.dataBitmap);
      OpenedIsStored(l, efs.area, efs.inodes, idBlocks, dataBlocks, efs.vol.disk, device);
      var read := ReadInodes(device, l, idBlocks, dataBlocks, efs.inodes, efs.vol.disk);
      layout := l;
      area := Area(l.DataStart(), l.dataArea);
      vol := new Volume(device);
      ids := new Bitmap.Load(idBlocks);
      data := new Bitmap.Load(dataBlocks);
      inodes := read;
    }

    /** `alloc_data`: a zeroed block; inside the data area just when one is free there. */
    method AllocData(ghost used: seq<nat>) returns (r: Option<nat>)
      requires ids != data && SpaceOk(area, vol.disk, data.blocks, used)
      modifies data
      ensures |data.blocks| == |old(data.blocks)|
      ensures (r.Some? && r.value < area.start + area.size) <==> |used| < area.size
      ensures |used| < area.size ==>
                && area.start <= r.value && r.value !in used && vol.disk[r.value] == Zeros(BLOCK_SZ)
                && SpaceOk(area, vol.disk, data.blocks, used + [r.value])
    {
      ghost var bits := data.blocks;
      var bit := data.Alloc();
      if bit.None? {
        forall b | area.start <= b < area.start + area.size ensures b in used { assert IsSet(bits, b - area.start); }
        CoverLength(used, area.start, area.size);
        return None;
      }
      LowestIsInside(area, vol.disk, bits, used, bit.value);
      if |used| < area.size { SpaceAfterAlloc(area, vol.disk, bits, used, bit.value, data.blocks); }
      r := Some(bit.value + area.start);
    }

    /** The allocations of `Inode::increase_size`. */
    method AllocAll(n: nat, ghost used: seq<nat>) returns (v: seq<nat>)
      requires ids != data && SpaceOk(area, vol.disk, data.blocks, used) && |used| + n <= area.size
      modifies data
      ensures |v| == n && SpaceOk(area, vol.disk, data.blocks, used + v) && |data.blocks| == |old(data.blocks)|
      ensures forall b :: b in v ==> b < |vol.disk| && vol.disk[b] == Zeros(BLOCK_SZ)
    {
      v := [];
      assert used + v == used;
      while |v| < n
        invariant |v| <= n && SpaceOk(area, vol.disk, data.blocks, used + v) && |data.blocks| == |old(data.blocks)|
        invariant forall b :: b in v ==> b < |vol.disk| && vol.disk[b] == Zeros(BLOCK_SZ)
      {
        var b := AllocData(used + v);
        assert used + v + [b.value] == used + (v + [b.value]);
        v := v + [b.value];
      }
    }

    /** A new empty file; inode numbers are handed out in order. */
    method NewFile() returns (r: Option<nat>)
      requires Valid()
      modifies this, ids
      ensures Valid() && vol.disk == old(vol.disk) && data.blocks == old(data.blocks)
      ensures |ids.blocks| == |old(ids.blocks)| && (r.None? <==> |old(inodes)| == 4096 * |ids.blocks|)
      ensures r == (if r.None? then None else Some(|old(inodes)|))
      ensures inodes == if r.None? then old(inodes) else old(inodes) + [EmptyInode()]
    {
      NextIsClear(ids.blocks, |inodes|);
      r := ids.Alloc();
      if r.Some? {
        StoredNew(layout, area, inodes, old(ids.blocks), data.blocks, vol.disk, ids.blocks);
        FileAdded(area, inodes, vol.disk, data.blocks);
        inodes := inodes + [EmptyInode()];
      }
    }

    /** `Inode::increase_size`: nothing when the new size is smaller. */
    method IncreaseSize(i: nat, newSize: nat)
      requires Valid() && i < |inodes| && DataBlocks(newSize) <= MAX_BLOCKS
      requires |Used(inodes, vol.disk)| + Needed(inodes[i].size, newSize) <= area.size
      modifies this, vol, data
      ensures Valid() && |inodes| == |old(inodes)| && ids.blocks == old(ids.blocks)
      ensures SameOutside(area, old(vol.disk), vol.disk)
      ensures ContentOf(i) == Padded(old(ContentOf(i)), newSize)
      ensures OthersAre(i, old(Contents()))
    {
      var ino := inodes[i];
      if newSize < ino.size { return; }
      NeededIs(ino.size, newSize);
      ghost var disk := vol.disk;
      assert Used(inodes, disk) + [] == Used(inodes, disk);
      var v := AllocAll(Needed(ino.size, newSize), Used(inodes, disk));
      AllocatedSupply(area, inodes, disk, data.blocks, v, i, newSize);
      ghost var g := Growth(OwnedBy(ino, disk), v, disk, DataBlocks(newSize));
      var ino' := vol.IncreaseSize(ino, newSize, v, g);
      FileGrown(area, inodes, disk, data.blocks, v, i, ino', vol.disk, g);
      StoredUpdate(layout, area, inodes, ids.blocks, old(data.blocks), disk, i, ino', data.blocks, vol.disk);
      inodes := inodes[i := ino'];
    }

    /** `Inode::write_at`: the file is extended with zeros as far as needed, and then holds the data at the
        offset; no other file changes.  It panics only after that, for an empty write at a block boundary
        at the end, just when the lookup of a block the file does not have fails. */
    method WriteFile(i: nat, offset: nat, bytes: seq<nat>) returns (r: Option<nat>)
      requires Valid() && i < |inodes| && RoomFor(inodes[i].size, offset, |bytes|, |Used(inodes, vol.disk)|, area.size)
      modifies this, vol, data
      ensures Valid() && |inodes| == |old(inodes)| && ids.blocks == old(ids.blocks)
      ensures SameOutside(area, old(vol.disk), vol.disk)
      ensures r.Some? ==> r.value == |bytes|
      ensures r.None? <==> !Reaches(inodes[i], vol.disk, offset / 512)
      ensures HasBlock(old(inodes[i]).size, offset, |bytes|) ==> r.Some?
      ensures ContentOf(i) == Splice(Padded(old(ContentOf(i)), offset + |bytes|), offset, bytes)
      ensures OthersAre(i, old(Contents()))
    {
      ghost var size := inodes[i].size;
      IncreaseSize(i, offset + |bytes|);
      BlockToWrite(size, inodes[i].size, offset, |bytes|);
      r := Overwrite(i, offset, bytes);
    }

    /** A write within a file. */
    method Overwrite(i: nat, offset: nat, bytes: seq<nat>) returns (r: Option<nat>)
      requires Valid() && i < |inodes| && offset + |bytes| <= inodes[i].size
      modifies vol
      ensures Valid() && SameOutside(area, old(vol.disk), vol.disk)
      ensures r.Some? ==> r.value == |bytes|
      ensures r.None? <==> !Reaches(inodes[i], vol.disk, offset / 512)
      ensures offset / 512 < DataBlocks(inodes[i].size) ==> r.Some?
      ensures ContentOf(i) == Splice(old(ContentOf(i)), offset, bytes) && OthersAre(i, old(Contents()))
    {
      FileIsMapped(area, inodes, vol.disk, data.blocks, i);
      ghost var disk := vol.disk;
      r := WriteAt(vol, inodes[i], offset, bytes);
      if r.None? {
        BlocksCover(inodes[i].size);
        NothingSpliced(ContentOf(i), offset, bytes);
      } else {
        StillReaches(inodes[i], disk, offset / 512, vol.disk);
        FileWritten(area, inodes, disk, data.blocks, i, offset, bytes, vol.disk);
      }
    }

    /** `Inode::read_at` */
    method ReadFile(i: nat, offset: nat, buf: array<nat>) returns (size: nat)
      requires Valid() && i < |inodes|
      modifies buf
      ensures size == if offset < inodes[i].size then Min(buf.Length, inodes[i].size - offset) else 0
      ensures HasRead(ContentOf(i), offset, size, old(buf[..]), buf[..])
    {
      FileIsMapped(area, inodes, vol.disk, data.blocks, i);
      size := ReadAt(vol, inodes[i], offset, buf);
    }

    /** `dealloc_data` for a block that belongs to no file, the first of those in `pend`. */
    method DeallocData(b: nat, ghost pend: seq<nat>)
      requires ids != data && FsOk(area, inodes, vol.disk, data.blocks, pend) && pend != [] && b == pend[0]
      modifies vol, data
      ensures FsOk(area, inodes, vol.disk, data.blocks, pend[1..]) && Contents() == old(Contents())
      ensures |data.blocks| == |old(data.blocks)| && SameOutside(area, old(vol.disk), vol.disk)
    {
      ghost var (bits, disk) := (data.blocks, vol.disk);
      assert b in Used(inodes, disk) + pend;
      data.Dealloc(b - area.start);
      BlockFreed(area, inodes, disk, bits, pend, data.blocks);
      vol.disk := vol.disk[b := Zeros(BLOCK_SZ)];
    }

    /** Frees the blocks a cleared file has given up. */
    method FreeAll(v: seq<nat>)
      requires ids != data && FsOk(area, inodes, vol.disk, data.blocks, v)
      modifies vol, data
      ensures FsOk(area, inodes, vol.disk, data.blocks, []) && Contents() == old(Contents())
      ensures |data.blocks| == |old(data.blocks)| && SameOutside(area, old(vol.disk), vol.disk)
    {
      var k := 0;
      while k < |v|
        invariant k <= |v| && FsOk(area, inodes, vol.disk, data.blocks, v[k..]) && Contents() == old(Contents())
        invariant |data.blocks| == |old(data.blocks)| && SameOutside(area, old(vol.disk), vol.disk)
      {
        DeallocData(v[k], v[k..]);
        assert v[k..][1..] == v[k + 1..];
        k := k + 1;
      }
      assert v[k..] == [];
    }

    /** `Inode::clear`: the file is empty, and its blocks are free and zero again. */
    method ClearFile(i: nat)
      requires Valid() && i < |inodes|
      modifies this, vol, data
      ensures Valid() && |inodes| == |old(inodes)| && ids.blocks == old(ids.blocks)
      ensures SameOutside(area, old(vol.disk), vol.disk)
      ensures ContentOf(i) == [] && OthersAre(i, old(Contents()))
    {
      var v, ino' := vol.ClearSize(inodes[i]);
      FileEmptied(area, inodes, vol.disk, data.blocks, i, ino');
      inodes := inodes[i := ino'];
      FreeAll(v);
      StoredUpdate(layout, area, old(inodes), ids.blocks, old(data.blocks), old(vol.disk), i, ino', data.blocks, vol.disk);
    }

    ghost function Room(): Limits
      reads ids
    {
      Limits(area.size, 4096 * |ids.blocks|)
    }

    method PerformNew() returns (done: bool)
      requires Valid()
      modifies this, ids
      ensures Valid() && Room() == old(Room()) && (done <==> |old(inodes)| < old(Room()).files)
      ensures Contents() == if done then old(Contents()) + [[]] else old(Contents())
    {
      EmptyFile(EmptyInode(), vol.disk);
      var r := NewFile();
      done := r.Some?;
    }

    method Rewrite(i: nat, offset: nat, bytes: seq<nat>)
      requires Valid() && i < |inodes| && WriteFits(inodes[i].size, offset, |bytes|, |Used(inodes, vol.disk)|, area.size)
      modifies this, vol, data
      ensures Valid() && ids.blocks == old(ids.blocks) && SameOutside(area, old(vol.disk), vol.disk)
      ensures Contents() == old(Contents())[i := Splice(Padded(old(Contents())[i], offset + |bytes|), offset, bytes)]
    {
      var _ := WriteFile(i, offset, bytes);
    }

    method PerformWrite(i: nat, offset: nat, bytes: seq<nat>) returns (done: bool)
      requires Valid()
      modifies this, vol, data
      ensures Valid() && Room() == old(Room()) && (done <==> Accepts(Room(), old(Contents()), Write(i, offset, bytes)))
      ensures Contents() == After(Room(), old(Contents()), Write(i, offset, bytes))
      ensures SameOutside(area, old(vol.disk), vol.disk)
    {
      UsedCounts(inodes, vol.disk);
      done := i < |inodes| && WriteFits(inodes[i].size, offset, |bytes|, |Used(inodes, vol.disk)|, area.size);
      if done { Rewrite(i, offset, bytes); }
    }

    /** One operation on the files.  It is refused just when it names no file, or asks for more than the
        volume or a file can hold, or writes nothing where the file has no block: there the code panics
        or touches a block that is not the file's. */
    method Perform(op: FileOp) returns (done: bool)
      requires Valid()
      modifies this, vol, ids, data
      ensures Valid() && Room() == old(Room()) && (done <==> Accepts(Room(), old(Contents()), op))
      ensures Contents() == After(Room(), old(Contents()), op) && SameOutside(area, old(vol.disk), vol.disk)
    {
      match op
      case New =>
        done := PerformNew();
      case Write(i, offset, bytes) =>
        done := PerformWrite(i, offset, bytes);
      case Clear(i) =>
        done := i < |inodes|;
        if done { ClearFile(i); }
    }

    /** Any sequence of operations on any files: the volume holds what a list of byte sequences would. */
    method PerformAll(ops: seq<FileOp>)
      requires Valid()
      modifies this, vol, ids, data
      ensures Valid() && Room() == old(Room()) && Contents() == AfterAll(Room(), old(Contents()), ops)
      ensures SameOutside(area, old(vol.disk), vol.disk)
    {
      for k := 0 to |ops|
        invariant Valid() && Room() == old(Room()) && Contents() == AfterAll(Room(), old(Contents()), ops[..k])
        invariant SameOutside(area, old(vol.disk), vol.disk)
      {
        var _ := Perform(ops[k]);
        assert ops[..k + 1][..k] == ops[..k];
      }
      assert ops[..|ops|] == ops;
    }
  }
}
