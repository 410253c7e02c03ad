/** The regions that formatting an easy-fs volume lays out. */
module EfsLayout {

  /** The areas behind the super block, in blocks. */
  datatype Layout = Layout(inodeBitmap: nat, inodeArea: nat, dataBitmap: nat, dataArea: nat) {
    function InodeStart(): nat { 1 + inodeBitmap }
    function DataBitmapStart(): nat { 1 + inodeBitmap + inodeArea }
    function DataStart(): nat { 1 + inodeBitmap + inodeArea + dataBitmap }
  }

  const BLOCK_BITS: nat := 4096
  const INODE_SIZE: nat := 128

  /** `EasyFileSystem::create`; there must be room for the inode areas. */
  function Create(total: nat, inodeBitmap: nat): (l: Layout)
    requires total >= 1 + inodeBitmap + InodeBlocks(inodeBitmap)
    ensures l.DataStart() + l.dataArea == total
  {
    var dataTotal := total - 1 - (inodeBitmap + InodeBlocks(inodeBitmap));
    var dataBitmap := (dataTotal + 4096) / 4097;
    Layout(inodeBitmap, InodeBlocks(inodeBitmap), dataBitmap, dataTotal - dataBitmap)
  }

  function InodeBlocks(inodeBitmap: nat): nat {
    (inodeBitmap * BLOCK_BITS * INODE_SIZE + 511) / 512
  }

  /** The data bitmap has a bit for every data block, and with a block less it would not; the inode area
      has a slot for every bit of the inode bitmap. */
  lemma BitmapsCover(total: nat, inodeBitmap: nat)
    requires total >= 1 + inodeBitmap + InodeBlocks(inodeBitmap)
    ensures var l := Create(total, inodeBitmap);
            && l.dataArea <= BLOCK_BITS * l.dataBitmap
            && (l.dataBitmap > 0 ==> BLOCK_BITS * (l.dataBitmap - 1) <= l.dataArea)
            && 512 * l.inodeArea == INODE_SIZE * (BLOCK_BITS * l.inodeBitmap)
  {
    var l := Create(total, inodeBitmap);
    var d := l.dataBitmap + l.dataArea;
    assert l.dataBitmap == (d + 4096) / 4097;
    assert 4097 * l.dataBitmap <= d + 4096 < 4097 * l.dataBitmap + 4097;
  }

  /** `get_disk_inode_pos` */
  function InodePos(l: Layout, id: nat): (nat, nat) {
    (l.InodeStart() + id / 4, id % 4 * INODE_SIZE)
  }

  /** Every inode has a slot of its own inside the inode area. */
  lemma InodeSlotsApart(total: nat, inodeBitmap: nat, i: nat, j: nat)
    requires total >= 1 + inodeBitmap + InodeBlocks(inodeBitmap)
    requires i < BLOCK_BITS * inodeBitmap && j < BLOCK_BITS * inodeBitmap && i != j
    ensures var l := Create(total, inodeBitmap);
            var ((b, o), (c, p)) := (InodePos(l, i), InodePos(l, j));
            && l.InodeStart() <= b < l.DataBitmapStart() && o + INODE_SIZE <= 512
            && (b == c ==> o + INODE_SIZE <= p || p + INODE_SIZE <= o)
  {
    BitmapsCover(total, inodeBitmap);
    assert i == 4 * (i / 4) + i % 4 && j == 4 * (j / 4) + j % 4;
    assert i / 4 == j / 4 ==> i % 4 != j % 4;
  }
}
