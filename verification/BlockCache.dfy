/**
 The block cache of easy-fs: at most sixteen entries in a queue, each with the handles its users hold.
 An entry that is dropped is written back if it was modified.
 */
module BlockCache {
  import opened Lists
  import opened EfsMap

  const CACHE_SIZE: nat := 16

  datatype Entry = Entry(id: nat, cache: seq<nat>, modified: bool, handles: nat)

  /** The position of a block in the queue, or its length. */
  function Find(queue: seq<Entry>, id: nat): (k: nat)
    ensures k <= |queue| && (k < |queue| ==> queue[k].id == id) && forall i :: 0 <= i < k ==> queue[i].id != id
  {
    if queue == [] then 0 else if queue[0].id == id then 0 else Find(queue[1..], id) + 1
  }

  ghost predicate Unique(queue: seq<Entry>) {
    forall i, j :: 0 <= i < j < |queue| ==> queue[i].id != queue[j].id
  }

  ghost predicate CacheOk(queue: seq<Entry>, device: seq<seq<nat>>) {
    && |queue| <= CACHE_SIZE && Unique(queue)
    && (forall i :: 0 <= i < |queue| ==>
          && queue[i].id < |device| && |queue[i].cache| == BLOCK_SZ
          && (!queue[i].modified ==> queue[i].cache == device[queue[i].id]))
    && (forall b :: 0 <= b < |device| ==> |device[b]| == BLOCK_SZ)
  }

  /** What a reader of block `b` gets: the cached block, or else that on the device. */
  function BlockAt(queue: seq<Entry>, device: seq<seq<nat>>, b: nat): seq<nat>
    requires b < |device|
  {
    if Find(queue, b) < |queue| then queue[Find(queue, b)].cache else device[b]
  }

  /** The disk as its users see it. */
  function Logical(queue: seq<Entry>, device: seq<seq<nat>>): (r: seq<seq<nat>>)
    ensures |r| == |device| && forall b :: 0 <= b < |device| ==> r[b] == BlockAt(queue, device, b)
  {
    seq(|device|, b requires 0 <= b < |device| => BlockAt(queue, device, b))
  }

  lemma FindUnique(queue: seq<Entry>, k: nat)
    requires Unique(queue) && k < |queue|
    ensures Find(queue, queue[k].id) == k
  {
  }

  /** The device after an entry is written back. */
  function Synced(device: seq<seq<nat>>, e: Entry): (r: seq<seq<nat>>)
    requires e.id < |device|
    ensures |r| == |device|
  {
    if e.modified then device[e.id := e.cache] else device
  }

  function Without(queue: seq<Entry>, k: nat): seq<Entry>
    requires k < |queue|
  {
    queue[..k] + queue[k + 1..]
  }

  lemma DroppedOk(queue: seq<Entry>, device: seq<seq<nat>>, k: nat)
    requires CacheOk(queue, device) && k < |queue|
    ensures CacheOk(Without(queue, k), Synced(device, queue[k]))
  {
    var queue' := Without(queue, k);
    forall i | 0 <= i < |queue'| ensures queue'[i] == queue[if i < k then i else i + 1] {}
  }

  /** A block that was not cached, or only as the entry dropped, is not cached then. */
  lemma DroppedFind(queue: seq<Entry>, k: nat, id: nat)
    requires Unique(queue) && k < |queue| && (Find(queue, id) == |queue| || queue[k].id == id)
    ensures Find(Without(queue, k), id) == |Without(queue, k)|
  {
    var queue' := Without(queue, k);
    forall i | 0 <= i < |queue'| ensures queue'[i].id != id { assert queue'[i] == queue[if i < k then i else i + 1]; }
  }

  /** Dropping an entry, which writes it back, changes nothing for the users. */
  lemma Dropped(queue: seq<Entry>, device: seq<seq<nat>>, k: nat)
    requires CacheOk(queue, device) && k < |queue|
    ensures CacheOk(Without(queue, k), Synced(device, queue[k]))
    ensures Logical(Without(queue, k), Synced(device, queue[k])) == Logical(queue, device)
    ensures forall id :: Find(queue, id) == |queue| ==> Find(Without(queue, k), id) == |Without(queue, k)|
  {
    DroppedOk(queue, device, k);
    forall b: nat | b < |device|
      ensures BlockAt(Without(queue, k), Synced(device, queue[k]), b) == BlockAt(queue, device, b)
    {
      DroppedAt(queue, device, k, b);
    }
    forall id | Find(queue, id) == |queue| ensures Find(Without(queue, k), id) == |Without(queue, k)| {
      DroppedFind(queue, k, id);
    }
  }

  lemma DroppedAt(queue: seq<Entry>, device: seq<seq<nat>>, k: nat, b: nat)
    requires CacheOk(queue, device) && k < |queue| && b < |device|
    ensures BlockAt(Without(queue, k), Synced(device, queue[k]), b) == BlockAt(queue, device, b)
  {
    var (queue', f) := (Without(queue, k), Find(queue, b));
    FindUnique(queue, k);
    if f < |queue| && f != k {
      var f' := if f < k then f else f - 1;
      assert queue'[f'] == queue[f];
      DroppedOk(queue, device, k);
      FindUnique(queue', f');
    } else {
      DroppedFind(queue, k, b);
    }
  }

  /** Loading a block that is not cached changes nothing for the users. */
  lemma Loaded(queue: seq<Entry>, device: seq<seq<nat>>, e: Entry)
    requires CacheOk(queue, device) && |queue| < CACHE_SIZE && Find(queue, e.id) == |queue|
    requires e.id < |device| && e.cache == device[e.id] && !e.modified
    ensures CacheOk(queue + [e], device) && Logical(queue + [e], device) == Logical(queue, device)
    ensures Find(queue + [e], e.id) == |queue|
  {
    forall b: nat | b < |device| ensures BlockAt(queue + [e], device, b) == BlockAt(queue, device, b) {
      FindAppended(queue, e, b);
    }
    FindAppended(queue, e, e.id);
  }

  lemma {:induction false} FindAppended(queue: seq<Entry>, e: Entry, id: nat)
    ensures Find(queue + [e], id) ==
            if Find(queue, id) < |queue| then Find(queue, id) else if e.id == id then |queue| else |queue| + 1
  {
    if queue == [] {
      assert queue + [e] == [e];
    } else {
      assert (queue + [e])[1..] == queue[1..] + [e];
      FindAppended(queue[1..], e, id);
    }
  }

  /** Changing one entry changes its own block only. */
  lemma Updated(queue: seq<Entry>, device: seq<seq<nat>>, k: nat, e: Entry)
    requires CacheOk(queue, device) && k < |queue| && e.id == queue[k].id && |e.cache| == BLOCK_SZ
    requires !e.modified ==> e.cache == device[e.id]
    ensures CacheOk(queue[k := e], device) && Logical(queue[k := e], device) == Logical(queue, device)[e.id := e.cache]
    ensures forall id :: Find(queue[k := e], id) == Find(queue, id)
  {
    forall id ensures Find(queue[k := e], id) == Find(queue, id) { FindSame(queue, queue[k := e], id); }
    FindUnique(queue, k);
  }

  lemma {:induction false} FindSame(queue: seq<Entry>, queue': seq<Entry>, id: nat)
    requires |queue'| == |queue| && forall i :: 0 <= i < |queue| ==> queue'[i].id == queue[i].id
    ensures Find(queue', id) == Find(queue, id)
  {
    if queue != [] { FindSame(queue[1..], queue'[1..], id); }
  }

  /** The entries in use, but for that of block `id`, are still there. */
  ghost predicate StillHeld(before: seq<Entry>, after: seq<Entry>, id: nat) {
    forall i :: 0 <= i < |before| && before[i].handles > 0 && before[i].id != id ==> before[i] in after
  }

  lemma HeldUpdate(before: seq<Entry>, queue: seq<Entry>, id: nat, k: nat, e: Entry)
    requires StillHeld(before, queue, id) && k < |queue| && queue[k].id == id
    ensures StillHeld(before, queue[k := e], id)
  {
    forall i | 0 <= i < |before| && before[i].handles > 0 && before[i].id != id ensures before[i] in queue[k := e] {
      var j :| 0 <= j < |queue| && queue[j] == before[i];
      assert queue[k := e][j] == queue[j];
    }
  }

  class BlockCacheManager {
    var queue: seq<Entry>
    var device: seq<seq<nat>>

    ghost predicate Valid()
      reads this
    {
      CacheOk(queue, device)
    }

    ghost function Disk(): (r: seq<seq<nat>>)
      reads this
      ensures |r| == |device|
    {
      Logical(queue, device)
    }

    constructor (device: seq<seq<nat>>)
      requires forall b :: 0 <= b < |device| ==> |device[b]| == BLOCK_SZ
      ensures Valid() && queue == [] && this.device == device && Disk() == device
    {
      queue, this.device := [], device;
    }

    /** The first entry, from the front, that only the queue refers to. */
    method FindUnpinned() returns (k: nat)
      ensures k <= |queue| && (k < |queue| ==> queue[k].handles == 0)
      ensures forall i :: 0 <= i < k ==> queue[i].handles > 0
    {
      k := 0;
      while k < |queue| && queue[k].handles > 0
        invariant k <= |queue| && forall i :: 0 <= i < k ==> queue[i].handles > 0
      {
        k := k + 1;
      }
    }

    /** Makes room in a full queue; fails, where the code panics, when every entry is in use. */
    method MakeRoom() returns (ok: bool, ghost k: nat)
      requires Valid()
      modifies this
      ensures Valid() && Disk() == old(Disk())
      ensures |old(queue)| < CACHE_SIZE ==> queue == old(queue) && device == old(device)
      ensures ok && |old(queue)| == CACHE_SIZE ==>
                && k < |old(queue)| && old(queue)[k].handles == 0 && queue == Without(old(queue), k)
                && forall i :: 0 <= i < k ==> old(queue)[i].handles > 0
      ensures ok <==> |old(queue)| < CACHE_SIZE || exists i :: 0 <= i < |old(queue)| && old(queue)[i].handles == 0
      ensures !ok ==> queue == old(queue) && device == old(device)
      ensures ok ==> |queue| < CACHE_SIZE
      ensures forall id :: Find(old(queue), id) == |old(queue)| ==> Find(queue, id) == |queue|
      ensures forall id :: StillHeld(old(queue), queue, id)
    {
      if |queue| < CACHE_SIZE { return true, 0; }
      var u := FindUnpinned();
      if u == |queue| { return false, 0; }
      Dropped(queue, device, u);
      forall i | 0 <= i < |queue| && i != u ensures queue[i] in Without(queue, u) {
        assert queue[i] == Without(queue, u)[if i < u then i else i - 1];
      }
      device, queue := Synced(device, queue[u]), Without(queue, u);
      return true, u;
    }

    /** Loads a block that is not cached, if there is room for it. */
    method Load(id: nat) returns (ok: bool)
      requires Valid() && id < |device| && Find(queue, id) == |queue|
      modifies this
      ensures Valid() && Disk() == old(Disk())
      ensures ok <==> |old(queue)| < CACHE_SIZE || exists i :: 0 <= i < |old(queue)| && old(queue)[i].handles == 0
      ensures ok ==> queue != [] && queue[|queue| - 1] == Entry(id, old(Disk())[id], false, 0)
      ensures !ok ==> queue == old(queue) && device == old(device)
      ensures StillHeld(old(queue), queue, id)
    {
      ghost var victim;
      ok, victim := MakeRoom();
      if !ok { return; }
      var e := Entry(id, device[id], false, 0);
      Loaded(queue, device, e);
      queue := queue + [e];
    }

    /** `get_block_cache`: a handle to the one entry of a block, loaded if need be. */
    method GetBlockCache(id: nat) returns (ok: bool)
      requires Valid() && id < |device|
      modifies this
      ensures Valid() && Disk() == old(Disk())
      ensures ok <==> Find(old(queue), id) < |old(queue)| || |old(queue)| < CACHE_SIZE
                      || exists i :: 0 <= i < |old(queue)| && old(queue)[i].handles == 0
      ensures ok ==> Find(queue, id) < |queue| && queue[Find(queue, id)].handles > 0
      ensures var k := Find(old(queue), id);
              if k < |old(queue)| then queue == old(queue)[k := old(queue)[k].(handles := old(queue)[k].handles + 1)]
              else ok ==> queue != [] && queue[|queue| - 1] == Entry(id, old(Disk())[id], false, 1)
      ensures !ok ==> queue == old(queue) && device == old(device)
      ensures StillHeld(old(queue), queue, id)
    {
      var k := Find(queue, id);
      if k == |queue| {
        ok := Load(id);
        if !ok { return; }
        k := |queue| - 1;
      }
      var e := queue[k];
      Updated(queue, device, k, e.(handles := e.handles + 1));
      HeldUpdate(old(queue), queue, id, k, e.(handles := e.handles + 1));
      queue := queue[k := e.(handles := e.handles + 1)];
      ok := true;
    }

    /** A handle is dropped. */
    method Release(id: nat)
      requires Valid() && Find(queue, id) < |queue| && queue[Find(queue, id)].handles > 0
      modifies this
      ensures Valid() && Disk() == old(Disk()) && device == old(device)
      ensures var k := Find(old(queue), id);
              queue == old(queue)[k := old(queue)[k].(handles := old(queue)[k].handles - 1)]
    {
      var k := Find(queue, id);
      var e := queue[k];
      Updated(queue, device, k, e.(handles := e.handles - 1));
      queue := queue[k := e.(handles := e.handles - 1)];
    }

    /** `modify` through a handle: the bytes from `offset` on are replaced, in this block only. */
    method Modify(id: nat, offset: nat, bytes: seq<nat>)
      requires Valid() && Find(queue, id) < |queue| && queue[Find(queue, id)].handles > 0 && offset + |bytes| <= BLOCK_SZ
      modifies this
      ensures Valid() && device == old(device) && Find(queue, id) == Find(old(queue), id) < |queue|
      ensures id < |device| && |old(Disk())[id]| == BLOCK_SZ
      ensures Disk() == old(Disk())[id := Splice(old(Disk())[id], offset, bytes)]
    {
      var k := Find(queue, id);
      var e := queue[k].(cache := Splice(queue[k].cache, offset, bytes), modified := true);
      Updated(queue, device, k, e);
      queue := queue[k := e];
    }

    /** `block_cache_sync_all`: afterwards the device is what the users see. */
    method SyncAll()
      requires Valid()
      modifies this
      ensures Valid() && Disk() == old(Disk()) && device == Disk()
    {
      var k := 0;
      while k < |queue|
        invariant k <= |queue| && Valid() && Disk() == old(Disk())
        invariant forall i :: 0 <= i < k ==> !queue[i].modified
      {
        SyncOne(k);
        k := k + 1;
      }
      assert forall b :: 0 <= b < |device| ==> BlockAt(queue, device, b) == device[b];
    }

    /** `sync` of one entry. */
    method SyncOne(k: nat)
      requires Valid() && k < |queue|
      modifies this
      ensures Valid() && Disk() == old(Disk()) && |queue| == |old(queue)|
      ensures queue == old(queue)[k := old(queue)[k].(modified := false)]
    {
      var e := queue[k];
      if e.modified {
        WrittenBack(queue, device, k);
        queue := queue[k := e.(modified := false)];
        device := device[e.id := e.cache];
      }
    }
  }

  lemma WrittenBack(queue: seq<Entry>, device: seq<seq<nat>>, k: nat)
    requires CacheOk(queue, device) && k < |queue|
    ensures var (queue', device') := (queue[k := queue[k].(modified := false)], device[queue[k].id := queue[k].cache]);
            CacheOk(queue', device') && Logical(queue', device') == Logical(queue, device)
  {
    var (queue', device') := (queue[k := queue[k].(modified := false)], device[queue[k].id := queue[k].cache]);
    FindUnique(queue, k);
    forall b: nat | b < |device| ensures BlockAt(queue', device', b) == BlockAt(queue, device, b) { FindSame(queue, queue', b); }
  }
}
