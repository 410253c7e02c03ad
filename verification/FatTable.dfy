/**
 Cluster allocation and freeing of the FAT list manager.  The unit cache is seen as the plain table it
 refines (lemma `WriteBackTheorems.CacheRefinesArray`); loading a unit or making its buffer writable may
 fail at any call, as `fault` decides.
 */
module FatTable {
  import opened Basics
  import opened FatChain

  datatype Error = ENOSPC | EIO

  /** Outcome of a `free_cluster_at`: all freed, out of semaphore units, or an error. */
  datatype Outcome = Finished | Exhausted | Failed(error: Error)

  /** One of the fallible operations from the `from`-th on, up to the `to`-th, fails. */
  ghost predicate Faults(fault: nat -> bool, from: nat, to: nat) {
    exists n :: from <= n < to && fault(n)
  }

  /** No free entry `c` of the table with `lo <= c < hi`. */
  ghost predicate NoneFree(fat: seq<nat>, max: nat, lo: nat, hi: nat) {
    forall c :: lo <= c < hi && c < max && c < |fat| ==> fat[c] != FREE
  }

  /** Searched so far: the units from `first` on, around the end of the table, up to unit `uid`. */
  ghost predicate Scanned(fat: seq<nat>, max: nat, per: nat, first: nat, uid: nat, wrapped: bool) {
    if !wrapped then first <= uid && NoneFree(fat, max, Times(first, per), Times(uid, per))
    else uid < first && NoneFree(fat, max, Times(first, per), max) && NoneFree(fat, max, 0, Times(uid, per))
  }

  /** `c`, in unit `uid`, is the first free entry of its unit, and no unit searched before has one. */
  ghost predicate NextFit(fat: seq<nat>, max: nat, per: nat, first: nat, uid: nat, c: nat) {
    && NoneFree(fat, max, Times(uid, per), c)
    && (Scanned(fat, max, per, first, uid, false) || Scanned(fat, max, per, first, uid, true))
  }

  /** Going on from a unit without free entries: a whole round would contradict the free count. */
  lemma NextUnit(fat: seq<nat>, max: nat, per: nat, first: nat, uid: nat, wrapped: bool)
    returns (uid': nat, wrapped': bool)
    requires max <= |fat| && per > 0 && CountFree(fat, max) > 0 && Scanned(fat, max, per, first, uid, wrapped)
    requires Times(uid, per) < max && Times(first, per) < max
    requires NoneFree(fat, max, Times(uid, per), Times(uid, per) + per)
    ensures if Times(uid + 1, per) >= max then uid' == 0 && wrapped' && !wrapped && first > 0
            else uid' == uid + 1 && wrapped' == wrapped
    ensures Scanned(fat, max, per, first, uid', wrapped') && uid < max && Times(uid', per) < max
  {
    TimesAtLeast(uid, per);
    uid', wrapped' := uid + 1, wrapped;
    if wrapped {
      if uid + 1 != first { TimesBelow(uid + 1, first, per); }
      assert uid + 1 != first || NoneFree(fat, max, 0, max);
    } else if Times(uid + 1, per) >= max {
      assert NoneFree(fat, max, Times(first, per), max);
      assert first != 0 || NoneFree(fat, max, 0, max);
      uid', wrapped' := 0, true;
    }
    CountFreeZero(fat, max);
  }

  /** Entries 0 and 1 are not free, entries are in range, and the free count is right. */
  ghost predicate TableOk(fat: seq<nat>, max: nat, free: nat) {
    && 0 < max <= NEXT_BOUND && max <= |fat|
    && 2 <= |fat| && fat[0] != FREE && fat[1] != FREE
    && (forall c :: 0 <= c < |fat| ==> fat[c] < ENTRY_BOUND)
    && free == CountFree(fat, max)
  }

  lemma TableAfterAlloc(fat: seq<nat>, max: nat, free: nat, c: nat)
    requires TableOk(fat, max, free) && c < max && fat[c] == FREE
    ensures free >= 1 && TableOk(fat[c := LAST], max, free - 1) && IsNext(c)
  {
    CountFreeUpdate(fat, c, LAST, max);
  }

  lemma TableAfterLink(fat: seq<nat>, max: nat, free: nat, cid: nat, c: nat)
    requires TableOk(fat, max, free) && cid < |fat| && fat[cid] != FREE && IsNext(c)
    ensures TableOk(fat[cid := c], max, free)
  {
    CountFreeUpdate(fat, cid, c, max);
  }

  /** A new cluster is linked behind a chain. */
  lemma LinkedBehind(fat: seq<nat>, max: nat, free: nat, chains: seq<seq<nat>>, i: nat, c: nat)
    requires Forest(fat, max, chains) && i < |chains| && chains[i] != [] && c < max && IsNext(c) && fat[c] == FREE
    requires TableOk(fat[c := LAST], max, free)
    ensures var last := chains[i][|chains[i]| - 1];
            && TableOk(fat[c := LAST][last := c], max, free)
            && Forest(fat[c := LAST][last := c], max, chains[i := chains[i] + [c]])
            && (chains + [[c]])[..|chains|] == chains
  {
    var last := chains[i][|chains[i]| - 1];
    ForestAfterExtend(fat, max, chains, i, c);
    ChainUsed(fat, chains[i], |chains[i]| - 1);
    TableAfterLink(fat[c := LAST], max, free, last, c);
  }

  /** The free count stays right just when a used data cluster is freed. */
  lemma TableAfterFree(fat: seq<nat>, max: nat, free: nat, cid: nat)
    requires TableOk(fat, max, free) && cid < |fat|
    ensures TableOk(fat[cid := FREE], max, free + 1) <==> 2 <= cid < max && fat[cid] != FREE
  {
    CountFreeUpdate(fat, cid, FREE, max);
  }

  lemma TableAfterTruncate(fat: seq<nat>, max: nat, free: nat, q: seq<nat>, m: nat)
    requires TableOk(fat, max, free) && Chain(fat, q) && m < |q| && forall i :: 0 <= i < |q| ==> q[i] < max
    ensures TableOk(Truncated(fat, q, m), max, free + m)
  {
    TruncatedCount(fat, q, m, max);
    FreedEntries(fat, q[1..m + 1]);
    assert 0 !in q[1..m + 1] && 1 !in q[1..m + 1];
  }

  /** The chain collection after cutting `m` clusters behind position `k` of chain `i`. */
  function Cut(chains: seq<seq<nat>>, i: nat, k: nat, m: nat): seq<seq<nat>>
    requires i < |chains| && k + m < |chains[i]|
  {
    chains[i := chains[i][..k + 1] + chains[i][k + 1 + m..]]
  }

  lemma ForestAfterCut(fat: seq<nat>, max: nat, chains: seq<seq<nat>>, i: nat, k: nat, m: nat)
    requires Forest(fat, max, chains) && i < |chains| && k + m < |chains[i]|
    ensures Chain(fat, chains[i][k..]) && Forest(Truncated(fat, chains[i][k..], m), max, Cut(chains, i, k, m))
  {
    var (p, q) := (chains[i], chains[i][k..]);
    var r := p[..k + 1] + p[k + 1 + m..];
    CutChain(fat, p, k, m);
    forall c | 0 <= c < |fat| && c !in p ensures Truncated(fat, q, m)[c] == fat[c] { CutElsewhere(fat, p, k, m, c); }
    CutIsWithin(p, k, m);
    ForestAfterShrink(fat, Truncated(fat, q, m), max, chains, i, r);
  }

  lemma CutIsWithin(p: seq<nat>, k: nat, m: nat)
    requires k + m < |p|
    ensures var r := p[..k + 1] + p[k + 1 + m..]; forall j :: 0 <= j < |r| ==> r[j] in p
  {
    var r := p[..k + 1] + p[k + 1 + m..];
    forall j | 0 <= j < |r| ensures r[j] in p { assert r[j] == p[if j <= k then j else j + m]; }
  }

  lemma CutElsewhere(fat: seq<nat>, p: seq<nat>, k: nat, m: nat, c: nat)
    requires k + m < |p| && Chain(fat, p[k..]) && c < |fat| && c !in p
    ensures Truncated(fat, p[k..], m)[c] == fat[c]
  {
    TruncatedEntries(fat, p[k..], m);
    assert c !in p[k..][..m + 1];
  }

  /** The chain behind the head, as `FreeTail` wants it. */
  lemma TailOf(fat: seq<nat>, q: seq<nat>)
    requires Chain(fat, q)
    ensures if IsNext(fat[q[0]]) then Chain(fat, q[1..]) && q[1..][0] == fat[q[0]] else q[1..] == []
  {
    if |q| > 1 { ChainSuffix(fat, q, 1); }
  }

  /** Relinking the head after `FreeTail` stopped. */
  lemma Relinked(fat: seq<nat>, max: nat, free: nat, q: seq<nat>, n: nat)
    requires TableOk(fat, max, free) && Chain(fat, q) && n < |q| && forall i :: 0 <= i < |q| ==> q[i] < max
    ensures Freed(fat, q[1..][..n])[q[0] := if n == |q[1..]| then LAST else q[1..][n]] == Truncated(fat, q, n)
    ensures TableOk(Truncated(fat, q, n), max, free + n)
  {
    assert q[1..][..n] == q[1..n + 1];
    TableAfterTruncate(fat, max, free, q, n);
  }

  lemma HeadAndTail(q: seq<nat>, n: nat)
    requires n < |q|
    ensures q[..n + 1] == [q[0]] + q[1..][..n]
  {
  }

  lemma CutKeepsAll(fat: seq<nat>, max: nat, chains: seq<seq<nat>>, i: nat, k: nat, m: nat)
    requires Forest(fat, max, chains) && i < |chains| && k + m < |chains[i]|
    ensures Chain(fat, chains[i][k..]) && (forall j :: 0 <= j < |chains[i][k..]| ==> chains[i][k..][j] < max)
    ensures Forest(Truncated(fat, chains[i][k..], m), max, Cut(chains, i, k, m))
  {
    ForestAfterCut(fat, max, chains, i, k, m);
    forall j | 0 <= j < |chains[i][k..]| ensures chains[i][k..][j] < max { assert chains[i][k..][j] == chains[i][k + j]; }
  }

  lemma CutNothing(chains: seq<seq<nat>>, i: nat, k: nat)
    requires i < |chains| && k < |chains[i]|
    ensures Cut(chains, i, k, 0) == chains
  {
    assert chains[i][..k + 1] + chains[i][k + 1..] == chains[i];
  }

  class ListManager {
    const maxCid: nat          // entries at and above this are ignored
    const perUnit: nat         // entries in one sector: 1 << u32_per_sector_log2
    const fault: nat -> bool   // does the n-th fallible operation fail?

    var fat: seq<nat>
    var clusterFree: nat
    var clusterSearch: nat
    var dirty: set<nat>        // units waiting for the sync task
    var clock: nat             // fallible operations so far
    ghost var chains: seq<seq<nat>> // the chain of each file, empty if it has no clusters

    ghost predicate Table()
      reads this`fat, this`clusterFree
    {
      0 < perUnit && TableOk(fat, maxCid, clusterFree)
    }

    /** And the files' chains are acyclic (`ChainIsAcyclic`) and pairwise disjoint. */
    ghost predicate Valid()
      reads this`fat, this`clusterFree, this`clusterSearch, this`chains
    {
      Table() && clusterSearch < maxCid && Forest(fat, maxCid, chains)
    }

    /** `init`: FSInfo must tell the truth about the table. */
    constructor (fat: seq<nat>, maxCid: nat, perUnit: nat, free: nat, next: nat, fault: nat -> bool,
                 ghost chains: seq<seq<nat>>)
      requires 0 < perUnit && 0 < maxCid <= NEXT_BOUND && maxCid <= |fat| && Forest(fat, maxCid, chains)
      requires 2 <= |fat| && fat[0] != FREE && fat[1] != FREE
      requires forall c :: 0 <= c < |fat| ==> fat[c] < ENTRY_BOUND
      requires free == CountFree(fat, maxCid) && next < maxCid
      ensures Valid() && this.fat == fat && this.maxCid == maxCid && this.perUnit == perUnit && clusterFree == free
      ensures this.chains == chains && this.fault == fault && clock == 0
    {
      this.fat, this.maxCid, this.perUnit, this.fault := fat, maxCid, perUnit, fault;
      clusterFree, clusterSearch, dirty, clock, this.chains := free, next, {}, 0, chains;
    }

    /** `get_unit_of_cid` */
    function UnitOf(cid: nat): nat
      requires perUnit > 0
    {
      cid / perUnit
    }

    /** A call that may fail: loading a unit, or copying a shared buffer before a write. */
    method Try() returns (ok: bool)
      modifies this`clock
      ensures ok == !fault(old(clock)) && clock == old(clock) + 1
    {
      ok := !fault(clock);
      clock := clock + 1;
    }

    /** Loads a unit and makes its buffer writable. */
    method OwnUnit() returns (ok: bool)
      modifies this`clock
      ensures clock > old(clock) && (ok <==> !Faults(fault, old(clock), clock))
      ensures ok ==> clock == old(clock) + 2
    {
      ok := Try();
      if ok { ok := Try(); }
    }

    /** `unit_into_dirty`: a unit that was clean takes one semaphore unit. */
    method UnitIntoDirty(uid: nat, sems: nat) returns (left: nat)
      requires sems >= 1
      modifies this`dirty
      ensures dirty == old(dirty) + {uid}
      ensures left == if uid in old(dirty) then sems else sems - 1
    {
      if uid in dirty {
        left := sems;
      } else {
        dirty := dirty + {uid};
        left := sems - 1;
      }
    }

    /** The scan of one unit in `alloc_cluster`. */
    method ScanUnit(uid: nat) returns (found: Option<nat>)
      requires Valid() && Times(uid, perUnit) < maxCid
      ensures found.None? ==> NoneFree(fat, maxCid, Times(uid, perUnit), Times(uid, perUnit) + perUnit)
      ensures found.Some? ==>
                var c := Times(uid, perUnit) + found.value;
                found.value < perUnit && c < maxCid && fat[c] == FREE && NoneFree(fat, maxCid, Times(uid, perUnit), c)
    {
      var base := Times(uid, perUnit);
      found := None;
      var off := 0;
      while off < perUnit
        invariant off <= perUnit
        invariant NoneFree(fat, maxCid, base, base + off)
      {
        if base + off >= maxCid { return; }
        if fat[base + off] == FREE { return Some(off); }
        off := off + 1;
      }
    }

    /** Moves the search to the next unit, around the end of the table. */
    method NextSearched(ghost first: nat, uid: nat, ghost wrapped: bool) returns (uid': nat, ghost wrapped': bool)
      requires Table() && clusterFree > 0 && Scanned(fat, maxCid, perUnit, first, uid, wrapped)
      requires Times(uid, perUnit) < maxCid && Times(first, perUnit) < maxCid
      requires NoneFree(fat, maxCid, Times(uid, perUnit), Times(uid, perUnit) + perUnit)
      modifies this`clusterSearch
      ensures clusterSearch == Times(uid', perUnit) < maxCid
      ensures Scanned(fat, maxCid, perUnit, first, uid', wrapped') && uid < maxCid
      ensures (uid' == uid + 1 && wrapped' == wrapped) || (uid' == 0 && wrapped' && !wrapped && first > 0)
    {
      ghost var u, w := NextUnit(fat, maxCid, perUnit, first, uid, wrapped);
      uid', wrapped' := uid + 1, w;
      if Times(uid', perUnit) >= maxCid {
        uid' := 0;
      }
      clusterSearch := Times(uid', perUnit);
    }

    /** The wrap-around search of `alloc_cluster`, from unit `first`, that of `cluster_search`. */
    method FindFree(first: nat) returns (r: Result<(nat, nat), Error>)
      requires Valid() && clusterFree > 0
      requires Times(first, perUnit) <= clusterSearch < Times(first, perUnit) + perUnit
      modifies this`clusterSearch, this`clock
      ensures Valid()
      ensures clock > old(clock) && (r == Failure(EIO) <==> Faults(fault, old(clock), clock))
      ensures r.Failure? ==> r.error == EIO
      ensures r.Success? ==>
                var (uid, off) := r.value; var c := Times(uid, perUnit) + off;
                && off < perUnit && c < maxCid && fat[c] == FREE
                && Times(uid, perUnit) <= clusterSearch < Times(uid, perUnit) + perUnit
                && NextFit(fat, maxCid, perUnit, first, uid, c)
    {
      var uid := first;
      ghost var wrapped := false;
      var ok := Try();
      if !ok { return Failure(EIO); }
      var cnt := 0;
      while true
        invariant Times(uid, perUnit) < maxCid && clusterSearch < maxCid
        invariant Times(uid, perUnit) <= clusterSearch < Times(uid, perUnit) + perUnit
        invariant Scanned(fat, maxCid, perUnit, first, uid, wrapped) && Times(first, perUnit) < maxCid
        invariant cnt == if uid > 0 && (wrapped || first == 0) then 1 else 0
        invariant clock > old(clock) && !Faults(fault, old(clock), clock)
        decreases !wrapped, maxCid - uid
      {
        if uid == 0 {
          assert cnt != 2; // the panic for a wrong FSInfo is not reached
          cnt := cnt + 1;
        }
        var found := ScanUnit(uid);
        if found.Some? { return Success((uid, found.value)); }
        uid, wrapped := NextSearched(first, uid, wrapped);
        ok := Try();
        if !ok { return Failure(EIO); }
      }
    }

    /** The free entry at `off` in unit `uid` becomes a chain of one cluster. */
    method TakeEntry(uid: nat, off: nat) returns (c: nat)
      requires Valid() && off < perUnit && Times(uid, perUnit) + off < maxCid && fat[Times(uid, perUnit) + off] == FREE
      modifies this`fat, this`chains, this`clusterFree, this`dirty
      ensures Valid() && c == Times(uid, perUnit) + off && IsNext(c) && UnitOf(c) == uid
      ensures fat == old(fat)[c := LAST] && chains == old(chains) + [[c]]
      ensures clusterFree == old(clusterFree) - 1 && dirty == old(dirty) + {uid}
    {
      c := Times(uid, perUnit) + off;
      TimesUnique(c, uid, perUnit);
      TableAfterAlloc(fat, maxCid, clusterFree, c);
      ForestAfterAlloc(fat, maxCid, chains, c);
      fat, chains := fat[c := LAST], chains + [[c]];
      clusterFree := clusterFree - 1;
      var _ := UnitIntoDirty(uid, 1);
    }

    method AllocCluster() returns (r: Result<nat, Error>)
      requires Valid()
      modifies this
      ensures Valid()
      ensures r.Failure? ==>
                fat == old(fat) && clusterFree == old(clusterFree) && dirty == old(dirty) && chains == old(chains)
      ensures r == Failure(ENOSPC) <==> old(clusterFree) == 0
      ensures clock >= old(clock) && (r == Failure(EIO) <==> Faults(fault, old(clock), clock))
      ensures r.Success? ==>
                var c := r.value;
                && IsNext(c) && c < maxCid && old(fat)[c] == FREE
                && fat == old(fat)[c := LAST] && clusterFree == old(clusterFree) - 1 && chains == old(chains) + [[c]]
                && dirty == old(dirty) + {UnitOf(c)} && UnitOf(clusterSearch) == UnitOf(c)
                && NextFit(old(fat), maxCid, perUnit, UnitOf(old(clusterSearch)), UnitOf(c), c)
    {
      if clusterFree == 0 { return Failure(ENOSPC); }
      TimesDiv(clusterSearch, perUnit);
      var place := FindFree(UnitOf(clusterSearch));
      if place.Failure? { return Failure(place.error); }
      var (uid, off) := place.value;
      var ok := Try();
      if !ok { return Failure(EIO); }
      TimesUnique(clusterSearch, uid, perUnit);
      var c := TakeEntry(uid, off);
      r := Success(c);
    }

    /** Links a new cluster behind the last cluster of chain `i`. */
    method AllocClusterAfter(ghost i: nat, cid: nat) returns (r: Result<nat, Error>)
      requires Valid() && i < |chains| && chains[i] != [] && chains[i][|chains[i]| - 1] == cid
      modifies this
      ensures Valid()
      ensures r.Failure? ==> fat == old(fat) && clusterFree == old(clusterFree) && dirty == old(dirty) && chains == old(chains)
      ensures clock >= old(clock) + 1 && (r == Failure(EIO) <==> Faults(fault, old(clock), clock))
      ensures r == Failure(ENOSPC) <==> old(clusterFree) == 0 && !Faults(fault, old(clock), clock)
      ensures r.Success? ==>
                var c := r.value;
                && IsNext(c) && c < maxCid && old(fat)[c] == FREE && clusterFree == old(clusterFree) - 1
                && fat == old(fat)[c := LAST][cid := c]
                && chains == old(chains)[i := old(chains)[i] + [c]]
                && dirty == old(dirty) + {UnitOf(c), UnitOf(cid)}
    {
      var ok := OwnUnit();
      if !ok { return Failure(EIO); }
      r := AllocCluster();
      if r.Failure? { return; }
      var c := r.value;
      LinkedBehind(old(fat), maxCid, clusterFree, old(chains), i, c);
      ghost var files := chains[..|chains| - 1];
      fat, chains := fat[cid := c], files[i := files[i] + [c]];
      var _ := UnitIntoDirty(UnitOf(cid), 1);
    }

    /** `free_cluster`: frees any cluster of the table.  The free count stays right just when it was in
        use, and the file `i` it belonged to, if any, loses its chain; other chains stay. */
    method FreeCluster(ghost i: nat, cid: nat) returns (r: Result<(), Error>)
      requires Valid() && cid < |fat|
      modifies this
      ensures r.Failure? ==>
                fat == old(fat) && clusterFree == old(clusterFree) && dirty == old(dirty) && chains == old(chains) && Valid()
      ensures clock >= old(clock) && (r.Failure? <==> Faults(fault, old(clock), clock))
      ensures if r.Success? then clock == old(clock) + 2 else r.error == EIO
      ensures r.Success? ==>
                && fat == old(fat)[cid := FREE] && clusterFree == old(clusterFree) + 1
                && dirty == old(dirty) + {UnitOf(cid)}
                && (Table() <==> 2 <= cid < maxCid && old(fat)[cid] != FREE)
      ensures r.Success? && i < |old(chains)| && cid in old(chains)[i] ==> Valid() && chains == old(chains)[i := []]
    {
      var ok := OwnUnit();
      if !ok { return Failure(EIO); }
      TableAfterFree(fat, maxCid, clusterFree, cid);
      if i < |chains| && cid in chains[i] {
        ghost var j :| 0 <= j < |chains[i]| && chains[i][j] == cid;
        ChainUsed(fat, chains[i], j);
        ForestAfterRelease(fat, maxCid, chains, i, cid);
        chains := chains[i := []];
      }
      fat, clusterFree := fat[cid := FREE], clusterFree + 1;
      var _ := UnitIntoDirty(UnitOf(cid), 1);
      r := Success(());
    }

    /** The units of all clusters of `p` wait for the sync task, with those that did before. */
    ghost predicate Marked(p: seq<nat>, before: set<nat>)
      requires perUnit > 0
      reads this`dirty
    {
      before <= dirty && forall j :: 0 <= j < |p| ==> UnitOf(p[j]) in dirty
    }

    /** `free_cluster_at_impl`: frees the chain `p` that starts at `start`, front to back, until it is
        used up, the semaphore units are, or an operation fails.  The rest of the chain is intact. */
    method FreeTail(start: nat, sems: nat, ghost p: seq<nat>) returns (cid: nat, cnt: nat, left: nat, end: Outcome)
      requires perUnit > 0 && if IsNext(start) then Chain(fat, p) && p[0] == start else p == []
      modifies this`fat, this`dirty, this`clock
      ensures cnt <= |p| && fat == Freed(old(fat), p[..cnt])
      ensures end == Finished <==> cnt == |p|
      ensures end != Finished ==> cid == p[cnt]
      ensures end == Exhausted ==> left == 0 && cnt >= sems
      ensures end == Failed(EIO) || (!end.Failed? && clock == old(clock) + 2 * cnt)
      ensures clock >= old(clock) && (end.Failed? <==> Faults(fault, old(clock), clock))
      ensures left <= sems && Marked(p[..cnt], old(dirty))
    {
      cid, cnt, left := start, 0, sems;
      assert p[..0] == [];
      if p != [] { ChainIsAcyclic(fat, p); }
      while IsNext(cid)
        invariant cnt <= |p| && fat == Freed(old(fat), p[..cnt])
        invariant if cnt < |p| then cid == p[cnt] else !IsNext(cid)
        invariant left <= sems <= left + cnt && Marked(p[..cnt], old(dirty))
        invariant clock == old(clock) + 2 * cnt && !Faults(fault, old(clock), clock)
        decreases |p| - cnt
      {
        if left == 0 { return cid, cnt, left, Exhausted; }
        var ok := OwnUnit();
        if !ok { return cid, cnt, left, Failed(EIO); }
        FreedKeeps(old(fat), p, cnt);
        var next := fat[cid];
        FreedNext(old(fat), p, cnt);
        fat := fat[cid := FREE];
        left := UnitIntoDirty(UnitOf(cid), left);
        assert p[..cnt + 1] == p[..cnt] + [cid];
        cid, cnt := next, cnt + 1;
      }
      end := Finished;
    }

    /** Marks the unit of the head of `q` after those of the next `n` clusters. */
    method MarkHead(cid: nat, ghost q: seq<nat>, ghost n: nat, ghost before: set<nat>)
      requires perUnit > 0 && n < |q| && q[0] == cid && Marked(q[1..][..n], before)
      modifies this`dirty
      ensures Marked(q[..n + 1], before)
    {
      HeadAndTail(q, n);
      var _ := UnitIntoDirty(UnitOf(cid), 1);
    }

    /** `free_cluster_at` on the chain `q` from `cid` on: `n` clusters behind `cid` were freed. */
    method FreeBehind(cid: nat, sems: nat, ghost q: seq<nat>) returns (n: nat, end: Outcome)
      requires Table() && sems >= 2
      requires Chain(fat, q) && q[0] == cid && forall j :: 0 <= j < |q| ==> q[j] < maxCid
      modifies this`fat, this`clusterFree, this`dirty, this`clock
      ensures Table() && n < |q| && clusterFree == old(clusterFree) + n
      ensures fat == Truncated(old(fat), q, n) || (end.Failed? && n == 0 && fat == old(fat))
      ensures end == Finished ==> n + 1 == |q| && fat[cid] == LAST
      ensures end == Exhausted ==> n >= sems - 1 && n + 1 < |q|
      ensures end == Failed(EIO) || (!end.Failed? && clock == old(clock) + 2 * (n + 1))
      ensures clock >= old(clock) && (end.Failed? <==> Faults(fault, old(clock), clock))
      ensures old(dirty) <= dirty && (fat != old(fat) ==> Marked(q[..n + 1], old(dirty)))
    {
      var ok := OwnUnit();
      if !ok { return 0, Failed(EIO); }
      TailOf(fat, q);
      var rest, left;
      rest, n, left, end := FreeTail(fat[cid], sems - 1, q[1..]);
      Relinked(old(fat), maxCid, clusterFree, q, n);
      fat := fat[cid := if end == Finished then LAST else rest];
      clusterFree := clusterFree + n;
      MarkHead(cid, q, n, old(dirty));
    }

    /** Frees what follows position `k` (cluster `cid`) of chain `i`, as far as the semaphore units and
        the operations allow.  `n` clusters were freed, and the chain stays a chain. */
    method FreeClusterAt(ghost i: nat, ghost k: nat, cid: nat, sems: nat) returns (n: nat, end: Outcome)
      requires Valid() && i < |chains| && k < |chains[i]| && chains[i][k] == cid && sems >= 2
      modifies this
      ensures Valid()
      ensures k + n < |old(chains)[i]| && clusterFree == old(clusterFree) + n
      ensures chains == Cut(old(chains), i, k, n)
      ensures fat == Truncated(old(fat), old(chains)[i][k..], n) || (end.Failed? && n == 0 && fat == old(fat))
      ensures end == Finished ==> k + n + 1 == |old(chains)[i]| && fat[cid] == LAST
      ensures end == Exhausted ==> n >= sems - 1 && k + n + 1 < |old(chains)[i]|
      ensures end == Failed(EIO) || (!end.Failed? && clock == old(clock) + 2 * (n + 1))
      ensures clock >= old(clock) && (end.Failed? <==> Faults(fault, old(clock), clock))
      ensures old(dirty) <= dirty && (fat != old(fat) ==> Marked(old(chains)[i][k..][..n + 1], old(dirty)))
    {
      CutKeepsAll(fat, maxCid, chains, i, k, 0);
      n, end := FreeBehind(cid, sems, chains[i][k..]);
      CutKeepsAll(old(fat), maxCid, chains, i, k, n);
      CutNothing(chains, i, k);
      chains := Cut(chains, i, k, n);
    }
  }
}
