/** What an inode remembers of its FAT chain: a prefix, one later cluster, and the length. */
module InodeCache {
  import opened Basics
  import opened FatChain
  import opened FatTable
  import opened FatFiles

  // ----- Seeking along the chain -----

  /** How far a traversal has come, and the successors it has seen with their offsets. */
  datatype Seen = Seen(off: nat, cid: nat, saved: seq<(nat, nat)>)

  /** The closure that `get_nth_block_cid` (up to offset `n`) and `get_list_last` (to the end) pass to
      `travel`. */
  function Look(n: Option<nat>, prev: Seen, cid: nat, cur: nat): Flow<Seen, Seen> {
    var saved := prev.saved + [(cid, cur)];
    if !IsNext(cid) then Break(Seen(prev.off, prev.cid, saved))
    else if n == Some(cur) then Break(Seen(cur, cid, saved))
    else Continue(Seen(cur, cid, saved))
  }

  /** The clusters of `p` behind the first, up to position `b`, with their offsets. */
  function Marks(p: seq<nat>, off: nat, b: nat): (r: seq<(nat, nat)>)
    requires b < |p|
    ensures |r| == b && forall j :: 0 <= j < b ==> r[j] == (p[j + 1], off + j + 1)
  {
    seq(b, j requires 0 <= j < b => (p[j + 1], off + j + 1))
  }

  /** Where a traversal from offset `off`, for a chain `p`, ends. */
  function Found(fat: seq<nat>, p: seq<nat>, off: nat, n: Option<nat>, saved: seq<(nat, nat)>): Seen
    requires Chain(fat, p)
  {
    if n.Some? && off < n.value < off + |p| then Seen(n.value, p[n.value - off], saved + Marks(p, off, n.value - off))
    else Seen(off + |p| - 1, p[|p| - 1], saved + Marks(p, off, |p| - 1) + [(fat[p[|p| - 1]], off + |p|)])
  }

  lemma {:induction false} LookFinds(fat: seq<nat>, p: seq<nat>, off: nat, n: Option<nat>, saved: seq<(nat, nat)>)
    requires Chain(fat, p)
    ensures Visit(fat, p, off, Seen(off, p[0], saved), (prev, cid, cur) => Look(n, prev, cid, cur)) ==
            Break(Found(fat, p, off, n, saved))
  {
    ChainGoesOn(fat, p);
    if |p| > 1 {
      var s := saved + [(p[1], off + 1)];
      assert fat[p[0]] == p[1];
      if n == Some(off + 1) {
        assert Marks(p, off, 1) == [(p[1], off + 1)];
      } else {
        ChainSuffix(fat, p, 1);
        LookFinds(fat, p[1..], off + 1, n, s);
        FoundOn(fat, p, off, n, saved);
      }
    } else {
      assert saved + Marks(p, off, 0) == saved;
    }
  }

  lemma FoundOn(fat: seq<nat>, p: seq<nat>, off: nat, n: Option<nat>, saved: seq<(nat, nat)>)
    requires Chain(fat, p) && |p| > 1 && Chain(fat, p[1..]) && n != Some(off + 1)
    ensures Found(fat, p[1..], off + 1, n, saved + [(p[1], off + 1)]) == Found(fat, p, off, n, saved)
  {
    if n.Some? && off < n.value < off + |p| {
      MarksOn(p, off, n.value - off, saved);
    } else {
      MarksOn(p, off, |p| - 1, saved);
    }
  }

  lemma MarksOn(p: seq<nat>, off: nat, b: nat, saved: seq<(nat, nat)>)
    requires 0 < b < |p|
    ensures saved + [(p[1], off + 1)] + Marks(p[1..], off + 1, b - 1) == saved + Marks(p, off, b)
  {
    assert Marks(p, off, b) == [(p[1], off + 1)] + Marks(p[1..], off + 1, b - 1);
  }

  /** `saved` goes on with the entries of `chain` from offset `a`, perhaps up to its end mark. */
  ghost predicate GoesOn(saved: seq<(nat, nat)>, chain: seq<nat>, a: nat) {
    && a <= |chain| && a + |saved| <= |chain| + 1
    && forall j :: 0 <= j < |saved| ==>
         saved[j].1 == a + j && if a + j < |chain| then saved[j].0 == chain[a + j] else !IsNext(saved[j].0)
  }

  lemma FoundGoesOn(fat: seq<nat>, chain: seq<nat>, q: nat, n: Option<nat>)
    requires q < |chain| && Chain(fat, chain[q..])
    ensures var s := Found(fat, chain[q..], q, n, []);
            && GoesOn(s.saved, chain, q + 1)
            && (n.Some? && q < n.value < |chain| ==> s.off == n.value && s.cid == chain[n.value])
            && (!(n.Some? && q < n.value < |chain|) ==>
                  s.off == |chain| - 1 && s.cid == chain[|chain| - 1] && q + 1 + |s.saved| > |chain|)
  {
    var p := chain[q..];
    assert forall j :: 0 <= j < |p| ==> p[j] == chain[q + j];
  }

  class InodeCacheInner {
    var cidList: seq<nat>
    var cidStart: nat
    var almostLast: (nat, nat) // offset and cluster of the furthest cluster seen
    var len: Option<nat>

    /** What is remembered is true of `chain`. */
    ghost predicate Remembers(chain: seq<nat>)
      reads this
    {
      && (forall i :: 0 <= i < |chain| ==> IsNext(chain[i]))
      && cidList <= chain && cidStart == (if chain == [] then FREE else chain[0])
      && (if chain == [] then almostLast == (0, FREE) && len == Some(0)
          else almostLast.0 < |chain| && almostLast.1 == chain[almostLast.0])
      && (len.Some? ==> len.value == |chain|)
    }

    /** And the list reaches up to the furthest cluster, which is the last one if the length is known. */
    ghost predicate Knows(chain: seq<nat>)
      reads this
    {
      Remembers(chain) && (chain != [] ==> |cidList| == almostLast.0 + 1 && (len.Some? ==> |cidList| == |chain|))
    }

    /** `new`, from the first cluster in the directory entry. */
    constructor (start: nat, ghost chain: seq<nat>)
      requires forall i :: 0 <= i < |chain| ==> IsNext(chain[i])
      requires start == if chain == [] then FREE else chain[0]
      ensures Knows(chain)
    {
      cidStart, almostLast := start, (0, start);
      cidList := if IsNext(start) then [start] else [];
      len := if IsNext(start) then None else Some(0);
    }

    /** `update_list`: what a traversal saw at offset `n` is remembered. */
    method UpdateList(cid: nat, n: nat, ghost chain: seq<nat>)
      modifies this
      ensures cidStart == old(cidStart)
      ensures len == if n >= |old(cidList)| && !IsNext(cid) then Some(n) else old(len)
      ensures cidList == if n == |old(cidList)| && IsNext(cid) then old(cidList) + [cid] else old(cidList)
      ensures almostLast ==
              if n >= |old(cidList)| && IsNext(cid) && old(almostLast).0 <= n then (n, cid) else old(almostLast)
      ensures old(Remembers(chain)) && chain != [] && n <= |chain| && (if n < |chain| then cid == chain[n] else !IsNext(cid))
              ==> Remembers(chain)
    {
      if n < |cidList| { return; }
      if !IsNext(cid) {
        len := Some(n);
        return;
      }
      if almostLast.0 <= n { almostLast := (n, cid); }
      if |cidList| == n { cidList := cidList + [cid]; }
    }

    /** `try_get_nth_block_cid`: a cluster of the chain, or its length if that is not enough, or nothing. */
    method TryGet(n: nat, ghost chain: seq<nat>) returns (r: Option<Result<nat, nat>>)
      ensures Remembers(chain) && r.Some? ==> r.value == if n < |chain| then Success(chain[n]) else Failure(|chain|)
      ensures r.None? <==> cidStart != FREE && n >= |cidList| && n != almostLast.0 && (len.Some? ==> n < len.value)
    {
      if cidStart == FREE { return Some(Failure(0)); }
      if len.Some? && len.value <= n { return Some(Failure(len.value)); }
      if n < |cidList| { return Some(Success(cidList[n])); }
      if almostLast.0 == n { return Some(Success(almostLast.1)); }
      r := None;
    }

    /** `list_truncate` to `n` clusters, the last one being `cid`. */
    method ListTruncate(n: nat, cid: nat, ghost chain: seq<nat>)
      requires Remembers(chain) && n <= |chain| && (n > 0 ==> cid == chain[n - 1])
      modifies this
      ensures Remembers(chain[..n]) && len == Some(n)
      ensures old(Knows(chain)) && n <= |old(cidList)| ==> Knows(chain[..n])
    {
      if n == 0 {
        cidStart, cidList, almostLast, len := FREE, [], (0, FREE), Some(0);
        return;
      }
      if |cidList| > n { cidList := cidList[..n]; }
      almostLast, len := (n - 1, cid), Some(n);
    }

    method AppendFirst(cid: nat)
      requires Remembers([]) && IsNext(cid)
      modifies this
      ensures Knows([cid]) && len == Some(1)
    {
      cidStart, cidList, almostLast, len := cid, cidList + [cid], (0, cid), Some(1);
    }

    /** `append_last`: the longer chain is remembered rightly just when the offset given is the old
        length and the file was not empty. */
    method AppendLast(n: nat, cid: nat, ghost chain: seq<nat>)
      requires Remembers(chain) && len.Some? && IsNext(cid) && cid !in chain
      modifies this
      ensures Remembers(chain + [cid]) <==> n == |chain| && chain != []
      ensures n == |chain| && chain != [] && old(Knows(chain)) ==> Knows(chain + [cid])
      ensures almostLast == (n, cid) && len == Some(|chain| + 1) && cidStart == old(cidStart)
      ensures cidList == if |old(cidList)| == n then old(cidList) + [cid] else old(cidList)
    {
      NoteLast(n, cid);
      if n < |chain| { assert (chain + [cid])[n] == chain[n] && chain[n] in chain; }
    }

    method NoteLast(n: nat, cid: nat)
      requires len.Some?
      modifies this
      ensures almostLast == (n, cid) && len == Some(old(len).value + 1) && cidStart == old(cidStart)
      ensures cidList == if |old(cidList)| == n then old(cidList) + [cid] else old(cidList)
    {
      if |cidList| == n { cidList := cidList + [cid]; }
      almostLast, len := (n, cid), Some(len.value + 1);
    }

    // ----- Looking up clusters -----

    /** A traversal from the furthest cluster, at position `q` of file `i`, and noting what it saw. */
    method Seek(n: Option<nat>, list: FatList, ghost i: nat, ghost q: nat, others: seq<seq<Request>>)
      returns (r: Result<Seen, Error>)
      requires list.Valid() && i < |list.files| && q < |list.files[i]| && list.files[i][q] == almostLast.1
      requires forall j :: 0 <= j < |others| ==> AllAvoid(others[j], i)
      modifies list, list.manager
      ensures list.Valid() && Undisturbed(old(list.Now()), list.Now(), i)
      ensures list.Blamed(old(list.manager.clock), Silent(others), r.Failure?)
      ensures Chain(old(list.manager.fat), old(list.files)[i][q..])
      ensures r.Success? ==> r.value == Found(old(list.manager.fat), old(list.files)[i][q..], almostLast.0, n, [])
    {
      var (off, cid) := almostLast;
      assert Chain(list.manager.fat, list.files[i]);
      PathOf(list.manager.fat, list.files[i], q);
      LookFinds(list.manager.fat, list.files[i][q..], off, n, []);
      var t := list.Travel(cid, off, Seen(off, cid, []), (prev, cid, cur) => Look(n, prev, cid, cur), i, q, others);
      match t
      case Failure(e) => r := Failure(e);
      case Success(f) => r := Success(f.result);
    }

    /** What a traversal saw goes into the cache, in order. */
    method Note(saved: seq<(nat, nat)>, ghost chain: seq<nat>)
      modifies this
      ensures old(Knows(chain)) && GoesOn(saved, chain, |old(cidList)|) ==> Knows(chain)
      ensures old(Knows(chain)) && GoesOn(saved, chain, |old(cidList)|) && |old(cidList)| + |saved| > |chain| ==>
                len == Some(|chain|)
    {
      ghost var a := |cidList|;
      for j := 0 to |saved|
        invariant old(Knows(chain)) && GoesOn(saved, chain, a) ==>
                    && Knows(chain) && |cidList| == (if a + j <= |chain| then a + j else |chain|)
                    && (a + j > |chain| ==> len == Some(|chain|))
      {
        UpdateList(saved[j].0, saved[j].1, chain);
      }
    }

    /** After a growth that counts each new cluster before noting its offset: the furthest cluster is
        taken to be one position too far, and the new clusters from position `l` on are not listed. */
    ghost predicate Overcounts(chain: seq<nat>, l: nat)
      reads this
    {
      && l < |chain| && cidList == chain[..l] && l > 0 && cidStart == chain[0] != FREE
      && almostLast == (|chain|, chain[|chain| - 1]) && len == Some(|chain|)
    }

    /** `get_nth_block_cid` on file `i`, whose cluster at position `q` is the furthest one seen: the
        cluster asked for, or the length of the chain.  After a growth that overcounts, it is the last
        cluster whichever of the new ones is asked for. */
    method GetNthBlockCid(n: nat, list: FatList, ghost i: nat, ghost q: nat, others: seq<seq<Request>>)
      returns (r: Result<Result<nat, nat>, Error>)
      requires list.Valid() && i < |list.files| && forall j :: 0 <= j < |others| ==> AllAvoid(others[j], i)
      requires cidStart != FREE ==> q < |list.files[i]| && list.files[i][q] == almostLast.1
      modifies this, list, list.manager
      ensures list.Valid() && Undisturbed(old(list.Now()), list.Now(), i)
      ensures list.Blamed(old(list.manager.clock), Silent(others), r.Failure?)
      ensures n < |old(cidList)| || n == old(almostLast).0 ==> list.manager.clock == old(list.manager.clock)
      ensures var chain := old(list.files)[i];
              old(Knows(chain)) && q == old(almostLast).0 ==>
                && Knows(chain)
                && (r.Success? ==> r.value == if n < |chain| then Success(chain[n]) else Failure(|chain|))
      ensures forall l: nat :: var chain := old(list.files)[i];
              old(Overcounts(chain, l)) && q == |chain| - 1 && l <= n < |chain| ==>
                r.Success? ==> r.value == Success(chain[|chain| - 1])
    {
      ghost var chain := list.files[i];
      var cached := TryGet(n, chain);
      if cached.Some? { return Success(cached.value); }
      r := SeekNth(n, list, i, q, others);
    }

    /** And when the cache does not tell. */
    method SeekNth(n: nat, list: FatList, ghost i: nat, ghost q: nat, others: seq<seq<Request>>)
      returns (r: Result<Result<nat, nat>, Error>)
      requires list.Valid() && i < |list.files| && forall j :: 0 <= j < |others| ==> AllAvoid(others[j], i)
      requires q < |list.files[i]| && list.files[i][q] == almostLast.1
      modifies this, list, list.manager
      ensures list.Valid() && Undisturbed(old(list.Now()), list.Now(), i)
      ensures list.Blamed(old(list.manager.clock), Silent(others), r.Failure?)
      ensures var chain := old(list.files)[i];
              old(Knows(chain)) && q == old(almostLast).0 < n ==>
                && Knows(chain)
                && (r.Success? ==> r.value == if n < |chain| then Success(chain[n]) else Failure(|chain|))
      ensures var chain := old(list.files)[i];
              n < old(almostLast).0 && r.Success? ==> r.value == Success(chain[|chain| - 1])
    {
      ghost var chain := list.files[i];
      var t := Seek(Some(n), list, i, q, others);
      if t.Failure? { return Failure(t.error); }
      var seen := t.value;
      if Knows(chain) && q == almostLast.0 < n { FoundGoesOn(old(list.manager.fat), chain, q, Some(n)); }
      Note(seen.saved, chain);
      r := Success(if seen.off < n then Failure(seen.off + 1) else Success(seen.cid));
    }

    /** `get_list_last`: the last cluster and its offset. */
    method GetListLast(list: FatList, ghost i: nat, others: seq<seq<Request>>) returns (r: Result<Option<(nat, nat)>, Error>)
      requires list.Valid() && i < |list.files| && forall j :: 0 <= j < |others| ==> AllAvoid(others[j], i)
      requires Knows(list.files[i])
      modifies this, list, list.manager
      ensures list.Valid() && Undisturbed(old(list.Now()), list.Now(), i)
      ensures list.Blamed(old(list.manager.clock), Silent(others), r.Failure?)
      ensures var chain := old(list.files)[i];
              && Knows(chain)
              && (r.Success? ==> len == Some(|chain|))
              && (r.Success? ==> r.value == if chain == [] then None else Some((|chain| - 1, chain[|chain| - 1])))
    {
      if cidStart == FREE { return Success(None); }
      ghost var chain := list.files[i];
      var t := Seek(None, list, i, almostLast.0, others);
      if t.Failure? { return Failure(t.error); }
      FoundGoesOn(old(list.manager.fat), chain, almostLast.0, None);
      Note(t.value.saved, chain);
      r := Success(Some((t.value.off, t.value.cid)));
    }

    // ----- The callers of `append_last` -----

    /** `append_block` with the new cluster `cid`: it passes the offset of the old last cluster, or zero
        for an empty file, whose first cluster it does not set.  Either way the cache is not true of the
        longer chain. */
    method AppendBlock(cid: nat, list: FatList, ghost i: nat, others: seq<seq<Request>>) returns (r: Result<nat, Error>)
      requires list.Valid() && i < |list.files| && forall j :: 0 <= j < |others| ==> AllAvoid(others[j], i)
      requires Knows(list.files[i]) && IsNext(cid) && cid !in list.files[i]
      modifies this, list, list.manager
      ensures list.Blamed(old(list.manager.clock), Silent(others), r.Failure?)
      ensures var chain := old(list.files)[i];
              r.Success? ==>
                && !Remembers(chain + [cid])
                && r.value == (if chain == [] then 0 else |chain| - 1) && almostLast == (r.value, cid)
                && (chain == [] ==> cidStart == FREE)
    {
      ghost var chain := list.files[i];
      var last := GetListLast(list, i, others);
      if last.Failure? { return Failure(last.error); }
      var n := if last.value.None? then 0 else last.value.value.0;
      AppendLast(n, cid, chain);
      r := Success(n);
    }

    /** The growth in `get_nth_block_alloc` counts each new cluster before it notes its offset. */
    method Grow(cids: seq<nat>, ghost chain: seq<nat>)
      requires Knows(chain) && chain != [] && len.Some? && cids != []
      modifies this
      ensures Overcounts(chain + cids, |chain|) && !Remembers(chain + cids)
    {
      var curLen := len.value;
      for j := 0 to |cids|
        invariant curLen == |chain| + j && len == Some(curLen) && cidStart == chain[0] && cidList == chain
        invariant j > 0 ==> almostLast == (curLen, cids[j - 1])
      {
        curLen := curLen + 1;
        NoteLast(curLen, cids[j]);
      }
    }

    /** So, after a growth, a new cluster is found just when it is the last. */
    method GrowAndGet(cids: seq<nat>, ghost chain: seq<nat>, n: nat, list: FatList, ghost i: nat, others: seq<seq<Request>>)
      returns (r: Result<Result<nat, nat>, Error>)
      requires list.Valid() && i < |list.files| && forall j :: 0 <= j < |others| ==> AllAvoid(others[j], i)
      requires Knows(chain) && chain != [] && len.Some? && cids != [] && list.files[i] == chain + cids
      requires |chain| <= n < |chain + cids|
      modifies this, list, list.manager
      ensures list.Blamed(old(list.manager.clock), Silent(others), r.Failure?)
      ensures r.Success? ==>
                && r.value == Success(cids[|cids| - 1])
                && (r.value == Success((chain + cids)[n]) <==> n == |chain + cids| - 1)
    {
      assert Chain(list.manager.fat, list.files[i]);
      ChainIsAcyclic(list.manager.fat, list.files[i]);
      Grow(cids, chain);
      assert Overcounts(list.files[i], |chain|);
      r := GetNthBlockCid(n, list, i, |chain + cids| - 1, others);
    }
  }
}
