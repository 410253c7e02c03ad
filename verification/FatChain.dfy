/** FAT entries, cluster chains and free counts, on plain values. */
module FatChain {
  import opened Basics
  import opened Lists

  const FREE: nat := 0
  const LAST: nat := 0x0FFF_FFFF
  /** Entries from here on are reserved, bad or end marks. */
  const NEXT_BOUND: nat := 0x0FFF_FFF0
  /** `CID::status` panics from here on. */
  const ENTRY_BOUND: nat := 0x1000_0000

  predicate IsNext(v: nat) {
    2 <= v < NEXT_BOUND
  }

  datatype Status = Free | Reserved | Next | Bad | EndMark

  /** `CID::status`, nothing where it panics. */
  function StatusOf(v: nat): Option<Status> {
    if v == 0x0 then Some(Free)
    else if v == 0x1 then Some(Reserved)
    else if v < 0x0FFF_FFF0 then Some(Next)
    else if v < 0x0FFF_FFF7 then Some(Reserved)
    else if v == 0x0FFF_FFF7 then Some(Bad)
    else if v < 0x1000_0000 then Some(EndMark)
    else None
  }

  /** What the tests of the list manager ask. */
  lemma StatusMeans(v: nat)
    ensures IsNext(v) <==> StatusOf(v) == Some(Next)
    ensures v == FREE <==> StatusOf(v) == Some(Free)
    ensures v < ENTRY_BOUND <==> StatusOf(v).Some?
    ensures v == LAST ==> StatusOf(v) == Some(EndMark)
  {
  }

  /** Every file that has clusters ends with an end mark, not with a reserved or bad entry. */
  ghost predicate EndsMarked(fat: seq<nat>, chains: seq<seq<nat>>) {
    forall i :: 0 <= i < |chains| && chains[i] != [] ==> EndMarked(fat, chains[i])
  }

  predicate EndMarked(fat: seq<nat>, p: seq<nat>)
    requires p != []
  {
    p[|p| - 1] < |fat| && StatusOf(fat[p[|p| - 1]]) == Some(EndMark)
  }

  /** `p` is a maximal chain of the table: linked entry by entry, the last one not linking on. */
  ghost predicate Chain(fat: seq<nat>, p: seq<nat>) {
    && p != []
    && (forall i :: 0 <= i < |p| ==> IsNext(p[i]) && p[i] < |fat|)
    && (forall i, j :: 0 <= i && j == i + 1 < |p| ==> fat[p[i]] == p[j])
    && !IsNext(fat[p[|p| - 1]]) && fat[p[|p| - 1]] != FREE
  }

  /** Free entries below `n`. */
  function CountFree(fat: seq<nat>, n: nat): nat
    requires n <= |fat|
  {
    if n == 0 then 0 else CountFree(fat, n - 1) + if fat[n - 1] == FREE then 1 else 0
  }

  /** The table with all clusters of `p` marked free. */
  function Freed(fat: seq<nat>, p: seq<nat>): (r: seq<nat>)
    requires forall i :: 0 <= i < |p| ==> p[i] < |fat|
    ensures |r| == |fat|
  {
    if p == [] then fat else Freed(fat, p[..|p| - 1])[p[|p| - 1] := FREE]
  }

  lemma {:induction false} FreedEntries(fat: seq<nat>, p: seq<nat>)
    requires forall i :: 0 <= i < |p| ==> p[i] < |fat|
    ensures forall c :: 0 <= c < |fat| ==> Freed(fat, p)[c] == if c in p then FREE else fat[c]
  {
    if p != [] {
      FreedEntries(fat, p[..|p| - 1]);
      assert p == p[..|p| - 1] + [p[|p| - 1]];
    }
  }

  // ----- Chains -----

  /** A suffix of a chain is a chain. */
  lemma ChainSuffix(fat: seq<nat>, p: seq<nat>, k: nat)
    requires Chain(fat, p) && k < |p|
    ensures Chain(fat, p[k..])
  {
  }

  lemma ChainGoesOn(fat: seq<nat>, p: seq<nat>)
    requires Chain(fat, p)
    ensures |p| > 1 <==> IsNext(fat[p[0]])
  {
    assert |p| > 1 ==> fat[p[0]] == p[1];
  }

  /** Two chains through the same cluster go on alike. */
  lemma {:induction false} ChainsMeet(fat: seq<nat>, p: seq<nat>, q: seq<nat>)
    requires Chain(fat, p) && Chain(fat, q) && p[0] == q[0]
    ensures p == q
  {
    ChainGoesOn(fat, p);
    ChainGoesOn(fat, q);
    if |p| > 1 {
      ChainSuffix(fat, p, 1);
      ChainSuffix(fat, q, 1);
      ChainsMeet(fat, p[1..], q[1..]);
      assert p == [p[0]] + p[1..] && q == [q[0]] + q[1..];
    }
  }

  /** A chain visits no cluster twice. */
  lemma ChainIsAcyclic(fat: seq<nat>, p: seq<nat>)
    requires Chain(fat, p)
    ensures Distinct(p)
  {
    forall i, j | 0 <= i < j < |p| ensures p[i] != p[j] {
      if p[i] == p[j] {
        ChainSuffix(fat, p, i);
        ChainSuffix(fat, p, j);
        ChainsMeet(fat, p[i..], p[j..]);
      }
    }
  }

  /** A chain survives any change to entries off the chain. */
  lemma ChainFrame(fat: seq<nat>, fat': seq<nat>, p: seq<nat>)
    requires Chain(fat, p) && |fat'| == |fat|
    requires forall i :: 0 <= i < |p| ==> fat'[p[i]] == fat[p[i]]
    ensures Chain(fat', p)
  {
  }

  lemma ChainUsed(fat: seq<nat>, p: seq<nat>, i: nat)
    requires Chain(fat, p) && i < |p|
    ensures fat[p[i]] != FREE
  {
    if i < |p| - 1 { assert fat[p[i]] == p[i + 1] && IsNext(p[i + 1]); }
  }

  // ----- Counting -----

  lemma {:induction false} CountFreeUpdate(fat: seq<nat>, c: nat, v: nat, n: nat)
    requires c < |fat| && n <= |fat|
    ensures CountFree(fat[c := v], n) == CountFree(fat, n)
            - (if c < n && fat[c] == FREE then 1 else 0) + (if c < n && v == FREE then 1 else 0)
  {
    if n > 0 { CountFreeUpdate(fat, c, v, n - 1); }
  }

  lemma {:induction false} CountFreeZero(fat: seq<nat>, n: nat)
    requires n <= |fat|
    ensures CountFree(fat, n) == 0 <==> forall c :: 0 <= c < n ==> fat[c] != FREE
  {
    if n > 0 { CountFreeZero(fat, n - 1); }
  }

  /** Freeing distinct used clusters raises the count by their number. */
  lemma {:induction false} CountFreed(fat: seq<nat>, p: seq<nat>, n: nat)
    requires n <= |fat| && Distinct(p)
    requires forall i :: 0 <= i < |p| ==> p[i] < n && fat[p[i]] != FREE
    ensures CountFree(Freed(fat, p), n) == CountFree(fat, n) + |p|
  {
    if p != [] {
      var q := p[..|p| - 1];
      CountFreed(fat, q, n);
      FreedEntries(fat, q);
      CountFreeUpdate(Freed(fat, q), p[|p| - 1], FREE, n);
    }
  }

  /** Freeing one cluster more. */
  lemma FreedNext(fat: seq<nat>, p: seq<nat>, k: nat)
    requires k < |p| && forall i :: 0 <= i < |p| ==> p[i] < |fat|
    ensures Freed(fat, p[..k + 1]) == Freed(fat, p[..k])[p[k] := FREE]
  {
    assert p[..k + 1][..k] == p[..k];
  }

  lemma {:induction false} FreedTwice(fat: seq<nat>, x: seq<nat>, y: seq<nat>)
    requires forall i :: 0 <= i < |x + y| ==> (x + y)[i] < |fat|
    ensures (forall i :: 0 <= i < |x| ==> x[i] < |fat|) && (forall i :: 0 <= i < |y| ==> y[i] < |fat|)
    ensures Freed(Freed(fat, x), y) == Freed(fat, x + y)
  {
    forall i | 0 <= i < |x| ensures x[i] < |fat| { assert (x + y)[i] == x[i]; }
    forall i | 0 <= i < |y| ensures y[i] < |fat| { assert (x + y)[|x| + i] == y[i]; }
    if y == [] {
      assert x + y == x;
    } else {
      assert (x + y)[..|x + y| - 1] == x + y[..|y| - 1];
      FreedTwice(fat, x, y[..|y| - 1]);
    }
  }

  lemma {:induction false} FreedUpdate(fat: seq<nat>, c: nat, v: nat, p: seq<nat>)
    requires c < |fat| && c !in p && forall i :: 0 <= i < |p| ==> p[i] < |fat|
    ensures Freed(fat[c := v], p) == Freed(fat, p)[c := v]
  {
    if p != [] { FreedUpdate(fat, c, v, p[..|p| - 1]); }
  }

  /** While a chain is being freed from the front, the rest of it is as before. */
  lemma FreedKeeps(fat: seq<nat>, p: seq<nat>, k: nat)
    requires Chain(fat, p) && k < |p|
    ensures Freed(fat, p[..k])[p[k]] == fat[p[k]]
    ensures if k + 1 < |p| then fat[p[k]] == p[k + 1] else !IsNext(fat[p[k]])
  {
    ChainIsAcyclic(fat, p);
    FreedEntries(fat, p[..k]);
  }

  /** `free_cluster_at` on the chain `q`, stopped after `m` clusters: the head now links to the rest,
      or ends the chain. */
  function Truncated(fat: seq<nat>, q: seq<nat>, m: nat): seq<nat>
    requires m < |q| && forall i :: 0 <= i < |q| ==> q[i] < |fat|
  {
    Freed(fat, q[1..m + 1])[q[0] := if m + 1 == |q| then LAST else q[m + 1]]
  }

  /** The remaining chain is the head followed by a suffix of the original. */
  lemma TruncatedChain(fat: seq<nat>, q: seq<nat>, m: nat)
    requires Chain(fat, q) && m < |q|
    ensures Chain(Truncated(fat, q, m), [q[0]] + q[m + 1..])
  {
    ChainIsAcyclic(fat, q);
    FreedEntries(fat, q[1..m + 1]);
    var (fat', r) := (Truncated(fat, q, m), [q[0]] + q[m + 1..]);
    forall k | 1 <= k < |r| ensures r[k] == q[m + k] && fat'[r[k]] == fat[q[m + k]] {
      assert r[k] == q[m + k];
      assert q[m + k] !in q[1..m + 1];
    }
  }

  /** Exactly the freed clusters become free, and only the head and they change. */
  lemma TruncatedEntries(fat: seq<nat>, q: seq<nat>, m: nat)
    requires Chain(fat, q) && m < |q|
    ensures forall i :: 1 <= i <= m ==> Truncated(fat, q, m)[q[i]] == FREE
    ensures forall c :: 0 <= c < |fat| && c !in q[..m + 1] ==> Truncated(fat, q, m)[c] == fat[c]
  {
    ChainIsAcyclic(fat, q);
    FreedEntries(fat, q[1..m + 1]);
    forall i | 1 <= i <= m ensures q[i] in q[1..m + 1] { assert q[1..m + 1][i - 1] == q[i]; }
    assert q[..m + 1] == [q[0]] + q[1..m + 1];
  }

  lemma ChainPrepend(fat: seq<nat>, a: seq<nat>, s: seq<nat>)
    requires Chain(fat, s) && forall j :: 0 <= j < |a| ==> IsNext(a[j]) && a[j] < |fat|
    requires forall i, j :: 0 <= i && j == i + 1 < |a| ==> fat[a[i]] == a[j]
    requires a != [] ==> fat[a[|a| - 1]] == s[0]
    ensures Chain(fat, a + s)
  {
  }

  /** Seen from the start of the chain: the part up to the head stays in front of the suffix. */
  lemma CutChain(fat: seq<nat>, p: seq<nat>, k: nat, m: nat)
    requires Chain(fat, p) && k + m < |p|
    ensures Chain(fat, p[k..]) && Chain(Truncated(fat, p[k..], m), p[..k + 1] + p[k + 1 + m..])
  {
    var q := p[k..];
    var s := [q[0]] + q[m + 1..];
    assert p[..k] + s == p[..k + 1] + p[k + 1 + m..];
    ChainSuffix(fat, p, k);
    TruncatedChain(fat, q, m);
    assert forall j :: 0 <= j < k ==> Truncated(fat, q, m)[p[j]] == fat[p[j]] by {
      TruncatedEntries(fat, q, m);
      ChainIsAcyclic(fat, p);
    }
    ChainPrepend(Truncated(fat, q, m), p[..k], s);
  }

  lemma TruncatedCount(fat: seq<nat>, q: seq<nat>, m: nat, n: nat)
    requires Chain(fat, q) && m < |q| && n <= |fat|
    requires forall i :: 0 <= i < |q| ==> q[i] < n
    ensures CountFree(Truncated(fat, q, m), n) == CountFree(fat, n) + m
  {
    ChainIsAcyclic(fat, q);
    ChainUsed(fat, q, 0);
    var p := q[1..m + 1];
    forall i | 0 <= i < |p| ensures p[i] == q[i + 1] && fat[p[i]] != FREE { ChainUsed(fat, q, i + 1); }
    CountFreed(fat, p, n);
    FreedEntries(fat, p);
    assert q[0] !in p;
    CountFreeUpdate(Freed(fat, p), q[0], if m + 1 == |q| then LAST else q[m + 1], n);
  }

  // ----- Collections of chains -----

  /** Pairwise disjoint chains below `n`; a file without clusters has the empty list. */
  ghost predicate Forest(fat: seq<nat>, n: nat, chains: seq<seq<nat>>) {
    && n <= |fat|
    && (forall i {:trigger Chain(fat, chains[i])} :: 0 <= i < |chains| ==> chains[i] == [] || Chain(fat, chains[i]))
    && (forall i, k :: 0 <= i < |chains| && 0 <= k < |chains[i]| ==> chains[i][k] < n)
    && (forall i, j {:trigger Disjoint(chains[i], chains[j])} :: 0 <= i < j < |chains| ==> Disjoint(chains[i], chains[j]))
  }

  lemma ChainsKeepApart(fat: seq<nat>, n: nat, chains: seq<seq<nat>>, i: nat, j: nat)
    requires Forest(fat, n, chains) && i < |chains| && j < |chains| && i != j
    ensures Disjoint(chains[i], chains[j])
  {
    if i < j { assert Disjoint(chains[i], chains[j]); } else { assert Disjoint(chains[j], chains[i]); }
  }

  /** `alloc_cluster`: a free entry becomes a chain of its own. */
  lemma ForestAfterAlloc(fat: seq<nat>, n: nat, chains: seq<seq<nat>>, c: nat)
    requires Forest(fat, n, chains) && c < n && IsNext(c) && fat[c] == FREE
    ensures Forest(fat[c := LAST], n, chains + [[c]])
  {
    var fat' := fat[c := LAST];
    forall i | 0 <= i < |chains| ensures (chains[i] == [] || Chain(fat', chains[i])) && Disjoint(chains[i], [c]) {
      forall k | 0 <= k < |chains[i]| ensures chains[i][k] != c { ChainUsed(fat, chains[i], k); }
      if chains[i] != [] { ChainFrame(fat, fat', chains[i]); }
    }
    assert Chain(fat', [c]);
  }

  /** `alloc_cluster_after`: a free entry is linked behind the last cluster of a chain. */
  lemma ForestAfterExtend(fat: seq<nat>, n: nat, chains: seq<seq<nat>>, i: nat, c: nat)
    requires Forest(fat, n, chains) && i < |chains| && chains[i] != [] && c < n && IsNext(c) && fat[c] == FREE
    ensures var last := chains[i][|chains[i]| - 1];
            Forest(fat[c := LAST][last := c], n, chains[i := chains[i] + [c]])
  {
    var last := chains[i][|chains[i]| - 1];
    var fat' := fat[c := LAST][last := c];
    var p := chains[i] + [c];
    ChainIsAcyclic(fat, chains[i]);
    forall j, k | 0 <= j < |chains| && 0 <= k < |chains[j]| ensures chains[j][k] != c { ChainUsed(fat, chains[j], k); }
    assert Chain(fat', p) by {
      forall k | 0 <= k < |p| - 1 ensures fat'[p[k]] == p[k + 1] {
        if k < |chains[i]| - 1 { assert fat[chains[i][k]] == chains[i][k + 1] && chains[i][k] != last; }
      }
      assert fat'[p[|p| - 1]] == LAST;
    }
    forall j | 0 <= j < |chains| && j != i
      ensures (chains[j] == [] || Chain(fat', chains[j])) && Disjoint(chains[j], p) && Disjoint(p, chains[j])
    {
      ChainsKeepApart(fat, n, chains, i, j);
      ChainsKeepApart(fat, n, chains, j, i);
      if chains[j] != [] { ChainFrame(fat, fat', chains[j]); }
    }
  }

  /** Any change to one chain that leaves it a chain on the same clusters, or fewer, or none. */
  lemma ForestAfterShrink(fat: seq<nat>, fat': seq<nat>, n: nat, chains: seq<seq<nat>>, i: nat, p: seq<nat>)
    requires Forest(fat, n, chains) && i < |chains| && |fat'| == |fat|
    requires (p == [] || Chain(fat', p)) && forall k :: 0 <= k < |p| ==> p[k] in chains[i]
    requires forall c :: 0 <= c < |fat| && c !in chains[i] ==> fat'[c] == fat[c]
    ensures Forest(fat', n, chains[i := p])
  {
    forall j | 0 <= j < |chains| && j != i
      ensures (chains[j] == [] || Chain(fat', chains[j])) && Disjoint(chains[j], p) && Disjoint(p, chains[j])
    {
      ChainsKeepApart(fat, n, chains, i, j);
      ChainsKeepApart(fat, n, chains, j, i);
      forall k | 0 <= k < |chains[j]| ensures chains[j][k] !in chains[i] {}
      if chains[j] != [] { ChainFrame(fat, fat', chains[j]); }
    }
    forall k | 0 <= k < |p| ensures p[k] < n {
      var m :| 0 <= m < |chains[i]| && chains[i][m] == p[k];
    }
  }

  /** `free_cluster`: the chain of the cluster is given up, the others remain. */
  lemma ForestAfterRelease(fat: seq<nat>, n: nat, chains: seq<seq<nat>>, i: nat, c: nat)
    requires Forest(fat, n, chains) && i < |chains| && c in chains[i]
    ensures c < |fat| && Forest(fat[c := FREE], n, chains[i := []])
  {
    ForestAfterShrink(fat, fat[c := FREE], n, chains, i, []);
  }

  /** `free_cluster` on a chain that goes on before the cluster leaves a link to a free entry: no chain
      starts at its head any more. */
  lemma {:induction false} ReleasedInside(fat: seq<nat>, p: seq<nat>, k: nat, q: seq<nat>)
    requires Chain(fat, p) && k < |p| && q != [] && q[0] == p[0]
    ensures !Chain(fat[p[k] := FREE], q)
  {
    var fat' := fat[p[k] := FREE];
    ChainIsAcyclic(fat, p);
    if Chain(fat', q) {
      if k == 0 {
        ChainUsed(fat', q, 0);
      } else {
        assert fat'[p[0]] == p[1];
        ChainGoesOn(fat', q);
        ChainSuffix(fat, p, 1);
        ReleasedInside(fat, p[1..], k - 1, q[1..]);
        ChainSuffix(fat', q, 1);
      }
    }
  }
}
