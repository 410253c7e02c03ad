/** The FAT list as the files use it: whole truncations, traversal, and any sequence of requests. */
module FatFiles {
  import opened Basics
  import opened Lists
  import opened FatChain
  import opened FatTable

  // ----- Truncation in rounds -----

  lemma SameSlices(q: seq<nat>, a: nat, b: nat, r: seq<nat>, t: nat)
    requires t == a + b < |q| && r == [q[0]] + q[a + 1..]
    ensures r[1..b + 1] == q[a + 1..t + 1] && q[1..t + 1] == q[1..a + 1] + q[a + 1..t + 1]
  {
    assert r[1..] == q[a + 1..];
    assert r[1..b + 1] == r[1..][..b] == q[a + 1..][..b];
  }

  /** Two rounds of truncation are one. */
  lemma TruncatedTwice(fat: seq<nat>, q: seq<nat>, a: nat, b: nat, r: seq<nat>, t: nat)
    requires Chain(fat, q) && t == a + b < |q| && r == [q[0]] + q[a + 1..]
    ensures Truncated(Truncated(fat, q, a), r, b) == Truncated(fat, q, t)
  {
    var (x, y) := (q[1..a + 1], q[a + 1..t + 1]);
    SameSlices(q, a, b, r, t);
    assert q[0] !in y by { ChainIsAcyclic(fat, q); }
    FreedUpdate(Freed(fat, x), q[0], if a + 1 == |q| then LAST else q[a + 1], y);
    FreedTwice(fat, x, y);
  }

  lemma CutTwice(chains: seq<seq<nat>>, i: nat, k: nat, a: nat, b: nat, t: nat)
    requires i < |chains| && t == a + b && k + t < |chains[i]|
    ensures |Cut(chains, i, k, a)[i]| == |chains[i]| - a && Cut(chains, i, k, a)[i][k] == chains[i][k]
    ensures Cut(Cut(chains, i, k, a), i, k, b) == Cut(chains, i, k, t)
    ensures Cut(chains, i, k, a)[i][k..] == [chains[i][k..][0]] + chains[i][k..][a + 1..]
  {
    var p := chains[i];
    var p' := p[..k + 1] + p[k + 1 + a..];
    assert p'[..k + 1] + p'[k + 1 + b..] == p[..k + 1] + p[k + 1 + a + b..];
  }

  /** `n` clusters behind position `k` of chain `i` have been freed. */
  ghost predicate Freeing(fat: seq<nat>, chains: seq<seq<nat>>, i: nat, k: nat, n: nat, fat': seq<nat>, chains': seq<seq<nat>>) {
    && i < |chains| && k + n < |chains[i]| && chains' == Cut(chains, i, k, n) && Chain(fat, chains[i][k..])
    && (fat' == Truncated(fat, chains[i][k..], n) || (n == 0 && fat' == fat))
  }

  lemma FreeingMore(fat: seq<nat>, chains: seq<seq<nat>>, i: nat, k: nat, n: nat, m: nat, total: nat,
                    fat': seq<nat>, chains': seq<seq<nat>>, fat'': seq<nat>, chains'': seq<seq<nat>>)
    requires Freeing(fat, chains, i, k, n, fat', chains') && Freeing(fat', chains', i, k, m, fat'', chains'')
    requires total == n + m
    ensures Freeing(fat, chains, i, k, total, fat'', chains'') && |chains'[i]| == |chains[i]| - n
  {
    CutTwice(chains, i, k, n, m, total);
    var (q, r) := (chains[i][k..], chains'[i][k..]);
    if fat' == fat && n == 0 {
      assert r == q;
      assert fat'' == Truncated(fat, q, total) || (total == 0 && fat'' == fat);
    } else {
      TruncatedTwice(fat, q, n, m, r, total);
      assert fat'' == Truncated(fat, q, total) || (m == 0 && fat'' == fat');
    }
  }

  /** Exactly the `n` clusters behind the position become free, and nothing but they and the position's
      own entry changes. */
  lemma FreedExactly(fat: seq<nat>, chains: seq<seq<nat>>, i: nat, k: nat, n: nat, fat': seq<nat>, chains': seq<seq<nat>>)
    requires Freeing(fat, chains, i, k, n, fat', chains')
    ensures |fat'| == |fat|
    ensures forall c :: 0 <= c < |fat| ==> (fat'[c] == FREE <==> fat[c] == FREE || c in chains[i][k + 1..k + 1 + n])
    ensures forall c :: 0 <= c < |fat| && c !in chains[i][k..k + 1 + n] ==> fat'[c] == fat[c]
  {
    var q := chains[i][k..];
    var x := q[1..n + 1];
    assert x == chains[i][k + 1..k + 1 + n] && [q[0]] + x == chains[i][k..k + 1 + n];
    FreedEntries(fat, x);
    ChainUsed(fat, q, 0);
    ChainIsAcyclic(fat, q);
  }

  // ----- Traversal -----

  datatype Flow<A, B> = Continue(acc: A) | Break(result: B)

  /** The operation applied to the successor entry of each cluster of `p`, numbered from `off + 1`,
      until it breaks. */
  function Visit<A, B>(fat: seq<nat>, p: seq<nat>, off: nat, acc: A, op: (A, nat, nat) -> Flow<A, B>): Flow<A, B>
    requires forall i :: 0 <= i < |p| ==> p[i] < |fat|
  {
    if p == [] then Continue(acc)
    else
      match op(acc, fat[p[0]], off + 1)
      case Break(b) => Break(b)
      case Continue(acc') => Visit(fat, p[1..], off + 1, acc', op)
  }

  /** The traversal is at position `step` of `p`, or past its end. */
  predicate OnPath(p: seq<nat>, step: nat, cur: nat) {
    if step < |p| then cur == p[step] else step == |p| && !IsNext(cur)
  }

  /** Reading the entries of `p`, a part of `chain`, leads along it. */
  ghost predicate Path(fat: seq<nat>, chain: seq<nat>, p: seq<nat>) {
    && (forall j :: 0 <= j < |p| ==> IsNext(p[j]) && p[j] < |fat|)
    && (forall j {:trigger p[j] in chain} :: 0 <= j < |p| ==> p[j] in chain)
    && (forall j {:trigger fat[p[j]]} :: 0 <= j < |p| && p[j] < |fat| ==> OnPath(p, j + 1, fat[p[j]]))
  }

  lemma PathOf(fat: seq<nat>, chain: seq<nat>, k: nat)
    requires Chain(fat, chain) && k < |chain|
    ensures Chain(fat, chain[k..]) && Path(fat, chain, chain[k..])
  {
    ChainSuffix(fat, chain, k);
    forall j | 0 <= j < |chain[k..]| ensures chain[k..][j] in chain { assert chain[k..][j] == chain[k + j]; }
  }

  lemma VisitNext<A, B>(fat: seq<nat>, p: seq<nat>, step: nat, off: nat, acc: A, op: (A, nat, nat) -> Flow<A, B>)
    requires (forall i :: 0 <= i < |p| ==> p[i] < |fat|) && step < |p|
    ensures var flow := op(acc, fat[p[step]], off + 1);
            Visit(fat, p[step..], off, acc, op) ==
            if flow.Break? then flow else Visit(fat, p[step + 1..], off + 1, flow.acc, op)
  {
    assert p[step..][1..] == p[step + 1..];
  }

  // ----- Requests -----

  /** What a file may ask of the manager under its lock: the first cluster of a new file, one more
      cluster, one round of a truncation, or the release of the only cluster.  A request that names no
      such file or position is refused. */
  datatype Request = Create | Extend(file: nat) | Round(file: nat, at: nat) | Release(file: nat)

  /** How a request ended: all was done; a round used up its permits; no cluster was free; an operation
      failed; or it was refused. */
  datatype Ending = All | Part | NoSpace | Fault | Refused

  /** And how many clusters a round freed. */
  datatype Reply = Reply(end: Ending, freed: nat)

  /** The table, its chains and the number of fallible operations so far, at one moment. */
  datatype Moment = Moment(fat: seq<nat>, chains: seq<seq<nat>>, clock: nat)

  /** Which operations fail, and how far the table goes. */
  datatype Disk = Disk(fault: nat -> bool, max: nat)

  /** Cluster `c` was free, and now ends a chain. */
  predicate Taken(fat: seq<nat>, c: nat) {
    c < |fat| && IsNext(c) && fat[c] == FREE
  }

  predicate Holds(m: Moment, fat: seq<nat>, chains: seq<seq<nat>>) {
    m.fat == fat && m.chains == chains
  }

  /** Chain `i` goes on with `c`. */
  ghost predicate Extended(m: Moment, i: nat, c: nat, m': Moment) {
    && i < |m.chains| && m.chains[i] != [] && c < |m.fat|
    && var last := m.chains[i][|m.chains[i]| - 1];
       last < |m.fat| && Holds(m', m.fat[c := LAST][last := c], m.chains[i := m.chains[i] + [c]])
  }

  /** What a request does: all of it when it succeeds, nothing when it fails, except that a round may
      have freed a part of the tail. */
  ghost predicate Effect(request: Request, r: Reply, m: Moment, m': Moment) {
    match request
    case Create =>
      if r.end.All? then exists c: nat :: Taken(m.fat, c) && Holds(m', m.fat[c := LAST], m.chains + [[c]])
      else Holds(m', m.fat, m.chains)
    case Extend(i) =>
      if r.end.All? then exists c: nat :: Taken(m.fat, c) && Extended(m, i, c, m')
      else Holds(m', m.fat, m.chains)
    case Round(i, k) =>
      if i < |m.chains| && k < |m.chains[i]|
      then Freeing(m.fat, m.chains, i, k, r.freed, m'.fat, m'.chains) && (r.end.All? ==> k + r.freed + 1 == |m.chains[i]|)
      else !r.end.All? && Holds(m', m.fat, m.chains)
    case Release(i) =>
      if r.end.All? then i < |m.chains| && |m.chains[i]| == 1 && m.chains[i][0] < |m.fat|
                         && Holds(m', m.fat[m.chains[i][0] := FREE], m.chains[i := []])
      else Holds(m', m.fat, m.chains)
  }

  /** The request names a file, and a position in it, of the kind it needs. */
  predicate Formed(request: Request, m: Moment) {
    match request
    case Create => true
    case Extend(i) => i < |m.chains| && m.chains[i] != []
    case Round(i, k) => i < |m.chains| && k < |m.chains[i]|
    case Release(i) => i < |m.chains| && |m.chains[i]| == 1
  }

  /** When a request fails: just when it is not well formed, or an operation failed meanwhile, or a cluster
      was wanted and none was free.  A round stops early only after it freed something. */
  ghost predicate Ended(d: Disk, request: Request, r: Reply, m: Moment, m': Moment) {
    && m.clock <= m'.clock
    && (r.end.Refused? <==> !Formed(request, m))
    && (r.end.Fault? <==> Faults(d.fault, m.clock, m'.clock))
    && (r.end.NoSpace? <==> && (request.Create? || request.Extend?) && Formed(request, m)
                            && NoneFree(m.fat, d.max, 0, d.max) && !Faults(d.fault, m.clock, m'.clock))
    && (r.end.Part? ==> request.Round? && r.freed > 0)
  }

  ghost predicate Answered(d: Disk, request: Request, r: Reply, m: Moment, m': Moment) {
    Effect(request, r, m, m') && Ended(d, request, r, m, m')
  }

  /** Requests answered one after the other, from moment to moment. */
  datatype Trace = Trace(disk: Disk, requests: seq<Request>, replies: seq<Reply>, moments: seq<Moment>)

  ghost predicate AnsweredAt(t: Trace, j: nat) {
    && j < |t.requests| && j < |t.replies| && j + 1 < |t.moments|
    && Answered(t.disk, t.requests[j], t.replies[j], t.moments[j], t.moments[j + 1])
  }

  ghost predicate History(t: Trace) {
    && |t.replies| == |t.requests| && |t.moments| == |t.requests| + 1
    && forall j: nat :: j < |t.requests| ==> AnsweredAt(t, j)
  }

  lemma EffectAt(t: Trace, n: nat)
    requires History(t) && n < |t.requests|
    ensures Effect(t.requests[n], t.replies[n], t.moments[n], t.moments[n + 1])
  {
    assert AnsweredAt(t, n);
  }

  function Last(t: Trace): Moment
    requires t.moments != []
  {
    t.moments[|t.moments| - 1]
  }

  function Then(t: Trace, request: Request, r: Reply, m: Moment): Trace {
    Trace(t.disk, t.requests + [request], t.replies + [r], t.moments + [m])
  }

  function Joined(t: Trace, u: Trace): Trace
    requires u.moments != []
  {
    Trace(t.disk, t.requests + u.requests, t.replies + u.replies, t.moments + u.moments[1..])
  }

  lemma HistoryGoesOn(t: Trace, request: Request, r: Reply, m: Moment)
    requires History(t) && Answered(t.disk, request, r, Last(t), m)
    ensures History(Then(t, request, r, m)) && Last(Then(t, request, r, m)) == m
  {
    var u := Then(t, request, r, m);
    forall j: nat | j < |u.requests| ensures AnsweredAt(u, j) {
      if j < |t.requests| { assert AnsweredAt(t, j); }
    }
  }

  lemma HistoriesJoin(t: Trace, u: Trace)
    requires History(t) && History(u) && u.disk == t.disk && u.moments[0] == Last(t)
    ensures History(Joined(t, u)) && Last(Joined(t, u)) == Last(u)
  {
    var (v, n) := (Joined(t, u), |t.requests|);
    forall j: nat | j < |v.requests| ensures AnsweredAt(v, j) {
      if j < n { assert AnsweredAt(t, j); } else { assert AnsweredAt(u, j - n); }
    }
  }

  // ----- What other files do -----

  predicate Avoids(request: Request, i: nat) {
    request.Create? || request.file != i
  }

  /** Nobody else asks for anything. */
  predicate Silent(others: seq<seq<Request>>) {
    forall j :: 0 <= j < |others| ==> others[j] == []
  }

  predicate AllAvoid(requests: seq<Request>, i: nat) {
    forall j :: 0 <= j < |requests| ==> Avoids(requests[j], i)
  }

  /** The chain of file `i` is the same, entry by entry. */
  ghost predicate Undisturbed(m: Moment, m': Moment, i: nat) {
    && |m'.fat| == |m.fat| && i < |m.chains| && i < |m'.chains| && m'.chains[i] == m.chains[i]
    && forall c :: c in m.chains[i] && c < |m.fat| ==> m'.fat[c] == m.fat[c]
  }

  /** A request of another file leaves the chain alone. */
  lemma OthersLeave(request: Request, r: Reply, m: Moment, m': Moment, max: nat, i: nat)
    requires Effect(request, r, m, m') && Avoids(request, i) && Forest(m.fat, max, m.chains) && i < |m.chains|
    ensures Undisturbed(m, m', i)
  {
    forall c | c in m.chains[i] && c < |m.fat| ensures m.fat[c] != FREE {
      var k :| 0 <= k < |m.chains[i]| && m.chains[i][k] == c;
      ChainUsed(m.fat, m.chains[i], k);
    }
    if !request.Create? && request.file < |m.chains| {
      var j := request.file;
      ChainsKeepApart(m.fat, max, m.chains, i, j);
      if request.Round? && request.at < |m.chains[j]| { RoundKeeps(r, m, m', i, j, request.at); }
    }
  }

  lemma RoundKeeps(r: Reply, m: Moment, m': Moment, i: nat, j: nat, k: nat)
    requires Freeing(m.fat, m.chains, j, k, r.freed, m'.fat, m'.chains) && i < |m.chains| && i != j
    requires Disjoint(m.chains[i], m.chains[j])
    ensures Undisturbed(m, m', i)
  {
    var x := m.chains[j][k..k + 1 + r.freed];
    FreedExactly(m.fat, m.chains, j, k, r.freed, m'.fat, m'.chains);
    assert forall b :: 0 <= b < |x| ==> x[b] == m.chains[j][k + b];
    assert forall c :: c in m.chains[i] ==> c !in x;
  }

  lemma UndisturbedEnd(m: Moment, m': Moment, i: nat)
    requires Undisturbed(m, m', i) && m.chains[i] != [] && EndMarked(m.fat, m.chains[i])
    ensures EndMarked(m'.fat, m'.chains[i])
  {
    var p := m.chains[i];
    assert p[|p| - 1] in p;
  }

  lemma RoundEnd(r: Reply, m: Moment, m': Moment, i: nat, k: nat)
    requires Freeing(m.fat, m.chains, i, k, r.freed, m'.fat, m'.chains) && EndMarked(m.fat, m.chains[i])
    ensures m'.chains[i] != [] && EndMarked(m'.fat, m'.chains[i])
  {
    var (p, n) := (m.chains[i], r.freed);
    if k + n + 1 == |p| {
      assert m'.chains[i] == p[..k + 1] && p[k..][0] == p[k];
    } else {
      FreedExactly(m.fat, m.chains, i, k, n, m'.fat, m'.chains);
      LastIsBehind(m.fat, p, k, n);
    }
  }

  lemma LastIsBehind(fat: seq<nat>, p: seq<nat>, k: nat, n: nat)
    requires k + n + 1 < |p| && Chain(fat, p[k..])
    ensures p[|p| - 1] !in p[k..k + 1 + n]
  {
    ChainIsAcyclic(fat, p[k..]);
    assert forall b :: 0 <= b <= n ==> p[k..][b] == p[k..k + 1 + n][b];
    assert p[k..][|p| - k - 1] == p[|p| - 1];
  }

  /** The file that asks for it ends with an end mark afterwards. */
  lemma OwnEnd(request: Request, r: Reply, m: Moment, m': Moment, i: nat)
    requires Effect(request, r, m, m') && !request.Create? && request.file == i < |m.chains|
    requires m.chains[i] == [] || (Chain(m.fat, m.chains[i]) && EndMarked(m.fat, m.chains[i]))
    ensures i < |m'.chains| && (m'.chains[i] == [] || EndMarked(m'.fat, m'.chains[i]))
  {
    match request
    case Extend(_) => if r.end.All? { ChainUsed(m.fat, m.chains[i], |m.chains[i]| - 1); }
    case Round(_, k) => if k < |m.chains[i]| { RoundEnd(r, m, m', i, k); }
    case Release(_) =>
  }

  /** A new file does, and no others appear. */
  lemma NewEnd(request: Request, r: Reply, m: Moment, m': Moment, i: nat)
    requires Effect(request, r, m, m') && |m.chains| <= i < |m'.chains|
    ensures m'.chains[i] != [] && EndMarked(m'.fat, m'.chains[i])
  {
  }

  /** No request leaves a file that ends otherwise, if there was none before. */
  lemma EndsStayMarked(request: Request, r: Reply, m: Moment, m': Moment, max: nat)
    requires Effect(request, r, m, m') && Forest(m.fat, max, m.chains) && EndsMarked(m.fat, m.chains)
    ensures EndsMarked(m'.fat, m'.chains)
  {
    forall i: nat | i < |m'.chains| && m'.chains[i] != [] ensures EndMarked(m'.fat, m'.chains[i]) {
      if i >= |m.chains| {
        NewEnd(request, r, m, m', i);
      } else if Avoids(request, i) {
        OthersLeave(request, r, m, m', max, i);
        UndisturbedEnd(m, m', i);
      } else {
        OwnEnd(request, r, m, m', i);
      }
    }
  }

  // ----- A truncation among other requests -----

  /** Clusters freed by the rounds of file `i` among the first `n` requests. */
  function FreedBy(t: Trace, i: nat, n: nat): nat
    requires n <= |t.requests| && n <= |t.replies|
  {
    if n == 0 then 0
    else FreedBy(t, i, n - 1) + if Avoids(t.requests[n - 1], i) then 0 else t.replies[n - 1].freed
  }

  lemma {:induction false} FreedByPrefix(t: Trace, u: Trace, i: nat, n: nat)
    requires n <= |t.requests| <= |u.requests| && n <= |t.replies| <= |u.replies|
    requires forall j :: 0 <= j < n ==> u.requests[j] == t.requests[j] && u.replies[j] == t.replies[j]
    ensures FreedBy(u, i, n) == FreedBy(t, i, n)
  {
    if n > 0 { FreedByPrefix(t, u, i, n - 1); }
  }

  lemma {:induction false} FreedByOthers(t: Trace, i: nat, m: nat, n: nat)
    requires m <= n <= |t.requests| && n <= |t.replies| && forall j :: m <= j < n ==> Avoids(t.requests[j], i)
    ensures FreedBy(t, i, n) == FreedBy(t, i, m)
  {
    if m < n { FreedByOthers(t, i, m, n - 1); }
  }

  /** File `i` asks for nothing but rounds of its truncation behind position `k`. */
  predicate OnlyTruncates(requests: seq<Request>, i: nat, k: nat) {
    forall j :: 0 <= j < |requests| ==> requests[j] == Round(i, k) || Avoids(requests[j], i)
  }

  /** `q` is the chain `p` without the `f` clusters behind position `k`. */
  ghost predicate Remains(p: seq<nat>, k: nat, f: nat, q: seq<nat>) {
    k + f < |p| && q == p[..k + 1] + p[k + 1 + f..]
  }

  lemma RemainsAll(p: seq<nat>, k: nat)
    requires k < |p|
    ensures Remains(p, k, 0, p)
  {
  }

  lemma RemainsLess(p: seq<nat>, k: nat, a: nat, q: seq<nat>, b: nat, q': seq<nat>)
    requires Remains(p, k, a, q) && Remains(q, k, b, q')
    ensures Remains(p, k, a + b, q') && |q| == |p| - a && q[k] == p[k]
    ensures q[k + 1..k + 1 + b] == p[k + 1 + a..k + 1 + a + b]
    ensures q[k..k + 1 + b] == [p[k]] + p[k + 1 + a..k + 1 + a + b]
  {
    assert q[k + 1..] == p[k + 1 + a..];
    assert q[k + 1..k + 1 + b] == q[k + 1..][..b] == p[k + 1 + a..][..b];
    assert q[k..k + 1 + b] == [q[k]] + q[k + 1..k + 1 + b];
    assert q'[..k + 1] == p[..k + 1] && q'[k + 1..] == q[k + 1..][b..] == p[k + 1 + a..][b..];
  }

  lemma OthersRemain(request: Request, r: Reply, m: Moment, m': Moment, i: nat)
    requires Effect(request, r, m, m') && Avoids(request, i) && i < |m.chains|
    ensures i < |m'.chains| && m'.chains[i] == m.chains[i]
  {
  }

  lemma RoundRemains(r: Reply, m: Moment, m': Moment, i: nat, k: nat)
    requires Effect(Round(i, k), r, m, m') && i < |m.chains| && k < |m.chains[i]|
    ensures i < |m'.chains| && Remains(m.chains[i], k, r.freed, m'.chains[i])
    ensures r.end.All? ==> k + r.freed + 1 == |m.chains[i]|
  {
  }

  /** Whatever other files ask meanwhile, a truncation takes its tail away front to back, and nothing
      else from the file. */
  lemma {:induction false} TruncationGoesOn(t: Trace, i: nat, k: nat, n: nat)
    requires History(t) && n <= |t.requests| && OnlyTruncates(t.requests, i, k)
    requires i < |t.moments[0].chains| && k < |t.moments[0].chains[i]|
    ensures i < |t.moments[n].chains| && Remains(t.moments[0].chains[i], k, FreedBy(t, i, n), t.moments[n].chains[i])
  {
    var p := t.moments[0].chains[i];
    if n == 0 {
      RemainsAll(p, k);
    } else {
      TruncationGoesOn(t, i, k, n - 1);
      var (m, m', r) := (t.moments[n - 1], t.moments[n], t.replies[n - 1]);
      EffectAt(t, n - 1);
      if Avoids(t.requests[n - 1], i) {
        OthersRemain(t.requests[n - 1], r, m, m', i);
      } else {
        RoundRemains(r, m, m', i, k);
        RemainsLess(p, k, FreedBy(t, i, n - 1), m.chains[i], r.freed, m'.chains[i]);
      }
    }
  }

  /** A round goes into the history. */
  lemma RoundInHistory(t: Trace, i: nat, k: nat, p: seq<nat>, f: nat, r: Reply, m: Moment, t': Trace)
    requires History(t) && OnlyTruncates(t.requests, i, k) && f == FreedBy(t, i, |t.requests|)
    requires i < |Last(t).chains| && Remains(p, k, f, Last(t).chains[i])
    requires Answered(t.disk, Round(i, k), r, Last(t), m) && t' == Then(t, Round(i, k), r, m)
    ensures History(t') && Last(t') == m && OnlyTruncates(t'.requests, i, k)
    ensures f + r.freed == FreedBy(t', i, |t'.requests|)
    ensures i < |m.chains| && Remains(p, k, f + r.freed, m.chains[i]) && (r.end.All? ==> k + f + r.freed + 1 == |p|)
  {
    HistoryGoesOn(t, Round(i, k), r, m);
    FreedByPrefix(t, t', i, |t.requests|);
    RoundRemains(r, Last(t), m, i, k);
    RemainsLess(p, k, f, Last(t).chains[i], r.freed, m.chains[i]);
  }

  /** And so do requests of others. */
  lemma OthersInHistory(t: Trace, u: Trace, i: nat, k: nat, f: nat, t': Trace)
    requires History(t) && OnlyTruncates(t.requests, i, k) && f == FreedBy(t, i, |t.requests|)
    requires History(u) && u.disk == t.disk && AllAvoid(u.requests, i) && u.moments[0] == Last(t) && t' == Joined(t, u)
    ensures History(t') && Last(t') == Last(u) && OnlyTruncates(t'.requests, i, k) && f == FreedBy(t', i, |t'.requests|)
  {
    HistoriesJoin(t, u);
    FreedByPrefix(t, t', i, |t.requests|);
    FreedByOthers(t', i, |t.requests|, |t'.requests|);
  }

  /** Exactly the clusters in `x` turned free, and nothing but they and the entry of `c` changed. */
  ghost predicate FreesOnly(fat: seq<nat>, fat': seq<nat>, x: seq<nat>, c: nat) {
    && |fat'| == |fat|
    && (forall d :: 0 <= d < |fat| ==> (fat'[d] == FREE <==> fat[d] == FREE || d in x))
    && (forall d :: 0 <= d < |fat| && d !in x && d != c ==> fat'[d] == fat[d])
  }

  lemma RoundFrees(r: Reply, m: Moment, m': Moment, i: nat, k: nat)
    requires Effect(Round(i, k), r, m, m') && i < |m.chains| && k < |m.chains[i]|
    ensures k + r.freed < |m.chains[i]| && FreesOnly(m.fat, m'.fat, m.chains[i][k + 1..k + 1 + r.freed], m.chains[i][k])
  {
    FreedExactly(m.fat, m.chains, i, k, r.freed, m'.fat, m'.chains);
    var p := m.chains[i];
    assert p[k..k + 1 + r.freed] == [p[k]] + p[k + 1..k + 1 + r.freed];
  }

  lemma RoundIsExact(r: Reply, m: Moment, m': Moment, i: nat, k: nat, p: seq<nat>, f: nat, f': nat)
    requires Effect(Round(i, k), r, m, m') && i < |m.chains| && Remains(p, k, f, m.chains[i]) && f' == f + r.freed
    ensures k + f' < |p| && (r.end.All? ==> k + f' + 1 == |p|) && FreesOnly(m.fat, m'.fat, p[k + 1 + f..k + 1 + f'], p[k])
  {
    var q := m.chains[i];
    RoundRemains(r, m, m', i, k);
    RemainsLess(p, k, f, q, r.freed, m'.chains[i]);
    assert q[k + 1..k + 1 + r.freed] == p[k + 1 + f..k + 1 + f'] && q[k] == p[k];
    RoundFrees(r, m, m', i, k);
  }

  /** And each of its rounds frees exactly the next clusters of the tail: nothing but they, and the link
      in front of them, changes in the table.  A round that succeeds has freed the last of them. */
  lemma TruncationIsExact(t: Trace, i: nat, k: nat, n: nat, p: seq<nat>)
    requires History(t) && n < |t.requests| && OnlyTruncates(t.requests, i, k) && !Avoids(t.requests[n], i)
    requires i < |t.moments[0].chains| && p == t.moments[0].chains[i] && k < |p|
    ensures var (f, f') := (FreedBy(t, i, n), FreedBy(t, i, n + 1));
            && f <= f' && k + f' < |p| && (t.replies[n].end.All? ==> k + f' + 1 == |p|)
            && FreesOnly(t.moments[n].fat, t.moments[n + 1].fat, p[k + 1 + f..k + 1 + f'], p[k])
  {
    TruncationGoesOn(t, i, k, n);
    EffectAt(t, n);
    RoundIsExact(t.replies[n], t.moments[n], t.moments[n + 1], i, k, p, FreedBy(t, i, n), FreedBy(t, i, n + 1));
  }

  /** Left to itself, a truncation in rounds is one truncation of the original table. */
  lemma {:induction false} UndisturbedTruncation(t: Trace, i: nat, k: nat, n: nat)
    requires History(t) && n <= |t.requests| && (forall j :: 0 <= j < |t.requests| ==> t.requests[j] == Round(i, k))
    requires i < |t.moments[0].chains| && k < |t.moments[0].chains[i]| && Chain(t.moments[0].fat, t.moments[0].chains[i][k..])
    ensures var (m, m') := (t.moments[0], t.moments[n]);
            Freeing(m.fat, m.chains, i, k, FreedBy(t, i, n), m'.fat, m'.chains)
  {
    if n == 0 {
      CutNothing(t.moments[0].chains, i, k);
    } else {
      UndisturbedTruncation(t, i, k, n - 1);
      UndisturbedRound(t, i, k, n - 1);
    }
  }

  lemma UndisturbedRound(t: Trace, i: nat, k: nat, n: nat)
    requires History(t) && n < |t.requests| && t.requests[n] == Round(i, k)
    requires var (m, v) := (t.moments[0], t.moments[n]); Freeing(m.fat, m.chains, i, k, FreedBy(t, i, n), v.fat, v.chains)
    ensures var (m, w) := (t.moments[0], t.moments[n + 1]);
            Freeing(m.fat, m.chains, i, k, FreedBy(t, i, n + 1), w.fat, w.chains)
  {
    EffectAt(t, n);
    OneRoundMore(t.moments[0], t.moments[n], t.moments[n + 1], t.replies[n], i, k, FreedBy(t, i, n));
  }

  lemma OneRoundMore(m: Moment, v: Moment, w: Moment, r: Reply, i: nat, k: nat, f: nat)
    requires Freeing(m.fat, m.chains, i, k, f, v.fat, v.chains) && Effect(Round(i, k), r, v, w)
    ensures Freeing(m.fat, m.chains, i, k, f + r.freed, w.fat, w.chains)
  {
    CutTwice(m.chains, i, k, f, 0, f);
    FreeingMore(m.fat, m.chains, i, k, f, r.freed, f + r.freed, v.fat, v.chains, w.fat, w.chains);
  }

  function Unserved(e: Error): Ending {
    match e
    case ENOSPC => NoSpace
    case EIO => Fault
  }

  function EndingOf(end: Outcome): Ending {
    match end
    case Finished => All
    case Exhausted => Part
    case Failed(e) => Unserved(e)
  }

  // ----- Conservation -----

  function Clusters(chains: seq<seq<nat>>): nat {
    if chains == [] then 0 else Clusters(chains[..|chains| - 1]) + |chains[|chains| - 1]|
  }

  lemma {:induction false} ClustersUpdate(chains: seq<seq<nat>>, i: nat, p: seq<nat>)
    requires i < |chains|
    ensures Clusters(chains[i := p]) == Clusters(chains) - |chains[i]| + |p|
  {
    var n := |chains| - 1;
    if i < n {
      ClustersUpdate(chains[..n], i, p);
      assert chains[i := p][..n] == chains[..n][i := p];
    } else {
      assert chains[i := p][..n] == chains[..n];
    }
  }

  /** `free_cluster` on a cluster of a file gives up the file: no cluster is lost just when it was the only
      one. */
  lemma ReleaseConserves(chains: seq<seq<nat>>, i: nat, free: nat)
    requires i < |chains| && chains[i] != []
    ensures free + 1 + Clusters(chains[i := []]) == free + Clusters(chains) <==> |chains[i]| == 1
  {
    ClustersUpdate(chains, i, []);
  }

  /** The permits a round asks for: a quarter of all, but at least two and at most ten. */
  function RoundPermits(maxDirty: nat): (r: nat)
    ensures 2 <= r <= 10 && (8 <= maxDirty < 44 ==> r == maxDirty / 4)
  {
    if maxDirty / 4 < 2 then 2 else if maxDirty / 4 > 10 then 10 else maxDirty / 4
  }

  class FatList {
    const manager: ListManager
    const maxDirty: nat       // permits of the dirty semaphore
    var files: seq<seq<nat>>  // the clusters of each file, as its inode knows them

    /** The inodes know the chains of their files, which are acyclic and disjoint. */
    ghost predicate Valid()
      reads this`files, manager`fat, manager`clusterFree, manager`clusterSearch, manager`chains
    {
      manager.Valid() && files == manager.chains
    }

    ghost function Now(): Moment
      reads manager`fat, manager`chains, manager`clock
    {
      Moment(manager.fat, manager.chains, manager.clock)
    }

    ghost function Medium(): Disk {
      Disk(manager.fault, manager.maxCid)
    }

    /** An operation has failed since the `from`-th. */
    ghost predicate Faulted(from: nat)
      reads manager`clock
    {
      Faults(manager.fault, from, manager.clock)
    }

    /** All clusters that are free or in a file. */
    ghost function Stock(): nat
      reads manager`clusterFree, manager`chains
    {
      manager.clusterFree + Clusters(manager.chains)
    }

    constructor (manager: ListManager, maxDirty: nat, files: seq<seq<nat>>)
      requires manager.Valid() && files == manager.chains
      ensures Valid() && this.manager == manager && this.maxDirty == maxDirty && this.files == files
    {
      this.manager, this.maxDirty, this.files := manager, maxDirty, files;
    }

    method Create() returns (r: Reply)
      requires Valid()
      modifies this, manager
      ensures Valid() && Answered(Medium(), Request.Create, r, old(Now()), Now()) && Stock() == old(Stock())
    {
      CountFreeZero(manager.fat, manager.maxCid);
      var c := manager.AllocCluster();
      if c.Failure? { return Reply(Unserved(c.error), 0); }
      files := files + [[c.value]];
      assert files[..|files| - 1] == old(files);
      assert Taken(old(manager.fat), c.value);
      r := Reply(All, 0);
    }

    method Extend(i: nat) returns (r: Reply)
      requires Valid()
      modifies this, manager
      ensures Valid() && Answered(Medium(), Request.Extend(i), r, old(Now()), Now()) && Stock() == old(Stock())
    {
      if i >= |files| || files[i] == [] { return Reply(Refused, 0); }
      CountFreeZero(manager.fat, manager.maxCid);
      var c := manager.AllocClusterAfter(i, files[i][|files[i]| - 1]);
      if c.Failure? { return Reply(Unserved(c.error), 0); }
      ClustersUpdate(files, i, files[i] + [c.value]);
      files := files[i := files[i] + [c.value]];
      assert Taken(old(manager.fat), c.value) && Extended(old(Now()), i, c.value, Now());
      r := Reply(All, 0);
    }

    method Release(i: nat) returns (r: Reply)
      requires Valid()
      modifies this, manager
      ensures Valid() && Answered(Medium(), Request.Release(i), r, old(Now()), Now()) && Stock() == old(Stock())
    {
      if i >= |files| || |files[i]| != 1 { return Reply(Refused, 0); }
      assert Chain(manager.fat, files[i]);
      var c := manager.FreeCluster(i, files[i][0]);
      if c.Failure? { return Reply(Unserved(c.error), 0); }
      ClustersUpdate(files, i, []);
      files := files[i := []];
      r := Reply(All, 0);
    }

    /** One round of `free_cluster_at`, with two to ten permits. */
    method Truncate(i: nat, k: nat) returns (n: nat, end: Outcome)
      requires Valid() && i < |files| && k < |files[i]|
      modifies this, manager
      ensures Valid() && Answered(Medium(), Round(i, k), Reply(EndingOf(end), n), old(Now()), Now()) && Stock() == old(Stock())
      ensures end == Exhausted ==> n + 1 >= RoundPermits(maxDirty)
      ensures end.Failed? ==> end.error == EIO
    {
      var sems := RoundPermits(maxDirty);
      assert Chain(manager.fat, files[i][k..]) by { CutKeepsAll(manager.fat, manager.maxCid, files, i, k, 0); }
      n, end := manager.FreeClusterAt(i, k, files[i][k], sems);
      assert Clusters(Cut(files, i, k, n)) + n == Clusters(files) by { ClustersUpdate(files, i, Cut(files, i, k, n)[i]); }
      files := Cut(files, i, k, n);
    }

    /** One request, with any outcome. */
    method Answer(request: Request) returns (r: Reply)
      requires Valid()
      modifies this, manager
      ensures Valid() && Answered(Medium(), request, r, old(Now()), Now()) && Stock() == old(Stock())
    {
      match request
      case Create => r := Create();
      case Extend(i) => r := Extend(i);
      case Release(i) => r := Release(i);
      case Round(i, k) =>
        if i >= |files| || k >= |files[i]| { return Reply(Refused, 0); }
        var n, end := Truncate(i, k);
        r := Reply(EndingOf(end), n);
    }

    method ServeOne(request: Request, ghost t: Trace) returns (r: Reply, ghost t': Trace)
      requires Valid() && History(t) && t.disk == Medium() && Last(t) == Now()
      modifies this, manager
      ensures Valid() && Stock() == old(Stock()) && manager.clock >= old(manager.clock)
      ensures EndsMarked(old(manager.fat), old(files)) ==> EndsMarked(manager.fat, files)
      ensures t' == Then(t, request, r, Now()) && History(t') && Last(t') == Now()
      ensures forall i :: 0 <= i < |old(files)| && Avoids(request, i) ==> Undisturbed(old(Now()), Now(), i)
    {
      r := Answer(request);
      t' := Then(t, request, r, Now());
      HistoryGoesOn(t, request, r, Now());
      if EndsMarked(old(manager.fat), old(files)) { EndsStayMarked(request, r, old(Now()), Now(), manager.maxCid); }
      forall i: nat | i < |old(files)| && Avoids(request, i) ensures Undisturbed(old(Now()), Now(), i) {
        OthersLeave(request, r, old(Now()), Now(), manager.maxCid, i);
      }
    }

    /** Over any sequence of requests, errors included, each is answered as it should be, chains stay
        acyclic, disjoint and ended by end marks, the free count stays right, no cluster is lost or found,
        and no file is disturbed by the requests of others. */
    method Serve(requests: seq<Request>) returns (replies: seq<Reply>, ghost t: Trace)
      requires Valid()
      modifies this, manager
      ensures Valid() && Stock() == old(Stock())
      ensures History(t) && t.disk == Medium() && t.requests == requests && t.replies == replies
      ensures manager.clock >= old(manager.clock)
      ensures t.moments[0] == old(Now()) && Last(t) == Now()
      ensures forall i :: 0 <= i < |old(files)| && AllAvoid(requests, i) ==> Undisturbed(old(Now()), Now(), i)
      ensures EndsMarked(old(manager.fat), old(files)) ==> EndsMarked(manager.fat, files)
    {
      replies, t := [], Trace(Medium(), [], [], [Now()]);
      for k := 0 to |requests|
        invariant Valid() && Stock() == old(Stock()) && manager.clock >= old(manager.clock)
        invariant EndsMarked(old(manager.fat), old(files)) ==> EndsMarked(manager.fat, files)
        invariant History(t) && t.disk == Medium() && t.requests == requests[..k] && t.replies == replies
        invariant t.moments[0] == old(Now()) && Last(t) == Now()
        invariant forall i :: 0 <= i < |old(files)| && AllAvoid(requests, i) ==> Undisturbed(old(Now()), Now(), i)
      {
        ghost var m := Now();
        var r;
        r, t := ServeOne(requests[k], t);
        forall i: nat | i < |old(files)| && AllAvoid(requests, i) ensures Undisturbed(old(Now()), Now(), i) {
          assert Undisturbed(m, Now(), i);
        }
        replies := replies + [r];
      }
      assert requests[..|requests|] == requests;
    }

    /** A truncation behind position `k` of file `i`, which was `p`, has freed `f` clusters so far; `t` is
        what happened meanwhile. */
    ghost predicate Truncating(t: Trace, i: nat, k: nat, p: seq<nat>, f: nat)
      reads this`files, manager`fat, manager`clusterFree, manager`clusterSearch, manager`chains, manager`clock
    {
      && Valid() && i < |files| && Remains(p, k, f, files[i])
      && History(t) && t.disk == Medium() && Last(t) == Now() && OnlyTruncates(t.requests, i, k) && f == FreedBy(t, i, |t.requests|)
    }

    method TruncateOnce(i: nat, k: nat, ghost p: seq<nat>, ghost f: nat, ghost t: Trace)
      returns (n: nat, end: Outcome, ghost t': Trace)
      requires Truncating(t, i, k, p, f)
      modifies this, manager
      ensures Truncating(t', i, k, p, f + n) && t'.moments[0] == t.moments[0] && Stock() == old(Stock())
      ensures end == Finished ==> k + f + n + 1 == |p|
      ensures end == Exhausted ==> n > 0
      ensures end.Failed? ==> end.error == EIO
      ensures t'.requests == t.requests + [Round(i, k)] && t'.replies == t.replies + [Reply(EndingOf(end), n)]
      ensures manager.clock >= old(manager.clock) && (end.Failed? <==> Faulted(old(manager.clock)))
    {
      n, end := Truncate(i, k);
      ghost var r := Reply(EndingOf(end), n);
      t' := Then(t, Round(i, k), r, Now());
      RoundInHistory(t, i, k, p, f, r, Now(), t');
    }

    /** Others are served while a truncation waits for permits. */
    method Meanwhile(requests: seq<Request>, ghost i: nat, ghost k: nat, ghost p: seq<nat>, ghost f: nat, ghost t: Trace)
      returns (ghost t': Trace)
      requires Truncating(t, i, k, p, f) && AllAvoid(requests, i)
      modifies this, manager
      ensures Truncating(t', i, k, p, f) && t'.moments[0] == t.moments[0] && Stock() == old(Stock())
      ensures manager.clock >= old(manager.clock)
    {
      var _, u := Serve(requests);
      t' := Joined(t, u);
      OthersInHistory(t, u, i, k, f, t');
    }

    /** `free_cluster_at`: rounds until nothing is left behind position `k` of file `i`, with the
        requests of `others` served between the rounds, while the manager is not locked.  The file loses
        its tail front to back, and all of it on success; the number returned is that of the clusters
        freed.  It fails only when an operation of its last round failed.  `TruncationIsExact` says what each
        round does to the table. */
    method FreeClusterAt(i: nat, k: nat, others: seq<seq<Request>>)
      returns (freed: nat, r: Result<(), Error>, ghost t: Trace)
      requires Valid() && i < |files| && k < |files[i]|
      requires forall j :: 0 <= j < |others| ==> AllAvoid(others[j], i)
      modifies this, manager
      ensures Truncating(t, i, k, old(files)[i], freed) && t.moments[0] == old(Now()) && Stock() == old(Stock())
      ensures r.Success? ==> k + freed + 1 == |old(files)[i]|
      ensures r.Failure? ==> r.error == EIO && Faulted(old(manager.clock))
      ensures |t.requests| > 0 && t.requests[|t.requests| - 1] == Round(i, k)
      ensures t.replies[|t.requests| - 1].end == if r.Success? then All else Fault
    {
      freed, t := 0, Trace(Medium(), [], [], [Now()]);
      var round := 0;
      ghost var p := files[i];
      RemainsAll(p, k);
      while true
        invariant Truncating(t, i, k, p, freed) && t.moments[0] == old(Now()) && Stock() == old(Stock())
        invariant manager.clock >= old(manager.clock)
        decreases |p| - freed
      {
        var n, end;
        n, end, t := TruncateOnce(i, k, p, freed, t);
        freed := freed + n;
        match end
        case Finished => return freed, Success(()), t;
        case Failed(e) => return freed, Failure(e), t;
        case Exhausted =>
          if round < |others| { t := Meanwhile(others[round], i, k, p, freed, t); }
          round := round + 1;
      }
    }

    /** `travel`: follows file `i` from position `k`, telling `op` each successor and its position, with
        the requests of `others` served between the reads.  It sees the chain as it was. */
    method Travel<A, B>(cid: nat, start: nat, init: A, op: (A, nat, nat) -> Flow<A, B>,
                        ghost i: nat, ghost k: nat, others: seq<seq<Request>>)
      returns (r: Result<Flow<A, B>, Error>)
      requires Valid() && (IsNext(cid) ==> i < |files| && k < |files[i]| && files[i][k] == cid)
      requires forall j :: 0 <= j < |others| ==> AllAvoid(others[j], i)
      modifies this, manager
      ensures Valid() && Stock() == old(Stock())
      ensures IsNext(cid) ==> Undisturbed(old(Now()), Now(), i) && Chain(old(manager.fat), old(files)[i][k..])
      ensures r.Failure? ==> r.error == EIO
      ensures Blamed(old(manager.clock), Silent(others), r.Failure?)
      ensures r.Success? ==>
                r.value == Visit(old(manager.fat), if IsNext(cid) then old(files)[i][k..] else [], start, init, op)
    {
      if !IsNext(cid) { return Success(Continue(init)); }
      PathOf(manager.fat, files[i], k);
      r := Follow(cid, start, init, op, i, others, Now(), files[i][k..], Stock());
    }

    /** The loop of `travel` along `p`, a part of file `i` at moment `m`. */
    method Follow<A, B>(cid: nat, start: nat, init: A, op: (A, nat, nat) -> Flow<A, B>,
                        ghost i: nat, others: seq<seq<Request>>, ghost m: Moment, ghost p: seq<nat>, ghost stock: nat)
      returns (r: Result<Flow<A, B>, Error>)
      requires Quiet(m, i, stock) && Path(m.fat, m.chains[i], p) && OnPath(p, 0, cid)
      requires forall j :: 0 <= j < |others| ==> AllAvoid(others[j], i)
      modifies this, manager
      ensures Quiet(m, i, stock)
      ensures r.Failure? ==> r.error == EIO
      ensures Blamed(old(manager.clock), Silent(others), r.Failure?)
      ensures r.Success? ==> r.value == Visit(m.fat, p, start, init, op)
    {
      var cur, acc, unit, step, off := cid, init, None, 0, start;
      ghost var goal := Visit(m.fat, p, start, init, op);
      assert p[0..] == p;
      while IsNext(cur)
        invariant Quiet(m, i, stock) && OnPath(p, step, cur)
        invariant goal == Visit(m.fat, p[step..], off, acc, op)
        invariant Blamed(old(manager.clock), Silent(others), false)
        decreases |p| - step
      {
        var requests := if step < |others| then others[step] else [];
        VisitNext(m.fat, p, step, off, acc, op);
        var nxt := Advance(cur, unit, requests, m, i, p, step, stock, old(manager.clock), Silent(others));
        if nxt.Failure? { return Failure(nxt.error); }
        var flow := op(acc, nxt.value, off + 1);
        if flow.Break? { return Success(flow); }
        acc, unit, cur, step, off := flow.acc, Some(manager.UnitOf(cur)), nxt.value, step + 1, off + 1;
      }
      r := Success(Continue(acc));
    }

    /** What began at operation `from` fails only if an operation failed since, and always then if it is
        `alone`. */
    ghost predicate Blamed(from: nat, alone: bool, fails: bool)
      reads manager`clock
    {
      manager.clock >= from && (fails ==> Faulted(from)) && (alone && Faulted(from) ==> fails)
    }

    /** File `i` is as it was at moment `m`, and no cluster was lost or found. */
    ghost predicate Quiet(m: Moment, i: nat, stock: nat)
      reads this`files, manager`fat, manager`clusterFree, manager`clusterSearch, manager`chains, manager`clock
    {
      Valid() && Stock() == stock && Undisturbed(m, Now(), i)
    }

    /** The entry of `cur`, from the unit at hand or another that is loaded. */
    method Read(cur: nat, unit: Option<nat>, ghost m: Moment, ghost i: nat, ghost p: seq<nat>, ghost step: nat)
      returns (r: Result<nat, Error>)
      requires manager.perUnit > 0 && Undisturbed(m, Now(), i) && Path(m.fat, m.chains[i], p)
      requires step < |p| && cur == p[step]
      modifies manager`clock
      ensures r.Failure? ==> r.error == EIO
      ensures manager.clock == old(manager.clock) + (if unit == Some(manager.UnitOf(cur)) then 0 else 1)
      ensures r.Failure? <==> Faulted(old(manager.clock))
      ensures r.Success? ==> cur < |m.fat| && r.value == m.fat[cur] && OnPath(p, step + 1, r.value)
    {
      assert p[step] in m.chains[i];
      if unit != Some(manager.UnitOf(cur)) {
        var ok := manager.Try();
        if !ok { return Failure(EIO); }
      }
      r := Success(manager.fat[cur]);
    }

    /** Reads one entry; then others are served. */
    method Advance(cur: nat, unit: Option<nat>, requests: seq<Request>, ghost m: Moment, ghost i: nat,
                   ghost p: seq<nat>, ghost step: nat, ghost stock: nat, ghost from: nat, ghost alone: bool)
      returns (r: Result<nat, Error>)
      requires Quiet(m, i, stock) && Path(m.fat, m.chains[i], p) && step < |p| && cur == p[step] && AllAvoid(requests, i)
      requires Blamed(from, alone, false) && (alone ==> requests == [])
      modifies this, manager
      ensures Quiet(m, i, stock) && Blamed(from, alone, r.Failure?)
      ensures r.Failure? ==> r.error == EIO
      ensures r.Success? ==> cur < |m.fat| && r.value == m.fat[cur] && OnPath(p, step + 1, r.value)
    {
      r := Read(cur, unit, m, i, p, step);
      var _, _ := Serve(requests);
    }
  }
}
