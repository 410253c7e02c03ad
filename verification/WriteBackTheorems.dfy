/** What the write-back protocol guarantees in every run. */
module WriteBackTheorems {
  import opened Eviction
  import opened WriteBack
  import opened WriteBackSteps

  // ----- Runs -----

  /** An empty cache over a device whose copies agree. */
  ghost predicate Initial(k: Config, s: State) {
    && k.Ok() && Shape(k, s)
    && (forall u, j :: 0 <= u < k.blocks && 0 <= j < k.copies ==> s.queued[j][u] == s.queued[k.load][u])
    && s == State(map[], map[], {}, {}, s.drawn, multiset{}, multiset{}, Idle, Ready, s.woken, k.maxDirty, 0, s.queued)
  }

  ghost predicate Run(k: Config, states: seq<State>, steps: seq<Step>) {
    && |states| == |steps| + 1 && Initial(k, states[0])
    && forall i {:trigger steps[i]} :: 0 <= i < |steps| ==> Enabled(k, states[i], steps[i]) && states[i + 1] == Apply(k, states[i], steps[i])
  }

  lemma {:induction false} RunKeepsInv(k: Config, states: seq<State>, steps: seq<Step>, i: nat)
    requires Run(k, states, steps) && i < |states|
    ensures Inv(k, states[i])
  {
    if i == 0 {
      forall u: nat ensures BlockOk(k, states[0], u) {}
    } else {
      RunKeepsInv(k, states, steps, i - 1);
      StepKeepsInv(k, states[i - 1], steps[i - 1]);
    }
  }

  // ----- The cache refines a plain array -----

  /** What a reader of block `u` gets: the cached block, or else that on the device. */
  ghost function BlockAt(k: Config, s: State, u: nat): Block
    requires k.Ok() && Shape(k, s) && u < k.blocks
  {
    if u in s.search then s.search[u].content else s.queued[k.load][u]
  }

  ghost function Table(k: Config, s: State): seq<Block>
    requires k.Ok() && Shape(k, s)
  {
    seq(k.blocks, u requires 0 <= u < k.blocks => BlockAt(k, s, u))
  }

  /** The plain array: a write changes one element, and nothing else changes anything. */
  ghost function Written(table: seq<Block>, t: Step): seq<Block> {
    if t.User? && t.user.Write? && t.user.u < |table| then table[t.user.u := t.user.block] else table
  }

  ghost function AllWritten(table: seq<Block>, steps: seq<Step>): seq<Block> {
    if steps == [] then table else Written(AllWritten(table, steps[..|steps| - 1]), steps[|steps| - 1])
  }

  lemma UserRefines(k: Config, s: State, t: UserStep, x: nat)
    requires k.Ok() && Shape(k, s) && UserEnabled(s, t) && x < k.blocks && Shape(k, UserApply(s, t))
    ensures BlockAt(k, UserApply(s, t), x) == if t.Write? && t.u == x then t.block else BlockAt(k, s, x)
  {
  }

  /** Loading and evicting do not change the table: an evicted block equals the device's. */
  lemma CacheRefines(k: Config, s: State, t: CacheStep, x: nat)
    requires k.Ok() && Shape(k, s) && BlockOk(k, s, x)
    requires CacheEnabled(k, s, t) && x < k.blocks && Shape(k, CacheApply(k, s, t))
    ensures BlockAt(k, CacheApply(k, s, t), x) == BlockAt(k, s, x)
  {
  }

  lemma SyncRefines(k: Config, s: State, t: SyncStep, x: nat)
    requires k.Ok() && Shape(k, s) && BlockOk(k, s, x)
    requires SyncEnabled(k, s, t) && x < k.blocks && Shape(k, SyncApply(k, s, t))
    ensures BlockAt(k, SyncApply(k, s, t), x) == BlockAt(k, s, x)
  {
  }

  lemma BlockRefines(k: Config, s: State, t: Step, x: nat)
    requires k.Ok() && Shape(k, s) && BlockOk(k, s, x)
    requires Enabled(k, s, t) && x < k.blocks && Shape(k, Apply(k, s, t))
    ensures BlockAt(k, Apply(k, s, t), x) ==
            if t.User? && t.user.Write? && t.user.u == x then t.user.block else BlockAt(k, s, x)
  {
    match t
    case User(t) => UserRefines(k, s, t, x);
    case Cache(t) => CacheRefines(k, s, t, x);
    case Background(t) => SyncRefines(k, s, t, x);
  }

  lemma StepRefines(k: Config, s: State, t: Step)
    requires Inv(k, s) && Enabled(k, s, t)
    ensures Shape(k, Apply(k, s, t)) && Table(k, Apply(k, s, t)) == Written(Table(k, s), t)
  {
    StepKeepsInv(k, s, t);
    BlocksRefine(k, s, t);
  }

  lemma BlocksRefine(k: Config, s: State, t: Step)
    requires k.Ok() && Shape(k, s) && Enabled(k, s, t) && Shape(k, Apply(k, s, t)) && forall u :: BlockOk(k, s, u)
    ensures Table(k, Apply(k, s, t)) == Written(Table(k, s), t)
  {
    var (table, table') := (Table(k, s), Table(k, Apply(k, s, t)));
    forall x: nat | x < k.blocks ensures table'[x] == Written(table, t)[x] {
      assert BlockOk(k, s, x);
      BlockRefines(k, s, t, x);
    }
  }

  lemma RunRefines(k: Config, states: seq<State>, steps: seq<Step>, i: nat)
    requires Run(k, states, steps) && i < |steps|
    ensures k.Ok() && Shape(k, states[i]) && Shape(k, states[i + 1])
    ensures Table(k, states[i + 1]) == Written(Table(k, states[i]), steps[i])
  {
    RunKeepsInv(k, states, steps, i);
    StepRefines(k, states[i], steps[i]);
  }

  /** In every run the table is the initial one with the writes made to it, in order. */
  lemma {:induction false} CacheRefinesArray(k: Config, states: seq<State>, steps: seq<Step>, i: nat)
    requires Run(k, states, steps) && i < |states|
    ensures k.Ok() && Shape(k, states[0]) && Shape(k, states[i])
    ensures Table(k, states[i]) == AllWritten(Table(k, states[0]), steps[..i])
  {
    if i > 0 {
      CacheRefinesArray(k, states, steps, i - 1);
      RunRefines(k, states, steps, i - 1);
      assert steps[..i][..i - 1] == steps[..i - 1];
    }
  }

  /** An evicted block is on every copy as it was: no update is lost. */
  lemma EvictedIsSaved(k: Config, states: seq<State>, steps: seq<Step>, i: nat, j: nat)
    requires Run(k, states, steps) && i < |steps| && steps[i].Cache? && steps[i].cache.Evict? && j < k.copies
    ensures var (s, v) := (states[i], steps[i].cache.u);
            && v in s.search && Shape(k, s) && v < k.blocks && s.queued[j][v] == s.search[v].content
            && v !in s.dirty && v !in s.writers
  {
    RunKeepsInv(k, states, steps, i);
    assert BlockOk(k, states[i], steps[i].cache.u);
  }

  /** When nothing is dirty or about to be, every copy on the device is the table. */
  lemma QuietMeansSynced(k: Config, states: seq<State>, steps: seq<Step>, i: nat, j: nat)
    requires Run(k, states, steps) && i < |states| && j < k.copies
    requires states[i].dirty == {} && states[i].writers == multiset{}
    ensures Shape(k, states[i]) && k.Ok() && states[i].queued[j] == Table(k, states[i])
  {
    RunKeepsInv(k, states, steps, i);
    forall u: nat | u < k.blocks ensures states[i].queued[j][u] == BlockAt(k, states[i], u) {
      CleanIsSaved(k, states, steps, i, u, j);
    }
  }

  /** A finished round has stored, on every copy, each block that was not changed again meanwhile. */
  lemma RoundIsStored(k: Config, states: seq<State>, steps: seq<Step>, i: nat, u: nat, j: nat)
    requires Run(k, states, steps) && i < |steps| && steps[i] == Background(Suspend(u)) && j < k.copies
    ensures var s := states[i];
            && s.sync.Round? && u in s.sync.snap && Shape(k, s) && u in s.search && u < k.blocks
            && s.queued[j][u] == s.sync.snap[u]
            && (u !in s.pending && u !in s.writers ==> s.queued[j][u] == s.search[u].content)
  {
    RunKeepsInv(k, states, steps, i);
    assert BlockOk(k, states[i], u);
  }

  // ----- Look-ups and assertions never fail -----

  function BeingFiled(marking: Marking): set<nat> {
    if marking.Filed? && marking.isNew then {marking.u} else {}
  }

  /** What a run says of one block. */
  lemma BlockOfRun(k: Config, states: seq<State>, steps: seq<Step>, i: nat, u: nat)
    requires Run(k, states, steps) && i < |states|
    ensures k.Ok() && Shape(k, states[i]) && BlockOk(k, states[i], u)
  {
    RunKeepsInv(k, states, steps, i);
  }

  /** The dirty set is the pending blocks, those of the round and the one being marked. */
  lemma DirtyIsTracked(k: Config, states: seq<State>, steps: seq<Step>, i: nat)
    requires Run(k, states, steps) && i < |states|
    ensures var s := states[i];
            && s.dirty == s.pending + Taken(s.sync) + BeingFiled(s.marking)
            && BeingFiled(s.marking) !! s.pending && BeingFiled(s.marking) !! Taken(s.sync)
  {
    var s := states[i];
    forall u: nat
      ensures u in s.dirty <==> u in s.pending || u in Taken(s.sync) || u in BeingFiled(s.marking)
      ensures u in BeingFiled(s.marking) ==> u !in s.pending && u !in Taken(s.sync)
    {
      BlockOfRun(k, states, steps, i, u);
    }
  }

  /** `search` is exactly the disjoint union of `clean` and `dirty`, under matching access numbers of
      the blocks' own; users hold cached blocks, and writers are users: so the lookups that the code
      unwraps succeed. */
  lemma MapsAreInStep(k: Config, states: seq<State>, steps: seq<Step>, i: nat)
    requires Run(k, states, steps) && i < |states|
    ensures var s := states[i];
            && Matched(s.search, s.clean, s.dirty) && Numbered(s.search, s.drawn)
            && (forall u :: u in s.pins ==> u in s.search) && (forall u :: s.writers[u] <= s.pins[u])
  {
    RunKeepsInv(k, states, steps, i);
    var s := states[i];
    forall u: nat ensures (u in s.pins ==> u in s.search) && s.writers[u] <= s.pins[u] {
      BlockOfRun(k, states, steps, i, u);
    }
  }

  /** A block neither dirty nor being written is the same on every copy as in the cache. */
  lemma CleanIsSaved(k: Config, states: seq<State>, steps: seq<Step>, i: nat, u: nat, j: nat)
    requires Run(k, states, steps) && i < |states| && u < k.blocks && j < k.copies
    requires u !in states[i].dirty && u !in states[i].writers
    ensures k.Ok() && Shape(k, states[i]) && states[i].queued[j][u] == BlockAt(k, states[i], u)
  {
    BlockOfRun(k, states, steps, i, u);
  }

  /** Permits bound the dirty blocks, so a full cache has clean blocks to evict. */
  lemma FullCacheHasClean(k: Config, states: seq<State>, steps: seq<Step>, i: nat)
    requires Run(k, states, steps) && i < |states| && states[i].marking.Idle?
    ensures var s := states[i];
            && |s.search| <= k.maxUnits && |s.dirty| <= k.maxDirty
            && (|s.search| == k.maxUnits ==> s.clean != map[])
  {
    RunKeepsInv(k, states, steps, i);
    var s := states[i];
    if |s.search| == k.maxUnits && s.clean == map[] {
      forall u | u in s.search ensures u in s.dirty {}
      assert s.search.Keys <= s.dirty;
      assert |s.search.Keys| == |s.search|;
      CardinalityBelow(s.search.Keys, s.dirty);
    }
  }

  /** The replacement scan can fail: a run reaches a full cache whose clean blocks are all in use. */
  lemma PinnedCacheIsReachable() returns (k: Config, states: seq<State>, steps: seq<Step>)
    ensures Run(k, states, steps)
    ensures var s := states[|steps|];
            |s.search| == k.maxUnits && s.clean != map[] && AllPinned(s.search, s.dirty, s.pins)
  {
    k := Config(1, 0, 2, 1, 0, false);
    var s := State(map[], map[], {}, {}, [], multiset{}, multiset{}, Idle, Ready, false, 0, 0, [[[], []]]);
    steps := [Cache(Load(0))];
    states := [s, Apply(k, s, steps[0])];
    assert states[1].clean[0] == 0;
  }

  /** A sync task that sleeps with blocks pending has been woken, or the marker at work wakes it next. */
  lemma NoLostSync(k: Config, states: seq<State>, steps: seq<Step>, i: nat)
    requires Run(k, states, steps) && i < |states| && states[i].sync.Parked? && states[i].pending != {}
    ensures states[i].woken || (states[i].marking.Queued? && Apply(k, states[i], Cache(Wake)).woken)
  {
    RunKeepsInv(k, states, steps, i);
  }
}
