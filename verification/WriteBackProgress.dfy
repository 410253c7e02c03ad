/** The write-back protocol gets its work done: what is pending is stored, and left to itself the sync task
    empties the dirty set. */
module WriteBackProgress {
  import opened Eviction
  import opened WriteBack
  import opened WriteBackSteps
  import opened WriteBackTheorems

  // ----- What a round takes is stored -----

  predicate Writes(t: Step, u: nat) {
    t.User? && t.user.Write? && t.user.u == u
  }

  ghost predicate Stored(k: Config, s: State, u: nat, c: Block)
    requires Shape(k, s) && u < k.blocks
  {
    forall j :: 0 <= j < k.copies ==> s.queued[j][u] == c
  }

  /** Block `u` is `c`; the round at work will store it, or every copy holds it already. */
  ghost predicate Underway(k: Config, s: State, u: nat, c: Block) {
    && k.Ok() && Shape(k, s) && u < k.blocks && BlockAt(k, s, u) == c
    && (s.sync.Round? && u in s.sync.snap ==> s.sync.snap[u] == c)
    && (u in Taken(s.sync) || Stored(k, s, u, c))
  }

  lemma UserUnderway(k: Config, s: State, t: UserStep, u: nat, c: Block)
    requires k.Ok() && Shape(k, s) && BlockOk(k, s, u) && UserEnabled(s, t) && !Writes(User(t), u) && Underway(k, s, u, c)
    ensures Underway(k, UserApply(s, t), u, c)
  {
  }

  lemma CacheUnderway(k: Config, s: State, t: CacheStep, u: nat, c: Block)
    requires Inv(k, s) && CacheEnabled(k, s, t) && Underway(k, s, u, c)
    ensures Underway(k, CacheApply(k, s, t), u, c)
  {
    assert BlockOk(k, s, u);
    CacheKeepsInv(k, s, t);
    BlockRefines(k, s, Cache(t), u);
  }

  lemma SendUnderway(k: Config, s: State, x: nat, u: nat, c: Block)
    requires k.Ok() && Shape(k, s) && BlockOk(k, s, u) && SyncEnabled(k, s, Send(x)) && Underway(k, s, u, c)
    ensures Underway(k, SyncApply(k, s, Send(x)), u, c)
  {
    BlockRefines(k, s, Background(Send(x)), u);
  }

  lemma SuspendUnderway(k: Config, s: State, x: nat, u: nat, c: Block)
    requires k.Ok() && Shape(k, s) && BlockOk(k, s, u) && SyncEnabled(k, s, Suspend(x)) && Underway(k, s, u, c)
    ensures Underway(k, SyncApply(k, s, Suspend(x)), u, c)
  {
    BlockRefines(k, s, Background(Suspend(x)), u);
  }

  lemma SyncUnderway(k: Config, s: State, t: SyncStep, u: nat, c: Block)
    requires k.Ok() && Shape(k, s) && BlockOk(k, s, u) && SyncEnabled(k, s, t) && Underway(k, s, u, c)
    ensures Underway(k, SyncApply(k, s, t), u, c)
  {
    match t
    case Send(x) => SendUnderway(k, s, x, u, c);
    case Suspend(x) => SuspendUnderway(k, s, x, u, c);
    case _ =>
  }

  lemma StepUnderway(k: Config, s: State, t: Step, u: nat, c: Block)
    requires Inv(k, s) && Enabled(k, s, t) && !Writes(t, u) && Underway(k, s, u, c)
    ensures Underway(k, Apply(k, s, t), u, c)
  {
    assert BlockOk(k, s, u);
    match t
    case User(x) => UserUnderway(k, s, x, u, c);
    case Cache(x) => CacheUnderway(k, s, x, u, c);
    case Background(x) => SyncUnderway(k, s, x, u, c);
  }

  lemma {:induction false} StaysUnderway(k: Config, states: seq<State>, steps: seq<Step>, m: nat, n: nat, u: nat, c: Block)
    requires Run(k, states, steps) && m <= n < |states| && Underway(k, states[m], u, c)
    requires forall j :: m <= j < n ==> !Writes(steps[j], u)
    ensures Underway(k, states[n], u, c)
    decreases n
  {
    if m < n {
      StaysUnderway(k, states, steps, m, n - 1, u, c);
      RunKeepsInv(k, states, steps, n - 1);
      StepUnderway(k, states[n - 1], steps[n - 1], u, c);
    }
  }

  /** A block that is pending when the sync task looks for work, and is not written afterwards, is on every
      copy when the task is out of the round, and ever after. */
  lemma PendingIsSaved(k: Config, states: seq<State>, steps: seq<Step>, m: nat, n: nat, u: nat)
    requires Run(k, states, steps) && m < n < |states| && steps[m] == Background(Poll) && u in states[m].pending
    requires forall j :: m < j < n ==> !Writes(steps[j], u)
    ensures k.Ok() && Shape(k, states[n]) && u < k.blocks
    ensures u in Taken(states[n].sync) || Stored(k, states[n], u, BlockAt(k, states[n], u))
    ensures !states[n].sync.Round? ==> Stored(k, states[n], u, BlockAt(k, states[n], u))
  {
    BlockOfRun(k, states, steps, m, u);
    var c := BlockAt(k, states[m], u);
    assert Underway(k, states[m + 1], u, c);
    StaysUnderway(k, states, steps, m + 1, n, u, c);
  }

  /** The last write to a block is on every copy as soon as the block is neither pending, nor in the round,
      nor in the hands of a writer. */
  lemma WrittenIsSaved(k: Config, states: seq<State>, steps: seq<Step>, m: nat, n: nat, u: nat, b: Block)
    requires Run(k, states, steps) && m < n < |states| && steps[m] == User(Write(u, b))
    requires forall j :: m < j < n ==> !Writes(steps[j], u)
    requires var s := states[n]; u !in s.pending && u !in Taken(s.sync) && u !in s.writers
    ensures k.Ok() && Shape(k, states[n]) && u < k.blocks && Stored(k, states[n], u, b)
  {
    BlockOfRun(k, states, steps, n, u);
    BlockOfRun(k, states, steps, m, u);
    BlockStays(k, states, steps, m + 1, n, u);
  }

  lemma {:induction false} BlockStays(k: Config, states: seq<State>, steps: seq<Step>, m: nat, n: nat, u: nat)
    requires Run(k, states, steps) && m <= n < |states| && u < k.blocks
    requires forall j :: m <= j < n ==> !Writes(steps[j], u)
    ensures k.Ok() && Shape(k, states[m]) && Shape(k, states[n]) && BlockAt(k, states[n], u) == BlockAt(k, states[m], u)
    decreases n
  {
    RunKeepsInv(k, states, steps, n);
    if m < n {
      BlockStays(k, states, steps, m, n - 1, u);
      RunKeepsInv(k, states, steps, n - 1);
      BlockRefines(k, states[n - 1], steps[n - 1], u);
    }
  }

  // ----- The sync task comes to an end -----

  /** Steps of the sync task still due for block `u`: a snapshot, a write to each copy and filing it, once
      for the round and once more if it is pending. */
  ghost function BlockLeft(k: Config, s: State, u: nat): nat {
    (if u in s.pending then k.copies + 2 else 0)
    + (if u !in Taken(s.sync) then 0
       else if u in s.sync.snap && u in s.sync.sent && s.sync.sent[u] <= k.copies then k.copies + 1 - s.sync.sent[u]
       else k.copies + 2)
  }

  ghost function BlocksLeft(k: Config, s: State, n: nat): nat {
    if n == 0 then 0 else BlocksLeft(k, s, n - 1) + BlockLeft(k, s, n - 1)
  }

  /** And all its steps due. */
  ghost function Left(k: Config, s: State): nat {
    BlocksLeft(k, s, k.blocks) + (if s.pending != {} then 2 else 0) + (if s.woken then 2 else 0)
    + (if s.sync.Parked? then 0 else if s.sync.Ready? then 1 else 2)
  }

  lemma {:induction false} SameLeft(k: Config, s: State, s': State, n: nat)
    requires forall x :: 0 <= x < n ==> BlockLeft(k, s', x) == BlockLeft(k, s, x)
    ensures BlocksLeft(k, s', n) == BlocksLeft(k, s, n)
  {
    if n > 0 { SameLeft(k, s, s', n - 1); }
  }

  lemma {:induction false} LessLeft(k: Config, s: State, s': State, u: nat, n: nat)
    requires u < n && BlockLeft(k, s', u) < BlockLeft(k, s, u)
    requires forall x :: 0 <= x < n && x != u ==> BlockLeft(k, s', x) == BlockLeft(k, s, x)
    ensures BlocksLeft(k, s', n) < BlocksLeft(k, s, n)
  {
    if u == n - 1 { SameLeft(k, s, s', n - 1); } else { LessLeft(k, s, s', u, n - 1); }
  }

  lemma SnapshotFalls(k: Config, s: State, u: nat)
    requires k.Ok() && Shape(k, s) && BlockOk(k, s, u) && SyncEnabled(k, s, Snapshot(u))
    ensures Left(k, SyncApply(k, s, Snapshot(u))) < Left(k, s)
  {
    LessLeft(k, s, SyncApply(k, s, Snapshot(u)), u, k.blocks);
  }

  lemma SendFalls(k: Config, s: State, u: nat)
    requires k.Ok() && Shape(k, s) && BlockOk(k, s, u) && SyncEnabled(k, s, Send(u))
    ensures Left(k, SyncApply(k, s, Send(u))) < Left(k, s)
  {
    LessLeft(k, s, SyncApply(k, s, Send(u)), u, k.blocks);
  }

  lemma SuspendFalls(k: Config, s: State, u: nat)
    requires k.Ok() && Shape(k, s) && BlockOk(k, s, u) && SyncEnabled(k, s, Suspend(u))
    ensures Left(k, SyncApply(k, s, Suspend(u))) < Left(k, s)
  {
    LessLeft(k, s, SyncApply(k, s, Suspend(u)), u, k.blocks);
  }

  lemma TurnFalls(k: Config, s: State, t: SyncStep)
    requires (t.Start? || t.Poll? || t.Finish?) && SyncEnabled(k, s, t)
    ensures Left(k, SyncApply(k, s, t)) < Left(k, s)
  {
    SameLeft(k, s, SyncApply(k, s, t), k.blocks);
  }

  /** Every step of the sync task leaves fewer of them. */
  lemma SyncFalls(k: Config, s: State, t: SyncStep)
    requires Inv(k, s) && SyncEnabled(k, s, t)
    ensures Left(k, SyncApply(k, s, t)) < Left(k, s)
  {
    match t
    case Start | Poll | Finish => TurnFalls(k, s, t);
    case Snapshot(u) => assert BlockOk(k, s, u); SnapshotFalls(k, s, u);
    case Send(u) => assert BlockOk(k, s, u); SendFalls(k, s, u);
    case Suspend(u) => assert BlockOk(k, s, u); SuspendFalls(k, s, u);
  }

  /** While no one is marking a block, the sync task can go on, unless it sleeps and has not been woken;
      then nothing is pending. */
  lemma SyncGoesOn(k: Config, states: seq<State>, steps: seq<Step>, i: nat) returns (t: SyncStep)
    requires Run(k, states, steps) && i < |states| && states[i].marking.Idle?
    ensures if states[i].sync.Parked? && !states[i].woken then states[i].pending == {}
            else Enabled(k, states[i], Background(t)) && Left(k, Apply(k, states[i], Background(t))) < Left(k, states[i])
  {
    RunKeepsInv(k, states, steps, i);
    var s := states[i];
    t := NextSync(k, s);
    if !s.sync.Parked? || s.woken { SyncFalls(k, s, t); }
  }

  lemma NextSync(k: Config, s: State) returns (t: SyncStep)
    requires Inv(k, s) && s.marking.Idle?
    ensures (s.sync.Parked? && !s.woken) || SyncEnabled(k, s, t)
  {
    if s.sync.Parked? {
      return Start;
    } else if s.sync.Ready? {
      return Poll;
    } else if s.sync.taken == {} {
      return Finish;
    } else if u :| u in s.sync.taken && u !in s.sync.snap {
      assert BlockOk(k, s, u);
      return Snapshot(u);
    } else if u :| u in s.sync.taken && u in s.sync.sent && s.sync.sent[u] != k.copies {
      assert BlockOk(k, s, u);
      return Send(u);
    } else {
      var u :| u in s.sync.taken;
      forall x | x in s.sync.taken ensures x in s.sync.sent && s.sync.sent[x] == k.copies { assert BlockOk(k, s, x); }
      assert BlockOk(k, s, u);
      return Suspend(u);
    }
  }

  // ----- And so does the marking of blocks -----

  /** Steps that the marking of blocks still takes: three for each writer. */
  function MarksLeft(s: State): int {
    3 * |s.writers| + (match s.marking
                       case Idle => 0
                       case Filed(_, _) => -1
                       case Queued(_, _, _) => 1)
  }

  /** Somebody who marks a block can always go on. */
  lemma NextMark(k: Config, s: State) returns (t: CacheStep)
    requires Inv(k, s) && (!s.marking.Idle? || s.writers != multiset{})
    ensures CacheEnabled(k, s, t) && 0 <= MarksLeft(CacheApply(k, s, t)) < MarksLeft(s)
    ensures CacheApply(k, s, t).pins == s.pins
  {
    match s.marking
    case Filed(u, _) =>
      assert BlockOk(k, s, u);
      t := Enqueue;
    case Queued(_, _, _) => t := Wake;
    case Idle =>
      var u :| u in s.writers;
      assert BlockOk(k, s, u);
      assert |s.writers| > 0;
      t := File(u);
  }

  // ----- Runs that go on -----

  function Final(states: seq<State>): State
    requires |states| > 0
  {
    states[|states| - 1]
  }

  ghost predicate Extends(k: Config, states: seq<State>, steps: seq<Step>, states': seq<State>, steps': seq<Step>) {
    Run(k, states', steps') && states <= states' && steps <= steps'
  }

  lemma RunGoesOn(k: Config, states: seq<State>, steps: seq<Step>, t: Step) returns (states': seq<State>, steps': seq<Step>)
    requires Run(k, states, steps) && Enabled(k, Final(states), t)
    ensures Extends(k, states, steps, states', steps') && steps' == steps + [t]
    ensures Final(states') == Apply(k, Final(states), t)
    ensures k.Ok() && Shape(k, Final(states)) && Shape(k, Final(states'))
    ensures Table(k, Final(states')) == Written(Table(k, Final(states)), t)
  {
    var s := Final(states);
    states', steps' := states + [Apply(k, s, t)], steps + [t];
    forall n | 0 <= n < |steps'|
      ensures Enabled(k, states'[n], steps'[n]) && states'[n + 1] == Apply(k, states'[n], steps'[n])
    {
      if n < |steps| { assert steps'[n] == steps[n]; }
    }
    RunKeepsInv(k, states, steps, |steps|);
    StepRefines(k, s, t);
  }

  /** Nothing is dirty or about to be, the sync task sleeps, and every copy is `table`. */
  ghost predicate Drained(k: Config, s: State, table: seq<Block>) {
    && s.sync.Parked? && s.dirty == {} && s.writers == multiset{} && s.marking.Idle?
    && s.queued == seq(k.copies, _ => table)
  }

  lemma SyncKeepsUsers(k: Config, s: State, t: SyncStep)
    requires SyncEnabled(k, s, t)
    ensures var s' := SyncApply(k, s, t); s'.writers == s.writers && s'.marking == s.marking && s'.pins == s.pins
  {
  }

  /** Left alone, the sync task parks after at most `Left` steps, and everything is stored. */
  lemma {:induction false} SyncEndsAlone(k: Config, states: seq<State>, steps: seq<Step>)
    returns (states': seq<State>, steps': seq<Step>)
    requires Run(k, states, steps) && Final(states).marking.Idle? && Final(states).writers == multiset{}
    ensures Extends(k, states, steps, states', steps') && |steps'| <= |steps| + Left(k, Final(states))
    ensures forall j :: |steps| <= j < |steps'| ==> steps'[j].Background?
    ensures k.Ok() && Shape(k, Final(states)) && Drained(k, Final(states'), Table(k, Final(states)))
    ensures Final(states').pins == Final(states).pins
    decreases Left(k, Final(states))
  {
    var s := Final(states);
    var t := SyncGoesOn(k, states, steps, |steps|);
    RunKeepsInv(k, states, steps, |steps|);
    if s.sync.Parked? && !s.woken {
      states', steps' := states, steps;
      DirtyIsTracked(k, states, steps, |steps|);
      forall j: nat | j < k.copies ensures s.queued[j] == Table(k, s) { QuietMeansSynced(k, states, steps, |steps|, j); }
    } else {
      var states1, steps1 := RunGoesOn(k, states, steps, Background(t));
      SyncKeepsUsers(k, s, t);
      states', steps' := SyncEndsAlone(k, states1, steps1);
    }
  }

  /** From every reachable state the cache can go on, without a user's doing, until all that was written is
      on every copy and nothing is dirty. */
  lemma {:induction false} CacheCanDrain(k: Config, states: seq<State>, steps: seq<Step>)
    returns (states': seq<State>, steps': seq<Step>)
    requires Run(k, states, steps)
    ensures Extends(k, states, steps, states', steps')
    ensures forall j :: |steps| <= j < |steps'| ==> !steps'[j].User?
    ensures k.Ok() && Shape(k, Final(states)) && Drained(k, Final(states'), Table(k, Final(states)))
    ensures Final(states').pins == Final(states).pins
    decreases MarksLeft(Final(states))
  {
    var s := Final(states);
    if s.marking.Idle? && s.writers == multiset{} {
      states', steps' := SyncEndsAlone(k, states, steps);
    } else {
      RunKeepsInv(k, states, steps, |steps|);
      var t := NextMark(k, s);
      var states1, steps1 := RunGoesOn(k, states, steps, Cache(t));
      states', steps' := CacheCanDrain(k, states1, steps1);
    }
  }

  // ----- A user's round trip -----

  /** A user gets hold of block `u`, which is cached or for which there is room. */
  lemma BlockCanBeHad(k: Config, states: seq<State>, steps: seq<Step>, u: nat)
    returns (states': seq<State>, steps': seq<Step>)
    requires Run(k, states, steps) && Final(states).marking.Idle? && u < k.blocks
    requires u in Final(states).search || |Final(states).search| < k.maxUnits
    ensures Extends(k, states, steps, states', steps')
    ensures var (s, s') := (Final(states), Final(states'));
            && u in s'.search && s'.pins == s.pins + multiset{u} && s'.writers == s.writers && s'.free == s.free
            && k.Ok() && Shape(k, s) && Shape(k, s') && Table(k, s') == Table(k, s)
  {
    var s := Final(states);
    RunKeepsInv(k, states, steps, |steps|);
    states', steps' := RunGoesOn(k, states, steps, if u in s.search then User(Pin(u)) else Cache(Load(u)));
  }

  /** A permit that is given back is as if it had not been taken. */
  lemma PermitReturns(s: State)
    requires s.free > 0
    ensures UserEnabled(s, TakePermit) && UserEnabled(UserApply(s, TakePermit), GivePermit)
    ensures UserApply(UserApply(s, TakePermit), GivePermit) == s
  {
  }

  lemma BlockCanBeWritten(k: Config, states: seq<State>, steps: seq<Step>, u: nat, b: Block)
    returns (states': seq<State>, steps': seq<Step>)
    requires Run(k, states, steps) && u < k.blocks && u in Final(states).search && Final(states).free > 0
    requires Final(states).writers[u] < Final(states).pins[u]
    ensures Extends(k, states, steps, states', steps') && Final(states').pins == Final(states).pins
    ensures k.Ok() && Shape(k, Final(states)) && Shape(k, Final(states'))
    ensures Table(k, Final(states')) == Table(k, Final(states))[u := b]
  {
    states', steps' := RunGoesOn(k, states, steps, User(TakePermit));
    states', steps' := RunGoesOn(k, states', steps', User(Write(u, b)));
  }

  /** From every reachable state where the cache has block `u`, or room for it, and a permit: a user can
      write it and let it go, and afterwards every copy holds what the table was, but for the block. */
  lemma WriteCanBeStored(k: Config, states: seq<State>, steps: seq<Step>, u: nat, b: Block)
    returns (states': seq<State>, steps': seq<Step>)
    requires Run(k, states, steps) && Final(states).marking.Idle? && u < k.blocks && Final(states).free > 0
    requires u in Final(states).search || |Final(states).search| < k.maxUnits
    ensures Extends(k, states, steps, states', steps') && Final(states').pins == Final(states).pins
    ensures k.Ok() && Shape(k, Final(states)) && Drained(k, Final(states'), Table(k, Final(states))[u := b])
  {
    BlockOfRun(k, states, steps, |steps|, u);
    states', steps' := BlockCanBeHad(k, states, steps, u);
    states', steps' := BlockCanBeWritten(k, states', steps', u, b);
    states', steps' := CacheCanDrain(k, states', steps');
    states', steps' := RunGoesOn(k, states', steps', User(Unpin(u)));
  }

  // ----- Replacement -----

  /** A block just used has the highest number of all. */
  lemma TouchIsNewest(k: Config, states: seq<State>, steps: seq<Step>, n: nat, u: nat, w: nat)
    requires Run(k, states, steps) && n < |steps| && steps[n] == User(Touch(u))
    requires w in states[n + 1].search && w != u
    ensures var s := states[n + 1]; u in s.search && s.search[w].aid < s.search[u].used && s.search[w].used < s.search[u].used
  {
    RunKeepsInv(k, states, steps, n);
  }

  /** No block is evicted while another clean block that is not in use was last used, and last filed, before
      the last use of it. */
  lemma OlderGoesFirst(k: Config, states: seq<State>, steps: seq<Step>, n: nat, w: nat)
    requires Run(k, states, steps) && n < |steps| && steps[n].Cache? && steps[n].cache.Evict?
    requires var s := states[n]; w in s.search && w !in s.dirty && w !in s.pins && w != steps[n].cache.u
    ensures var (s, v) := (states[n], steps[n].cache.u);
            v in s.search && (s.search[v].used < s.search[w].used || s.search[v].used < s.search[w].aid)
  {
    var t := steps[n].cache;
    assert w in t.search && t.search[w].aid in t.clean;
  }
}
