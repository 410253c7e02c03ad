/**
 The write-back protocol of the two FAT32 caches: any number of users and writers of blocks, the cache
 maps under their lock, the dirty permits, and the background sync task, which takes the pending blocks,
 hands snapshots of them to the device and files them as clean.  Device writes take effect in the order
 they are handed over, so the device is seen through its queue.

 The FAT unit cache stores every block on each FAT copy and wakes the sync task when the dirty set gets
 its first element; the data block cache has one copy and wakes on each new pending block.
 */
module WriteBack {
  import opened Eviction

  datatype Config = Config(copies: nat, load: nat, blocks: nat, maxUnits: nat, maxDirty: nat, wakeOnEach: bool) {
    ghost predicate Ok() {
      load < copies && maxDirty < maxUnits
    }
  }

  /** Who holds the manager lock in the middle of marking a block dirty.  `isNew` tells whether the
      block was clean, `inserted` whether it was not pending. */
  datatype Marking = Idle | Filed(u: nat, isNew: bool) | Queued(u: nat, isNew: bool, inserted: bool)

  /** The sync task: without work, about to look for work, or in a round over the blocks in `taken`;
      `sent[u]` copies of the snapshot `snap[u]` have been handed to the device. */
  datatype Sync = Parked | Ready | Round(taken: set<nat>, snap: map<nat, Block>, sent: map<nat, nat>)

  datatype State = State(
    search: map<nat, Unit>, clean: map<nat, nat>, dirty: set<nat>, pending: set<nat>, drawn: seq<nat>,
    pins: multiset<nat>,    // references held by users of a block
    writers: multiset<nat>, // those of them that changed the block and have not marked it yet
    marking: Marking, sync: Sync, woken: bool,
    free: nat, reserved: nat, // dirty permits: in the semaphore, and taken but not yet used
    queued: seq<seq<Block>>)  // every copy on the device, as of the last write handed over

  /** Users of cached blocks. */
  datatype UserStep = Pin(u: nat) | Unpin(u: nat) | Touch(u: nat) | TakePermit | GivePermit | Write(u: nat, block: Block)

  /** The cache under the manager lock: misses, and marking a block dirty in three steps. */
  datatype CacheStep =
    | Load(u: nat)
    | Evict(u: nat, search: map<nat, Unit>, clean: map<nat, nat>, drawn: seq<nat>)
    | File(u: nat) | Enqueue | Wake

  datatype SyncStep = Start | Poll | Snapshot(u: nat) | Send(u: nat) | Suspend(u: nat) | Finish

  datatype Step = User(user: UserStep) | Cache(cache: CacheStep) | Background(sync: SyncStep)

  function Taken(sync: Sync): set<nat> {
    if sync.Round? then sync.taken else {}
  }

  /** Does the marking in progress wake the sync task? */
  predicate Wakes(k: Config, s: State)
    requires s.marking.Queued?
  {
    if k.wakeOnEach then s.marking.inserted else s.marking.isNew && |s.dirty| == 1
  }

  ghost predicate AllSent(k: Config, r: Sync)
    requires r.Round?
  {
    forall u :: u in r.taken ==> u in r.sent && r.sent[u] == k.copies
  }

  // ----- Users -----

  ghost predicate UserEnabled(s: State, t: UserStep) {
    match t
    case Pin(u) => u in s.search
    case Unpin(u) => s.writers[u] < s.pins[u]
    case Touch(u) => u in s.pins && u in s.search
    case TakePermit => s.free > 0
    case GivePermit => s.reserved > 0
    case Write(u, _) => s.writers[u] < s.pins[u] && u in s.search && s.reserved > 0
  }

  ghost function UserApply(s: State, t: UserStep): State
    requires UserEnabled(s, t)
  {
    match t
    case Pin(u) => s.(pins := s.pins + multiset{u})
    case Unpin(u) => s.(pins := s.pins - multiset{u})
    case Touch(u) => s.(search := s.search[u := s.search[u].(used := |s.drawn|)], drawn := s.drawn + [u])
    case TakePermit => s.(free := s.free - 1, reserved := s.reserved + 1)
    case GivePermit => s.(free := s.free + 1, reserved := s.reserved - 1)
    case Write(u, b) =>
      s.(search := s.search[u := s.search[u].(content := b)], writers := s.writers + multiset{u}, reserved := s.reserved - 1)
  }

  // ----- The cache -----

  ghost predicate CacheEnabled(k: Config, s: State, t: CacheStep) {
    match t
    case Load(u) =>
      && u !in s.search && u < k.blocks && |s.search| < k.maxUnits && s.marking.Idle?
      && k.load < |s.queued| && u < |s.queued[k.load]|
    case Evict(v, search', clean', drawn') =>
      && s.marking.Idle? && |s.search| >= k.maxUnits
      && Evicted(s.search, s.dirty, s.pins, s.drawn, v, search', clean', drawn')
    case File(u) => u in s.writers && u in s.search && s.marking.Idle?
    case Enqueue => s.marking.Filed? && s.marking.u in s.writers
    case Wake => s.marking.Queued?
  }

  ghost function CacheApply(k: Config, s: State, t: CacheStep): State
    requires CacheEnabled(k, s, t)
  {
    match t
    case Load(u) =>
      s.(search := s.search[u := Unit(|s.drawn|, |s.drawn|, s.queued[k.load][u])], clean := s.clean[|s.drawn| := u],
         drawn := s.drawn + [u], pins := s.pins + multiset{u})
    case Evict(_, search', clean', drawn') => s.(search := search', clean := clean', drawn := drawn')
    case File(u) =>
      if u in s.dirty then s.(marking := Filed(u, false))
      else s.(clean := s.clean - {s.search[u].aid}, dirty := s.dirty + {u}, marking := Filed(u, true))
    case Enqueue =>
      var (u, isNew) := (s.marking.u, s.marking.isNew);
      s.(pending := s.pending + {u}, writers := s.writers - multiset{u}, marking := Queued(u, isNew, u !in s.pending),
         reserved := if isNew then s.reserved else s.reserved + 1)
    case Wake => s.(woken := s.woken || Wakes(k, s), marking := Idle)
  }

  // ----- The sync task -----

  ghost predicate SyncEnabled(k: Config, s: State, t: SyncStep) {
    match t
    case Start => s.sync.Parked? && s.woken
    case Poll => s.sync.Ready?
    case Snapshot(u) => s.sync.Round? && u in s.sync.taken && u !in s.sync.snap && s.marking.Idle? && u in s.search
    case Send(u) =>
      && s.sync.Round? && u in s.sync.snap && u in s.sync.sent && s.sync.sent[u] < k.copies
      && s.sync.sent[u] < |s.queued| && u < |s.queued[s.sync.sent[u]]|
    case Suspend(u) => s.sync.Round? && AllSent(k, s.sync) && u in s.sync.taken && s.marking.Idle? && u in s.search
    case Finish => s.sync.Round? && s.sync.taken == {}
  }

  ghost function SyncApply(k: Config, s: State, t: SyncStep): State
    requires SyncEnabled(k, s, t)
  {
    match t
    case Start => s.(woken := false, sync := Ready)
    case Poll =>
      if s.pending == {} then s.(sync := Parked) else s.(sync := Round(s.pending, map[], map[]), pending := {})
    case Snapshot(u) =>
      s.(sync := s.sync.(snap := s.sync.snap[u := s.search[u].content], sent := s.sync.sent[u := 0]))
    case Send(u) =>
      var j := s.sync.sent[u];
      s.(queued := s.queued[j := s.queued[j][u := s.sync.snap[u]]], sync := s.sync.(sent := s.sync.sent[u := j + 1]))
    case Suspend(u) =>
      var s' := s.(sync := Round(s.sync.taken - {u}, s.sync.snap - {u}, s.sync.sent - {u}));
      if u in s.pending then s'
      else s'.(dirty := s.dirty - {u}, search := s.search[u := s.search[u].(aid := |s.drawn|)],
               clean := s.clean[|s.drawn| := u], drawn := s.drawn + [u], free := s.free + 1)
    case Finish => s.(sync := Ready)
  }

  ghost predicate Enabled(k: Config, s: State, t: Step) {
    match t
    case User(t) => UserEnabled(s, t)
    case Cache(t) => CacheEnabled(k, s, t)
    case Background(t) => SyncEnabled(k, s, t)
  }

  ghost function Apply(k: Config, s: State, t: Step): State
    requires Enabled(k, s, t)
  {
    match t
    case User(t) => UserApply(s, t)
    case Cache(t) => CacheApply(k, s, t)
    case Background(t) => SyncApply(k, s, t)
  }

  // ----- Invariant -----

  ghost predicate Shape(k: Config, s: State) {
    && |s.queued| == k.copies && (forall j :: 0 <= j < k.copies ==> |s.queued[j]| == k.blocks)
    && (forall u :: u in s.search ==> u < k.blocks)
  }

  /** A writer holds a reference, and what is referred to is cached. */
  ghost predicate Referred(s: State, u: nat) {
    && (u in s.pins ==> u in s.search) && s.writers[u] <= s.pins[u]
    && (s.marking.Filed? && s.marking.u == u ==> u in s.writers)
  }

  /** The dirty blocks are those pending, those in the sync round, and the one being marked. */
  ghost predicate Tracked(s: State, u: nat) {
    && (u in s.dirty <==> u in s.pending || u in Taken(s.sync) || s.marking == Filed(u, true))
    && (s.marking == Filed(u, true) ==> u !in s.pending && u !in Taken(s.sync))
    && (!s.marking.Idle? && s.marking.u == u ==> u in s.dirty)
    && (u in s.dirty ==> u in s.search)
  }

  /** All copies of a block that is not dirty agree, with the cached block too unless a writer is about
      to mark it. */
  ghost predicate Saved(k: Config, s: State, u: nat)
    requires Shape(k, s) && k.Ok()
  {
    u < k.blocks && u !in s.dirty ==>
      && (forall j :: 0 <= j < k.copies ==> s.queued[j][u] == s.queued[k.load][u])
      && (u in s.search && u !in s.writers ==> s.search[u].content == s.queued[k.load][u])
  }

  /** A snapshot is the cached block unless that has changed since, and is on the copies sent so far. */
  ghost predicate SnapshotKept(k: Config, s: State, u: nat)
    requires Shape(k, s)
  {
    s.sync.Round? ==>
      && (u in s.sync.snap <==> u in s.sync.sent)
      && (u in s.sync.snap ==>
            && u in s.sync.taken && s.sync.sent[u] <= k.copies && u in s.search
            && (forall j :: 0 <= j < s.sync.sent[u] ==> s.queued[j][u] == s.sync.snap[u])
            && (u !in s.pending && u !in s.writers ==> s.search[u].content == s.sync.snap[u]))
  }

  ghost predicate BlockOk(k: Config, s: State, u: nat)
    requires Shape(k, s) && k.Ok()
  {
    Referred(s, u) && Tracked(s, u) && Saved(k, s, u) && SnapshotKept(k, s, u)
  }

  ghost predicate Permits(k: Config, s: State) {
    && s.free + s.reserved + |s.writers| + |s.dirty| == k.maxDirty + (if s.marking.Filed? && s.marking.isNew then 1 else 0)
    && |s.search| <= k.maxUnits
  }

  /** A parked sync task with work pending has been woken, or is about to be. */
  ghost predicate WakeKept(k: Config, s: State) {
    s.sync.Parked? && !s.woken && s.pending != {} ==> s.marking.Queued? && Wakes(k, s)
  }

  ghost predicate MapsOk(s: State) {
    Matched(s.search, s.clean, s.dirty) && Numbered(s.search, s.drawn)
  }

  ghost predicate Inv(k: Config, s: State) {
    && k.Ok() && MapsOk(s) && Shape(k, s)
    && (forall u :: BlockOk(k, s, u))
    && Permits(k, s) && WakeKept(k, s)
  }
}
