/** Every step of the write-back protocol keeps the invariant. */
module WriteBackSteps {
  import opened Eviction
  import opened WriteBack

  // ----- One block -----

  lemma UserBlock(k: Config, s: State, t: UserStep, x: nat)
    requires k.Ok() && Shape(k, s) && UserEnabled(s, t) && BlockOk(k, s, x)
    ensures Shape(k, UserApply(s, t)) && BlockOk(k, UserApply(s, t), x)
  {
  }

  lemma FileBlock(k: Config, s: State, u: nat, x: nat)
    requires k.Ok() && Shape(k, s) && CacheEnabled(k, s, File(u)) && BlockOk(k, s, x)
    ensures Shape(k, CacheApply(k, s, File(u))) && BlockOk(k, CacheApply(k, s, File(u)), x)
  {
  }

  lemma CacheBlock(k: Config, s: State, t: CacheStep, x: nat)
    requires k.Ok() && Shape(k, s) && CacheEnabled(k, s, t) && BlockOk(k, s, x)
    ensures Shape(k, CacheApply(k, s, t)) && BlockOk(k, CacheApply(k, s, t), x)
  {
    if t.File? { FileBlock(k, s, t.u, x); }
  }

  lemma SuspendBlock(k: Config, s: State, u: nat, x: nat)
    requires k.Ok() && Shape(k, s) && SyncEnabled(k, s, Suspend(u)) && BlockOk(k, s, x)
    ensures Shape(k, SyncApply(k, s, Suspend(u))) && BlockOk(k, SyncApply(k, s, Suspend(u)), x)
  {
  }

  lemma SyncBlock(k: Config, s: State, t: SyncStep, x: nat)
    requires k.Ok() && Shape(k, s) && SyncEnabled(k, s, t) && BlockOk(k, s, x)
    ensures Shape(k, SyncApply(k, s, t)) && BlockOk(k, SyncApply(k, s, t), x)
  {
    if t.Suspend? { SuspendBlock(k, s, t.u, x); }
  }

  // ----- The maps -----

  lemma UserMaps(s: State, t: UserStep)
    requires MapsOk(s) && UserEnabled(s, t)
    ensures MapsOk(UserApply(s, t))
  {
  }

  lemma LoadMaps(k: Config, s: State, u: nat)
    requires MapsOk(s) && CacheEnabled(k, s, Load(u)) && u !in s.dirty
    ensures MapsOk(CacheApply(k, s, Load(u)))
  {
    assert |s.drawn| !in s.clean;
  }

  lemma FileMaps(k: Config, s: State, u: nat)
    requires MapsOk(s) && CacheEnabled(k, s, File(u))
    ensures MapsOk(CacheApply(k, s, File(u)))
  {
  }

  lemma CacheMaps(k: Config, s: State, t: CacheStep)
    requires MapsOk(s) && CacheEnabled(k, s, t)
    ensures MapsOk(CacheApply(k, s, t))
  {
    match t
    case Load(u) => LoadMaps(k, s, u);
    case File(u) => FileMaps(k, s, u);
    case _ =>
  }

  lemma SuspendMaps(k: Config, s: State, u: nat)
    requires MapsOk(s) && SyncEnabled(k, s, Suspend(u)) && u in s.dirty
    ensures MapsOk(SyncApply(k, s, Suspend(u)))
  {
    assert |s.drawn| !in s.clean;
  }

  lemma SyncMaps(k: Config, s: State, t: SyncStep)
    requires MapsOk(s) && SyncEnabled(k, s, t)
    requires t.Suspend? ==> t.u in s.dirty
    ensures MapsOk(SyncApply(k, s, t))
  {
    if t.Suspend? { SuspendMaps(k, s, t.u); }
  }

  // ----- Permits and wake-ups -----

  lemma MapSize<K, V>(m: map<K, V>, n: map<K, V>, v: K)
    requires v in m && forall u :: u in n <==> u in m && u != v
    ensures |n| == |m| - 1
  {
    assert n.Keys == m.Keys - {v};
    assert |n| == |n.Keys| && |m| == |m.Keys|;
  }

  lemma UserPermits(k: Config, s: State, t: UserStep)
    requires Permits(k, s) && UserEnabled(s, t)
    ensures Permits(k, UserApply(s, t))
  {
    var s' := UserApply(s, t);
    assert s'.search.Keys == s.search.Keys;
    assert |s'.search| == |s'.search.Keys| && |s.search| == |s.search.Keys|;
  }

  lemma CachePermits(k: Config, s: State, t: CacheStep)
    requires Permits(k, s) && CacheEnabled(k, s, t)
    ensures Permits(k, CacheApply(k, s, t))
  {
    var s' := CacheApply(k, s, t);
    match t
    case Load(u) => MapSize(s'.search, s.search, u);
    case Evict(v, _, _, _) => MapSize(s.search, s'.search, v);
    case _ =>
  }

  lemma SyncPermits(k: Config, s: State, t: SyncStep)
    requires Permits(k, s) && SyncEnabled(k, s, t)
    requires t.Suspend? ==> t.u in s.dirty
    ensures Permits(k, SyncApply(k, s, t))
  {
    var s' := SyncApply(k, s, t);
    assert s'.search.Keys == s.search.Keys;
    assert |s'.search| == |s'.search.Keys| && |s.search| == |s.search.Keys|;
  }

  /** The first block marked while the sync task is parked makes it wake up. */
  lemma EnqueueWakes(k: Config, s: State)
    requires s.marking.Filed? && CacheEnabled(k, s, Enqueue) && WakeKept(k, s)
    requires forall x :: Tracked(s, x)
    ensures WakeKept(k, CacheApply(k, s, Enqueue))
  {
    var u := s.marking.u;
    if s.sync.Parked? && !s.woken {
      assert Tracked(s, u);
      assert s.dirty == {u} by {
        forall x ensures x in s.dirty <==> x == u { assert Tracked(s, x); }
      }
    }
  }

  lemma CacheWake(k: Config, s: State, t: CacheStep)
    requires CacheEnabled(k, s, t) && WakeKept(k, s) && forall x :: Tracked(s, x)
    ensures WakeKept(k, CacheApply(k, s, t))
  {
    if t.Enqueue? { EnqueueWakes(k, s); }
  }

  lemma SyncWake(k: Config, s: State, t: SyncStep)
    requires SyncEnabled(k, s, t) && WakeKept(k, s)
    ensures WakeKept(k, SyncApply(k, s, t))
  {
  }

  // ----- Every step -----

  lemma StepKeepsInv(k: Config, s: State, t: Step)
    requires Inv(k, s) && Enabled(k, s, t)
    ensures Inv(k, Apply(k, s, t))
  {
    match t
    case User(t) =>
      UserMaps(s, t);
      UserPermits(k, s, t);
      UserBlock(k, s, t, 0);
      forall x: nat ensures BlockOk(k, UserApply(s, t), x) { UserBlock(k, s, t, x); }
    case Cache(t) => CacheKeepsInv(k, s, t);
    case Background(t) => SyncKeepsInv(k, s, t);
  }

  lemma CacheKeepsInv(k: Config, s: State, t: CacheStep)
    requires Inv(k, s) && CacheEnabled(k, s, t)
    ensures Inv(k, CacheApply(k, s, t))
  {
    CacheMaps(k, s, t);
    CachePermits(k, s, t);
    CacheBlock(k, s, t, 0);
    forall x: nat ensures BlockOk(k, CacheApply(k, s, t), x) { CacheBlock(k, s, t, x); }
    forall x: nat ensures Tracked(s, x) { assert BlockOk(k, s, x); }
    CacheWake(k, s, t);
  }

  lemma SyncKeepsInv(k: Config, s: State, t: SyncStep)
    requires Inv(k, s) && SyncEnabled(k, s, t)
    ensures Inv(k, SyncApply(k, s, t))
  {
    if t.Suspend? { assert BlockOk(k, s, t.u); }
    SyncMaps(k, s, t);
    SyncPermits(k, s, t);
    SyncWake(k, s, t);
    SyncBlock(k, s, t, 0);
    forall x: nat ensures BlockOk(k, SyncApply(k, s, t), x) { SyncBlock(k, s, t, x); }
  }
}
