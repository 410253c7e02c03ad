/** What holds in every reachable state of the task protocol. */
module TaskTheorems {
  import opened Basics
  import opened TaskProtocol
  import opened TaskInvariant
  import opened TaskSteps

  // ----- Sums over actors -----

  lemma {:induction false} SumAt(a: seq<Pc>, i: nat, k: Kind)
    requires i < |a|
    ensures Weight(a[i], k) <= Sum(a, k)
  {
    if i > 0 { SumAt(a[1..], i - 1, k); }
  }

  lemma {:induction false} SumTwo(a: seq<Pc>, i: nat, j: nat, k: Kind)
    requires i < j < |a|
    ensures Weight(a[i], k) + Weight(a[j], k) <= Sum(a, k)
  {
    if i == 0 { SumAt(a[1..], j - 1, k); } else { SumTwo(a[1..], i - 1, j - 1, k); }
  }

  lemma {:induction false} SumUpdate(a: seq<Pc>, i: nat, p: Pc, k: Kind)
    requires i < |a|
    ensures Sum(a[i := p], k) == Sum(a, k) - Weight(a[i], k) + Weight(p, k)
  {
    if i == 0 {
      assert a[i := p][1..] == a[1..];
    } else {
      assert a[i := p][1..] == a[1..][i - 1 := p];
      SumUpdate(a[1..], i - 1, p, k);
    }
  }

  lemma {:induction false} SumConcat(a: seq<Pc>, b: seq<Pc>, k: Kind)
    ensures Sum(a + b, k) == Sum(a, k) + Sum(b, k)
  {
    if a == [] {
      assert a + b == b;
    } else {
      assert (a + b)[1..] == a[1..] + b;
      SumConcat(a[1..], b, k);
    }
  }

  lemma {:induction false} SumBelow(a: seq<Pc>, k: Kind, k': Kind)
    requires forall pc :: Weight(pc, k) <= Weight(pc, k')
    ensures Sum(a, k) <= Sum(a, k')
  {
    if a != [] { SumBelow(a[1..], k, k'); }
  }

  lemma {:induction false} SumWitness(a: seq<Pc>, k: Kind) returns (i: nat)
    requires Sum(a, k) >= 1
    ensures i < |a| && Weight(a[i], k) >= 1
  {
    if Weight(a[0], k) >= 1 {
      i := 0;
    } else {
      i := SumWitness(a[1..], k);
      i := i + 1;
    }
  }

  // ----- The invariant -----

  ghost predicate Balanced(s: State, x: Aux) {
    && Sum(s.actors, KRefs) == s.g.word.refs
    && forall f, l: Label :: !l.Nobody? ==> Sum(s.actors, KHolds(f, l)) == if Get(x, f) == l then 1 else 0
  }

  predicate WakerKept(s: State) {
    s.g.reg.Some? && !s.g.woken ==>
      s.g.cell == s.g.reg || Sum(s.actors, KCarries(s.g.reg.value)) >= 1
  }

  predicate DutyKept(s: State) {
    s.g.parked && s.g.reg.Some? && !s.g.woken && Settled(s.g.word) ==>
      || Sum(s.actors, KCarries(s.g.reg.value)) >= 1
      || (s.g.cell == s.g.reg && Sum(s.actors, KWillTake) >= 1)
  }

  ghost predicate Inv(s: State, x: Aux) {
    && SharedOk(s.g, x)
    && Balanced(s, x)
    && (forall i :: 0 <= i < |s.actors| ==> Knows(s.g, s.actors[i]))
    && WakerKept(s)
    && DutyKept(s)
  }

  lemma HolderFits(s: State, x: Aux, i: nat, f: Family)
    requires Balanced(s, x) && i < |s.actors|
    ensures !LabelOf(s.actors[i], f).Nobody? ==> Get(x, f) == LabelOf(s.actors[i], f)
  {
    var l := LabelOf(s.actors[i], f);
    SumAt(s.actors, i, KHolds(f, l));
  }

  lemma ActorFits(s: State, x: Aux, i: nat)
    requires Balanced(s, x) && i < |s.actors|
    ensures Fits(s.g, x, s.actors[i])
  {
    SumAt(s.actors, i, KRefs);
    HolderFits(s, x, i, FToken);
    HolderFits(s, x, i, FLock);
    HolderFits(s, x, i, FTask);
    HolderFits(s, x, i, FLast);
    HolderFits(s, x, i, FOutput);
  }

  lemma HoldersAreBacked(s: State, x: Aux)
    requires Balanced(s, x)
    ensures Backed(s.g, x)
  {
    if !x.token.Nobody? {
      assert Sum(s.actors, KHolds(FToken, Get(x, FToken))) == 1;
      SumBelow(s.actors, KHolds(FToken, x.token), KRefs);
    }
    if x.lock == TakePre(false) || x.lock == TakePost(false) {
      assert Sum(s.actors, KHolds(FLock, Get(x, FLock))) == 1;
      SumBelow(s.actors, KHolds(FLock, x.lock), KRefs);
    }
  }

  lemma ActorIsReady(s: State, x: Aux, i: nat)
    requires Inv(s, x) && i < |s.actors|
    ensures Before(s.g, x, s.actors[i])
  {
    ActorFits(s, x, i);
    HoldersAreBacked(s, x);
  }

  function SpawnWeight(sp: Option<Pc>, k: Kind): nat {
    match sp
    case None => 0
    case Some(p) => Weight(p, k)
  }

  lemma StepSum(s: State, i: nat, c: Choice, k: Kind)
    requires i < |s.actors|
    ensures var o := Act(s.g, s.actors[i], c);
            Sum(Step(s, i, c).actors, k)
            == Sum(s.actors, k) - Weight(s.actors[i], k) + Weight(o.pc, k) + SpawnWeight(o.spawn, k)
  {
    var o := Act(s.g, s.actors[i], c);
    SumUpdate(s.actors, i, o.pc, k);
    match o.spawn
    case None => SumConcat(s.actors[i := o.pc], [], k);
    case Some(p) => SumConcat(s.actors[i := o.pc], [p], k);
  }

  lemma StepBalancedFor(s: State, x: Aux, i: nat, c: Choice, f: Family, l: Label)
    requires Balanced(s, x) && i < |s.actors| && !l.Nobody?
    requires var pc := s.actors[i]; Fits(s.g, x, pc) && Handovers(x, pc, Act(s.g, pc, c))
    ensures Sum(Step(s, i, c).actors, KHolds(f, l))
            == if Get(NextAux(x, s.actors[i], Act(s.g, s.actors[i], c)), f) == l then 1 else 0
  {
    StepSum(s, i, c, KHolds(f, l));
    assert Sum(s.actors, KHolds(f, l)) == if Get(x, f) == l then 1 else 0;
  }

  lemma StepBalanced(s: State, x: Aux, i: nat, c: Choice)
    requires Balanced(s, x) && i < |s.actors|
    requires Fits(s.g, x, s.actors[i]) && GoodStep(s.g, x, s.actors[i], Act(s.g, s.actors[i], c))
    ensures Balanced(Step(s, i, c), NextAux(x, s.actors[i], Act(s.g, s.actors[i], c)))
  {
    StepSum(s, i, c, KRefs);
    forall f, l: Label | !l.Nobody?
      ensures Sum(Step(s, i, c).actors, KHolds(f, l))
              == if Get(NextAux(x, s.actors[i], Act(s.g, s.actors[i], c)), f) == l then 1 else 0
    {
      StepBalancedFor(s, x, i, c, f, l);
    }
  }

  lemma StepKnows(s: State, i: nat, c: Choice, j: nat)
    requires i < |s.actors| && j < |Step(s, i, c).actors|
    requires forall n :: 0 <= n < |s.actors| ==> Knows(s.g, s.actors[n])
    requires var o := Act(s.g, s.actors[i], c);
             && (s.g.word.closed ==> o.g.word.closed)
             && (s.g.word.completed ==> o.g.word.completed)
             && Knows(o.g, o.pc)
             && (o.spawn.Some? ==> Knows(o.g, o.spawn.value))
    ensures Knows(Step(s, i, c).g, Step(s, i, c).actors[j])
  {
    if j < |s.actors| && j != i {
      assert Step(s, i, c).actors[j] == s.actors[j];
    }
  }

  lemma StepWakerKept(s: State, x: Aux, i: nat, c: Choice)
    requires WakerKept(s) && i < |s.actors|
    requires KeepsWaker(s.g, s.actors[i], Act(s.g, s.actors[i], c))
    ensures WakerKept(Step(s, i, c))
  {
    var s' := Step(s, i, c);
    if s'.g.reg.Some? { StepSum(s, i, c, KCarries(s'.g.reg.value)); }
  }

  lemma StepDutyKept(s: State, x: Aux, i: nat, c: Choice)
    requires Inv(s, x) && i < |s.actors| && Before(s.g, x, s.actors[i]) && Good(s.g, x, s.actors[i], c)
    requires WakerKept(Step(s, i, c))
    requires Balanced(Step(s, i, c), NextAux(x, s.actors[i], Act(s.g, s.actors[i], c)))
    ensures DutyKept(Step(s, i, c))
  {
    var s' := Step(s, i, c);
    var x' := NextAux(x, s.actors[i], Act(s.g, s.actors[i], c));
    if s'.g.parked && s'.g.reg.Some? && !s'.g.woken && Settled(s'.g.word) {
      var id := s'.g.reg.value;
      StepSum(s, i, c, KCarries(id));
      StepSum(s, i, c, KWillTake);
      SumAt(s.actors, i, KCarries(id));
      SumAt(s.actors, i, KWillTake);
      if x'.lock == TakePre(false) {
        assert Sum(s'.actors, KHolds(FLock, Get(x', FLock))) == 1;
        SumBelow(s'.actors, KHolds(FLock, TakePre(false)), KWillTake);
      }
    }
  }

  lemma StepKeepsInv(s: State, x: Aux, i: nat, c: Choice) returns (x': Aux)
    requires Inv(s, x) && i < |s.actors|
    ensures Inv(Step(s, i, c), x')
  {
    ActorIsReady(s, x, i);
    AnyStep(s.g, x, s.actors[i], c);
    x' := NextAux(x, s.actors[i], Act(s.g, s.actors[i], c));
    StepBalanced(s, x, i, c);
    forall j: nat | j < |Step(s, i, c).actors| ensures Knows(Step(s, i, c).g, Step(s, i, c).actors[j]) {
      StepKnows(s, i, c, j);
    }
    StepWakerKept(s, x, i, c);
    StepDutyKept(s, x, i, c);
  }

  lemma SumOfTwo(a: Pc, b: Pc, k: Kind)
    ensures Sum([a, b], k) == Weight(a, k) + Weight(b, k)
  {
    assert [a, b][1..] == [b];
    assert Sum([b], k) == Weight(b, k) + Sum([b][1..], k);
  }

  lemma {:induction false} SumZero(actors: seq<Pc>, k: Kind)
    requires forall i :: 0 <= i < |actors| ==> Weight(actors[i], k) == 0
    ensures Sum(actors, k) == 0
  {
    if actors != [] { SumZero(actors[1..], k); }
  }

  lemma SpawnedInv(captures: bool) returns (x: Aux)
    ensures Inv(Spawned(captures), x)
  {
    x := Aux(Queued, Nobody, TaskFree, Nobody, Nobody);
    SpawnedIsBalanced(captures, x);
  }

  lemma SpawnedIsBalanced(captures: bool, x: Aux)
    requires x == Aux(Queued, Nobody, TaskFree, Nobody, Nobody)
    ensures Balanced(Spawned(captures), x)
  {
    var s := Spawned(captures);
    var (r, t) := (Runnable(RunnableIdle), Task(TaskIdle));
    forall f, l: Label | !l.Nobody?
      ensures Sum(s.actors, KHolds(f, l)) == if Get(x, f) == l then 1 else 0
    {
      SumOfTwo(r, t, KHolds(f, l));
    }
    SumOfTwo(r, t, KRefs);
  }

  lemma {:induction false} RunKeepsInv(states: seq<State>, moves: seq<Move>, n: nat) returns (x: Aux)
    requires Run(states, moves) && n < |states|
    ensures Inv(states[n], x)
  {
    if n == 0 {
      var captures :| states[0] == Spawned(captures);
      x := SpawnedInv(captures);
    } else {
      x := RunKeepsInv(states, moves, n - 1);
      x := StepKeepsInv(states[n - 1], x, moves[n - 1].actor, moves[n - 1].choice);
    }
  }

  // ----- Safety of every step -----

  /** The reference count is exactly the references owned by live handles and calls in progress, and
      once the memory is released nobody is left who could touch it. */
  lemma RefcountIsExact(states: seq<State>, moves: seq<Move>, n: nat)
    requires Run(states, moves) && n < |states|
    ensures states[n].g.word.refs == Sum(states[n].actors, KRefs)
    ensures states[n].g.destroyed ==> forall i :: 0 <= i < |states[n].actors| ==> !Touches(states[n].actors[i])
  {
    var x := RunKeepsInv(states, moves, n);
    var s := states[n];
    forall i | 0 <= i < |s.actors| && s.g.destroyed ensures !Touches(s.actors[i]) {
      ActorFits(s, x, i);
    }
  }

  /** No step of any actor uses freed memory, polls or drops a dropped future, overwrites or reads an
      absent output, takes the count below zero, or frees memory that is still referenced. */
  lemma EveryStepIsSound(states: seq<State>, moves: seq<Move>, n: nat, i: nat)
    requires Run(states, moves) && n < |states| && i < |states[n].actors|
    ensures Sound(states[n].g, states[n].actors[i])
  {
    var x := RunKeepsInv(states, moves, n);
    ActorIsReady(states[n], x, i);
  }

  /** NOTIFYING and REGISTERING give exclusive access to the awaiter cell. */
  lemma CellIsExclusive(states: seq<State>, moves: seq<Move>, n: nat, i: nat, j: nat)
    requires Run(states, moves) && n < |states| && i < j < |states[n].actors|
    ensures !(AccessesCell(states[n].actors[i]) && AccessesCell(states[n].actors[j]))
  {
    var x := RunKeepsInv(states, moves, n);
    var s := states[n];
    if AccessesCell(s.actors[i]) && AccessesCell(s.actors[j]) {
      HolderFits(s, x, i, FLock);
      HolderFits(s, x, j, FLock);
      assert Sum(s.actors, KHolds(FLock, Lock(s.actors[i]))) == 1;
      SumTwo(s.actors, i, j, KHolds(FLock, Lock(s.actors[i])));
    }
  }

  // ----- Who may run the task -----

  /** The actor is the Runnable, is about to hand it out, or is the run that polls the future. */
  predicate HasToken(pc: Pc) {
    !Token(pc).Nobody?
  }

  lemma OneTokenHolder(states: seq<State>, moves: seq<Move>, n: nat, i: nat, j: nat)
    requires Run(states, moves) && n < |states| && i < j < |states[n].actors|
    ensures !(HasToken(states[n].actors[i]) && HasToken(states[n].actors[j]))
  {
    var x := RunKeepsInv(states, moves, n);
    var s := states[n];
    if HasToken(s.actors[i]) && HasToken(s.actors[j]) {
      HolderFits(s, x, i, FToken);
      HolderFits(s, x, j, FToken);
      assert Sum(s.actors, KHolds(FToken, Get(x, FToken))) == 1;
      SumTwo(s.actors, i, j, KHolds(FToken, x.token));
    }
  }

  /** SCHEDULED or RUNNING is set exactly while somebody may run the task. */
  lemma TokenIffScheduledOrRunning(states: seq<State>, moves: seq<Move>, n: nat)
    requires Run(states, moves) && n < |states|
    ensures states[n].g.word.scheduled || states[n].g.word.running
            <==> exists i :: 0 <= i < |states[n].actors| && HasToken(states[n].actors[i])
  {
    var x := RunKeepsInv(states, moves, n);
    var s := states[n];
    if s.g.word.scheduled || s.g.word.running {
      assert Sum(s.actors, KHolds(FToken, Get(x, FToken))) == 1;
      var i := SumWitness(s.actors, KHolds(FToken, x.token));
      assert HasToken(s.actors[i]);
    }
    forall i: nat | i < |s.actors| && HasToken(s.actors[i]) ensures s.g.word.scheduled || s.g.word.running {
      HolderFits(s, x, i, FToken);
    }
  }

  /** The intended exclusions between flags. */
  lemma FlagsExclude(states: seq<State>, moves: seq<Move>, n: nat)
    requires Run(states, moves) && n < |states|
    ensures var w := states[n].g.word;
            && (w.completed ==> !w.scheduled && !w.running)
            && (w.completed && !w.task ==> w.closed)
  {
    var x := RunKeepsInv(states, moves, n);
  }

  // ----- No wake-up is lost -----

  /** The compare-exchange of `wake` or `wake_by_ref` succeeds on a task neither completed nor closed. */
  predicate EffectiveWake(g: Shared, pc: Pc, c: Choice) {
    && pc.Waker? && (pc.v.WakeLoop? || pc.v.WakeRefLoop?)
    && Hit(g, pc.v.s, c) && !pc.v.s.completed && !pc.v.s.closed
  }

  /** `run` marks the task as running and goes on to poll the future. */
  predicate StartsPoll(g: Shared, pc: Pc, c: Choice) {
    pc.Runnable? && pc.r.RunLoop? && !pc.r.s.closed && Hit(g, pc.r.s, c)
  }

  predicate WakesAt(states: seq<State>, moves: seq<Move>, n: nat) {
    && n < |moves| && n < |states| && moves[n].actor < |states[n].actors|
    && EffectiveWake(states[n].g, states[n].actors[moves[n].actor], moves[n].choice)
  }

  predicate PollsAt(states: seq<State>, moves: seq<Move>, n: nat) {
    && n < |moves| && n < |states| && moves[n].actor < |states[n].actors|
    && StartsPoll(states[n].g, states[n].actors[moves[n].actor], moves[n].choice)
  }

  /** What never goes back, whatever step is taken. */
  predicate OneWay(g: Shared, pc: Pc, c: Choice, o: Out) {
    && (g.future == Dropped || DropsFuture(pc) ==> o.g.future == Dropped)
    && (g.destroyed ==> o.g.destroyed)
    && (ConsumesOutput(pc) || (g.output == Consumed && !WritesOutput(pc)) ==> o.g.output == Consumed)
    && (EffectiveWake(g, pc, c) || (g.owed && !StartsPoll(g, pc, c)) ==> o.g.owed)
  }

  lemma RunIsOneWayAt(g: Shared, s: Word, c: Choice)
    ensures OneWay(g, Runnable(RunLoop(s)), c, ActRunnable(g, RunLoop(s), c))
  {
    var o := ActRunnable(g, RunLoop(s), c);
    assert o.g == g.(word := o.g.word, owed := o.g.owed);
  }

  lemma DropIsOneWayAt(g: Shared, s: Word, c: Choice)
    ensures OneWay(g, Runnable(DropLoop(s)), c, ActRunnable(g, DropLoop(s), c))
  {
    var o := ActRunnable(g, DropLoop(s), c);
    assert o.g == g.(word := o.g.word);
  }

  lemma RunnableIsOneWay(g: Shared, r: RunnablePc, c: Choice)
    ensures OneWay(g, Runnable(r), c, ActRunnable(g, r, c))
  {
    match r
    case RunLoop(s) => RunIsOneWayAt(g, s, c);
    case DropLoop(s) => DropIsOneWayAt(g, s, c);
    case _ =>
  }

  lemma PendingIsOneWay(g: Shared, s: Word, dropped: bool, c: Choice)
    ensures OneWay(g, Poll(PendingLoop(s, dropped)), c, ActPoll(g, PendingLoop(s, dropped), c))
  {
    var o := ActPoll(g, PendingLoop(s, dropped), c);
    assert o.g == g.(word := o.g.word, future := if s.closed && !dropped then Dropped else g.future);
  }

  lemma ReadyIsOneWay(g: Shared, s: Word, c: Choice)
    ensures OneWay(g, Poll(ReadyLoop(s)), c, ActPoll(g, ReadyLoop(s), c))
  {
    var o := ActPoll(g, ReadyLoop(s), c);
    assert o.g == g.(word := o.g.word);
  }

  lemma PollIsOneWay(g: Shared, p: PollPc, c: Choice)
    ensures OneWay(g, Poll(p), c, ActPoll(g, p, c))
  {
    match p
    case ReadyLoop(s) => ReadyIsOneWay(g, s, c);
    case PendingLoop(s, dropped) => PendingIsOneWay(g, s, dropped, c);
    case _ =>
  }

  lemma RefIsOneWay(g: Shared, f: RefPc, c: Choice)
    ensures OneWay(g, Ref(f), c, ActRef(g, f))
  {
  }

  lemma WakeIsOneWay(g: Shared, s: Word, c: Choice)
    ensures OneWay(g, Waker(WakeLoop(s)), c, ActWaker(g, WakeLoop(s), c))
  {
  }

  lemma WakeRefIsOneWay(g: Shared, wk: WakeCont, s: Word, c: Choice)
    ensures OneWay(g, Waker(WakeRefLoop(wk, s)), c, ActWaker(g, WakeRefLoop(wk, s), c))
  {
  }

  lemma WakerIsOneWay(g: Shared, v: WakerPc, c: Choice)
    ensures OneWay(g, Waker(v), c, ActWaker(g, v, c))
  {
    match v
    case WakeLoop(s) => WakeIsOneWay(g, s, c);
    case WakeRefLoop(wk, s) => WakeRefIsOneWay(g, wk, s, c);
    case _ =>
  }

  lemma IdleTaskIsOneWay(g: Shared, c: Choice)
    ensures OneWay(g, Task(TaskIdle), c, ActTask(g, TaskIdle, c))
  {
  }

  lemma PollTaskIsOneWay(g: Shared, id: WakerId, s: Word, c: Choice)
    ensures OneWay(g, Task(PollLoop(id, s)), c, ActTask(g, PollLoop(id, s), c))
  {
  }

  lemma CancelIsOneWay(g: Shared, dropping: bool, s: Word, c: Choice)
    ensures OneWay(g, Task(CancelLoop(dropping, s)), c, ActTask(g, CancelLoop(dropping, s), c))
  {
    var o := ActTask(g, CancelLoop(dropping, s), c);
    assert o.g == g.(word := o.g.word);
  }

  lemma WordStepIsOneWay(g: Shared, t: TaskPc, c: Choice, o: Out)
    requires o.g == g.(word := o.g.word) && !t.DetachRead? && !t.TakeOutput?
    ensures OneWay(g, Task(t), c, o)
  {
  }

  lemma DetachLoopIsOneWay(g: Shared, s: Word, c: Choice)
    ensures OneWay(g, Task(DetachLoop(s)), c, ActDetach(g, DetachLoop(s), c))
  {
    var o := ActDetach(g, DetachLoop(s), c);
    if !Hit(g, s, c) {
      assert o.g == g.(word := g.word);
    } else if s.completed && !s.closed {
      assert o.g == g.(word := s.(closed := true));
    } else if s.refs == 0 && !s.closed {
      assert o.g == g.(word := Rescheduled());
    } else {
      assert o.g == g.(word := s.(task := false));
    }
    WordStepIsOneWay(g, DetachLoop(s), c, o);
  }

  lemma DetachIsOneWay(g: Shared, t: TaskPc, c: Choice)
    requires t.DetachTry? || t.DetachLoop? || t.DetachRead?
    ensures OneWay(g, Task(t), c, ActDetach(g, t, c))
  {
    if t.DetachLoop? { DetachLoopIsOneWay(g, t.s, c); }
  }

  lemma TaskIsOneWay(g: Shared, t: TaskPc, c: Choice)
    ensures OneWay(g, Task(t), c, ActTask(g, t, c))
  {
    match t
    case TaskIdle => IdleTaskIsOneWay(g, c);
    case PollLoop(id, s) => PollTaskIsOneWay(g, id, s, c);
    case CancelLoop(dropping, s) => CancelIsOneWay(g, dropping, s, c);
    case DetachTry | DetachLoop(_) | DetachRead(_) => DetachIsOneWay(g, t, c);
    case _ =>
  }

  lemma RegisterFinishIsOneWay(g: Shared, id: WakerId, path: bool, s: Word, took: Option<WakerId>, c: Choice)
    ensures OneWay(g, Register(RegisterFinish(id, path, s, took)), c, ActRegister(g, RegisterFinish(id, path, s, took), c))
  {
    var o := ActRegister(g, RegisterFinish(id, path, s, took), c);
    assert o.g == g.(word := o.g.word, cell := o.g.cell, reg := o.g.reg, woken := o.g.woken);
  }

  lemma RegisterIsOneWay(g: Shared, e: RegisterPc, c: Choice)
    ensures OneWay(g, Register(e), c, ActRegister(g, e, c))
  {
    match e
    case RegisterFinish(id, path, s, took) => RegisterFinishIsOneWay(g, id, path, s, took, c);
    case _ =>
  }

  lemma TakeIsOneWay(g: Shared, a: TakePc, c: Choice)
    ensures OneWay(g, Take(a), c, ActTake(g, a))
  {
  }

  lemma ActIsOneWay(g: Shared, pc: Pc, c: Choice)
    ensures OneWay(g, pc, c, Act(g, pc, c))
  {
    match pc
    case Done =>
    case Runnable(r) => RunnableIsOneWay(g, r, c);
    case Poll(p) => PollIsOneWay(g, p, c);
    case Ref(f) => RefIsOneWay(g, f, c);
    case Waker(v) => WakerIsOneWay(g, v, c);
    case Task(t) => TaskIsOneWay(g, t, c);
    case Register(e) => RegisterIsOneWay(g, e, c);
    case Take(a) => TakeIsOneWay(g, a, c);
  }

  lemma OwedNext(states: seq<State>, moves: seq<Move>, n: nat)
    requires Run(states, moves) && n < |moves|
    requires WakesAt(states, moves, n) || (states[n].g.owed && !PollsAt(states, moves, n))
    ensures states[n + 1].g.owed
  {
    ActIsOneWay(states[n].g, states[n].actors[moves[n].actor], moves[n].choice);
  }

  lemma {:induction false} OwedAlongRun(states: seq<State>, moves: seq<Move>, m: nat, n: nat)
    requires Run(states, moves) && m < n < |states|
    requires WakesAt(states, moves, m)
    requires forall k :: m < k < n ==> !PollsAt(states, moves, k)
    ensures states[n].g.owed
    decreases n
  {
    if m < n - 1 { OwedAlongRun(states, moves, m, n - 1); }
    OwedNext(states, moves, n - 1);
  }

  /** The actor is the Runnable, or hands one out before it does anything else. */
  predicate HandsOut(pc: Pc) {
    || (pc.Runnable? && !pc.r.RunClosedUnschedule? && !pc.r.DropUnschedule?)
    || (pc.Ref? && (pc.f.Schedule? || pc.f.ScheduleHeld?))
    || (pc.Waker? && pc.v.WakeRefSchedule?)
  }

  /** While SCHEDULED is set without RUNNING on an open task, the Runnable exists or is about to. */
  lemma ScheduledHandsOut(states: seq<State>, moves: seq<Move>, n: nat)
    requires Run(states, moves) && n < |states|
    requires var w := states[n].g.word; w.scheduled && !w.running && !w.closed
    ensures exists i :: 0 <= i < |states[n].actors| && HandsOut(states[n].actors[i])
  {
    var x := RunKeepsInv(states, moves, n);
    var s := states[n];
    assert Sum(s.actors, KHolds(FToken, Get(x, FToken))) == 1;
    var i := SumWitness(s.actors, KHolds(FToken, x.token));
    assert HandsOut(s.actors[i]);
  }

  /** After an effective wake, until the future is polled again, the task is finished, or it is
      SCHEDULED: while it is RUNNING the run has yet to hand a Runnable over, and otherwise there is a
      live Runnable or somebody about to hand one out. */
  lemma EffectiveWakeIsKept(states: seq<State>, moves: seq<Move>, m: nat, n: nat)
    requires Run(states, moves) && m < n < |states|
    requires WakesAt(states, moves, m)
    requires forall k :: m < k < n ==> !PollsAt(states, moves, k)
    ensures var s := states[n];
            || s.g.word.completed || s.g.word.closed
            || (s.g.word.scheduled && s.g.word.running)
            || (s.g.word.scheduled && !s.g.word.running && exists i :: 0 <= i < |s.actors| && HandsOut(s.actors[i]))
  {
    var x := RunKeepsInv(states, moves, n);
    OwedAlongRun(states, moves, m, n);
    var w := states[n].g.word;
    if w.scheduled && !w.running && !w.closed { ScheduledHandsOut(states, moves, n); }
  }

  /** The actor is a run whose future has returned `Ready`. */
  predicate AnswersReady(pc: Pc) {
    pc.Poll? && (pc.p.ReadyDrop? || pc.p.ReadyWrite? || pc.p.ReadyLoop?)
  }

  /** RUNNING is set only by a run that starts, SCHEDULED on a running task only by a wake, COMPLETED only
      by a run whose future returned `Ready`, and CLOSED on a completed task only by it or the Task. */
  predicate Orderly(w: Word, g: Shared, starts: bool, ready: bool, closes: bool) {
    && (g.word.running ==> w.running || starts)
    && (g.word.running && g.word.scheduled ==> g.owed || (w.running && w.scheduled))
    && (g.word.completed ==> w.completed || ready)
    && (g.word.closed && g.word.completed && w.completed ==> w.closed || closes)
  }

  lemma RunnableIsOrderly(g: Shared, r: RunnablePc, c: Choice)
    ensures Orderly(g.word, ActRunnable(g, r, c).g, StartsPoll(g, Runnable(r), c), false, false)
  {
    var g' := ActRunnable(g, r, c).g;
    match r
    case RunnableIdle => assert g' == g || g' == AddRef(g);
    case RunLoop(s) => assert g' == g || g'.word == g.word.(scheduled := false, running := true);
    case RunClosedUnschedule | DropUnschedule => assert g'.word == g.word.(scheduled := false);
    case DropLoop(s) => assert g' == g || (!g.word.completed && g'.word == g.word.(closed := true) && g'.owed == g.owed);
    case _ => assert g'.word == g.word && g'.owed == g.owed;
  }

  lemma ReadyIsOrderly(g: Shared, s: Word, c: Choice)
    ensures Orderly(g.word, ActPoll(g, ReadyLoop(s), c).g, false, true, true)
  {
    var g' := ActPoll(g, ReadyLoop(s), c).g;
    assert if Hit(g, s, c) then !g'.word.running else g' == g;
  }

  lemma PendingIsOrderly(g: Shared, s: Word, dropped: bool, c: Choice)
    ensures Orderly(g.word, ActPoll(g, PendingLoop(s, dropped), c).g, false, false, false)
  {
    var g' := ActPoll(g, PendingLoop(s, dropped), c).g;
    assert if !(s.closed && !dropped) && Hit(g, s, c) then !g'.word.running else g'.word == g.word;
  }

  lemma PollIsOrderly(g: Shared, p: PollPc, c: Choice)
    ensures Orderly(g.word, ActPoll(g, p, c).g, false, AnswersReady(Poll(p)), AnswersReady(Poll(p)))
  {
    match p
    case ReadyLoop(s) => ReadyIsOrderly(g, s, c);
    case PendingLoop(s, dropped) => PendingIsOrderly(g, s, dropped, c);
    case _ => assert ActPoll(g, p, c).g.word == g.word || ActPoll(g, p, c).g == AddRef(g);
  }

  lemma RefIsOrderly(g: Shared, f: RefPc, c: Choice)
    ensures Orderly(g.word, ActRef(g, f).g, false, false, false)
  {
  }

  lemma WakeIsOrderly(g: Shared, s: Word, c: Choice)
    ensures Orderly(g.word, ActWaker(g, WakeLoop(s), c).g, false, false, false)
  {
    var g' := ActWaker(g, WakeLoop(s), c).g;
    assert g'.word == g.word || (g'.owed && g'.word == g.word.(scheduled := true));
  }

  lemma WakeRefIsOrderly(g: Shared, wk: WakeCont, s: Word, c: Choice)
    ensures Orderly(g.word, ActWaker(g, WakeRefLoop(wk, s), c).g, false, false, false)
  {
    var g' := ActWaker(g, WakeRefLoop(wk, s), c).g;
    assert g'.word == g.word || (g'.owed && g'.word == g.word.(scheduled := true, refs := g'.word.refs));
  }

  lemma WakerIsOrderly(g: Shared, v: WakerPc, c: Choice)
    ensures Orderly(g.word, ActWaker(g, v, c).g, false, false, false)
  {
    match v
    case WakeLoop(s) => WakeIsOrderly(g, s, c);
    case WakeRefLoop(wk, s) => WakeRefIsOrderly(g, wk, s, c);
    case _ => assert ActWaker(g, v, c).g.word == g.word.(refs := ActWaker(g, v, c).g.word.refs);
  }

  lemma PollTaskIsOrderly(g: Shared, id: WakerId, s: Word, c: Choice)
    ensures Orderly(g.word, ActTask(g, PollLoop(id, s), c).g, false, false, true)
  {
  }

  lemma CancelIsOrderly(g: Shared, dropping: bool, s: Word, c: Choice)
    ensures Orderly(g.word, ActTask(g, CancelLoop(dropping, s), c).g, false, false, true)
  {
    var g' := ActTask(g, CancelLoop(dropping, s), c).g;
    if !s.completed && !s.closed && Hit(g, s, c) {
      assert if !s.scheduled && !s.running then !g'.word.running else g'.word == s.(closed := true);
    } else {
      assert g' == g;
    }
  }

  lemma DetachLoopIsOrderly(g: Shared, s: Word, c: Choice)
    ensures Orderly(g.word, ActDetach(g, DetachLoop(s), c).g, false, false, true)
  {
    var g' := ActDetach(g, DetachLoop(s), c).g;
    if Hit(g, s, c) {
      assert g'.word == s.(closed := true) || g'.word == Rescheduled() || g'.word == s.(task := false);
    } else {
      assert g' == g;
    }
  }

  lemma DetachIsOrderly(g: Shared, t: TaskPc, c: Choice)
    requires t.DetachTry? || t.DetachLoop? || t.DetachRead?
    ensures Orderly(g.word, ActDetach(g, t, c).g, false, false, true)
  {
    if t.DetachLoop? { DetachLoopIsOrderly(g, t.s, c); }
  }

  lemma TaskIsOrderly(g: Shared, t: TaskPc, c: Choice)
    ensures Orderly(g.word, ActTask(g, t, c).g, false, false, true)
  {
    match t
    case PollLoop(id, s) => PollTaskIsOrderly(g, id, s, c);
    case CancelLoop(dropping, s) => CancelIsOrderly(g, dropping, s, c);
    case DetachTry | DetachLoop(_) | DetachRead(_) => DetachIsOrderly(g, t, c);
    case _ =>
  }

  lemma FinishedIsOrderly(g: Shared, s: Word, took: Option<WakerId>, g': Shared)
    requires g.word == s && g'.word == s.(notifying := false, registering := false, awaiter := took.None?)
    requires g'.owed == g.owed
    ensures Orderly(g.word, g', false, false, false)
  {
  }

  lemma RegisterFinishIsOrderly(g: Shared, id: WakerId, path: bool, s: Word, took: Option<WakerId>, c: Choice)
    ensures Orderly(g.word, ActRegister(g, RegisterFinish(id, path, s, took), c).g, false, false, false)
  {
    var g' := ActRegister(g, RegisterFinish(id, path, s, took), c).g;
    if s.notifying && g.cell.Some? {
      assert g' == g.(cell := None);
    } else if !Hit(g, s, c) {
      assert g' == g;
    } else if took.None? {
      var w := s.(notifying := false, registering := false, awaiter := true);
      assert g' == g.(word := w, reg := Some(id), woken := false);
      FinishedIsOrderly(g, s, took, g');
    } else {
      var w := s.(notifying := false, registering := false, awaiter := false);
      assert g' == g.(word := w);
      FinishedIsOrderly(g, s, took, g');
    }
  }

  lemma RegisterLoopIsOrderly(g: Shared, id: WakerId, path: bool, s: Word, c: Choice)
    ensures Orderly(g.word, ActRegister(g, RegisterLoop(id, path, s), c).g, false, false, false)
  {
    var g' := ActRegister(g, RegisterLoop(id, path, s), c).g;
    assert g'.word == g.word || g'.word == g.word.(registering := true);
  }

  lemma RegisterIsOrderly(g: Shared, e: RegisterPc, c: Choice)
    ensures Orderly(g.word, ActRegister(g, e, c).g, false, false, false)
  {
    match e
    case RegisterLoop(id, path, s) => RegisterLoopIsOrderly(g, id, path, s, c);
    case RegisterFinish(id, path, s, took) => RegisterFinishIsOrderly(g, id, path, s, took, c);
    case _ => assert ActRegister(g, e, c).g.word == g.word;
  }

  lemma TakeIsOrderly(g: Shared, a: TakePc, c: Choice)
    ensures Orderly(g.word, ActTake(g, a).g, false, false, false)
  {
  }

  lemma ActIsOrderly(g: Shared, pc: Pc, c: Choice)
    ensures Orderly(g.word, Act(g, pc, c).g, StartsPoll(g, pc, c), AnswersReady(pc), pc.Task? || AnswersReady(pc))
  {
    match pc
    case Done =>
    case Runnable(r) => RunnableIsOrderly(g, r, c);
    case Poll(p) => PollIsOrderly(g, p, c);
    case Ref(f) => RefIsOrderly(g, f, c);
    case Waker(v) => WakerIsOrderly(g, v, c);
    case Task(t) => TaskIsOrderly(g, t, c);
    case Register(e) => RegisterIsOrderly(g, e, c);
    case Take(a) => TakeIsOrderly(g, a, c);
  }

  /** SCHEDULED is set on a running task only by a wake since the run began. */
  lemma {:induction false} WokenWhileRunning(states: seq<State>, moves: seq<Move>, n: nat)
    requires Run(states, moves) && n < |states|
    ensures states[n].g.word.running && states[n].g.word.scheduled ==> states[n].g.owed
  {
    if n > 0 {
      WokenWhileRunning(states, moves, n - 1);
      WokenNext(states, moves, n - 1);
    }
  }

  lemma WokenNext(states: seq<State>, moves: seq<Move>, n: nat)
    requires Run(states, moves) && n < |moves|
    requires states[n].g.word.running && states[n].g.word.scheduled ==> states[n].g.owed
    ensures states[n + 1].g.word.running && states[n + 1].g.word.scheduled ==> states[n + 1].g.owed
  {
    var (g, pc, c) := (states[n].g, states[n].actors[moves[n].actor], moves[n].choice);
    assert states[n + 1].g == Act(g, pc, c).g;
    WokenStep(g, pc, c);
  }

  lemma WokenStep(g: Shared, pc: Pc, c: Choice)
    requires g.word.running && g.word.scheduled ==> g.owed
    ensures var g' := Act(g, pc, c).g; g'.word.running && g'.word.scheduled ==> g'.owed
  {
    ActIsOneWay(g, pc, c);
    ActIsOrderly(g, pc, c);
  }

  /** The run ends `Pending`, with SCHEDULED set, on a task that is not closed. */
  predicate EndsWoken(states: seq<State>, moves: seq<Move>, n: nat) {
    && n < |moves| && n < |states| && moves[n].actor < |states[n].actors|
    && var pc := states[n].actors[moves[n].actor];
       && pc.Poll? && pc.p.PendingLoop? && Hit(states[n].g, pc.p.s, moves[n].choice)
       && pc.p.s.scheduled && !pc.p.s.closed
  }

  /** RUNNING is set while a run is about to end. */
  lemma RunIsRunning(states: seq<State>, moves: seq<Move>, n: nat, i: nat)
    requires Run(states, moves) && n < |states| && i < |states[n].actors|
    requires states[n].actors[i].Poll? && states[n].actors[i].p.PendingLoop?
    ensures states[n].g.word.running
  {
    var x := RunKeepsInv(states, moves, n);
    HolderFits(states[n], x, i, FToken);
  }

  lemma OwedNow(states: seq<State>, moves: seq<Move>, n: nat)
    requires Run(states, moves) && EndsWoken(states, moves, n)
    ensures states[n].g.owed
  {
    WokenWhileRunning(states, moves, n);
    RunIsRunning(states, moves, n, moves[n].actor);
  }

  /** The exchange that ends the run clears RUNNING. */
  lemma RunningCleared(states: seq<State>, moves: seq<Move>, n: nat)
    requires Run(states, moves) && EndsWoken(states, moves, n)
    ensures !states[n + 1].g.word.running
  {
    var pc := states[n].actors[moves[n].actor];
    assert Act(states[n].g, pc, moves[n].choice).g.word == pc.p.s.(running := false);
  }

  lemma NotRunningNext(states: seq<State>, moves: seq<Move>, n: nat)
    requires Run(states, moves) && n < |moves| && !states[n].g.word.running && !PollsAt(states, moves, n)
    ensures !states[n + 1].g.word.running
  {
    ActIsOrderly(states[n].g, states[n].actors[moves[n].actor], moves[n].choice);
  }

  lemma {:induction false} OwedAfterRun(states: seq<State>, moves: seq<Move>, m: nat, n: nat)
    requires Run(states, moves) && m < n < |states|
    requires EndsWoken(states, moves, m)
    requires forall k :: m < k < n ==> !PollsAt(states, moves, k)
    ensures states[n].g.owed && !states[n].g.word.running
    decreases n
  {
    if m < n - 1 {
      OwedAfterRun(states, moves, m, n - 1);
      NotRunningNext(states, moves, n - 1);
    } else {
      OwedNow(states, moves, m);
      RunningCleared(states, moves, m);
    }
    OwedNext(states, moves, n - 1);
  }

  /** A run that was woken while polling and ends `Pending` on an open task hands a Runnable over:
      whatever the other actors do, until the future is polled again the task is finished, or it is
      scheduled and there is a live Runnable or somebody about to hand one out. */
  lemma WokenRunHandsOver(states: seq<State>, moves: seq<Move>, m: nat, n: nat)
    requires Run(states, moves) && m < n < |states|
    requires EndsWoken(states, moves, m)
    requires forall k :: m < k < n ==> !PollsAt(states, moves, k)
    ensures var s := states[n];
            || s.g.word.completed || s.g.word.closed
            || (s.g.word.scheduled && !s.g.word.running && exists i :: 0 <= i < |s.actors| && HandsOut(s.actors[i]))
  {
    var x := RunKeepsInv(states, moves, n);
    OwedAfterRun(states, moves, m, n);
    var w := states[n].g.word;
    if w.scheduled && !w.closed { ScheduledHandsOut(states, moves, n); }
  }

  // ----- The future and the output -----

  predicate NoReturn(g: Shared, g': Shared) {
    && (g.future == Dropped ==> g'.future == Dropped)
    && (g.output == Consumed ==> g'.output == Consumed)
    && (g.destroyed ==> g'.destroyed)
  }

  lemma NextIsOneWay(states: seq<State>, moves: seq<Move>, n: nat)
    requires Run(states, moves) && n < |moves|
    ensures NoReturn(states[n].g, states[n + 1].g)
  {
    ActIsOneWay(states[n].g, states[n].actors[moves[n].actor], moves[n].choice);
    EveryStepIsSound(states, moves, n, moves[n].actor);
  }

  lemma {:induction false} RunIsOneWay(states: seq<State>, moves: seq<Move>, m: nat, n: nat)
    requires Run(states, moves) && m <= n < |states|
    ensures NoReturn(states[m].g, states[n].g)
    decreases n
  {
    if m < n {
      RunIsOneWay(states, moves, m, n - 1);
      NextIsOneWay(states, moves, n - 1);
    }
  }

  /** The future is dropped at most once, and never polled after that. */
  lemma FutureDroppedOnce(states: seq<State>, moves: seq<Move>, m: nat, n: nat)
    requires Run(states, moves) && m < n < |moves|
    requires DropsFuture(states[m].actors[moves[m].actor])
    ensures !DropsFuture(states[n].actors[moves[n].actor])
    ensures !PollsFuture(states[n].actors[moves[n].actor])
  {
    ActIsOneWay(states[m].g, states[m].actors[moves[m].actor], moves[m].choice);
    RunIsOneWay(states, moves, m + 1, n);
    EveryStepIsSound(states, moves, n, moves[n].actor);
  }

  /** The output is consumed at most once, by whichever of `run`, `poll_task` or `set_detached`. */
  lemma OutputConsumedOnce(states: seq<State>, moves: seq<Move>, m: nat, n: nat)
    requires Run(states, moves) && m < n < |moves|
    requires ConsumesOutput(states[m].actors[moves[m].actor])
    ensures !ConsumesOutput(states[n].actors[moves[n].actor])
  {
    ActIsOneWay(states[m].g, states[m].actors[moves[m].actor], moves[m].choice);
    RunIsOneWay(states, moves, m + 1, n);
    EveryStepIsSound(states, moves, n, moves[n].actor);
  }

  /** When the memory has been released: the output of a completed task was consumed, and the future
      was dropped if and only if the task had been completed or closed. */
  lemma ReleasedContents(states: seq<State>, moves: seq<Move>, n: nat)
    requires Run(states, moves) && n < |states| && states[n].g.destroyed
    ensures states[n].g.word.completed ==> states[n].g.output == Consumed
    ensures !states[n].g.word.completed ==> states[n].g.output == NoOutput
    ensures states[n].g.future == Dropped <==> states[n].g.word.completed || states[n].g.word.closed
  {
    var x := RunKeepsInv(states, moves, n);
    var s := states[n];
    HoldersAreBacked(s, x);
    if x.output.Consumer? {
      assert Sum(s.actors, KHolds(FOutput, Get(x, FOutput))) == 1;
      var i := SumWitness(s.actors, KHolds(FOutput, x.output));
      ActorFits(s, x, i);
      assert false;
    }
  }

  /** The memory is released at most once. */
  lemma ReleasedOnce(states: seq<State>, moves: seq<Move>, m: nat, n: nat)
    requires Run(states, moves) && m < n < |moves|
    requires !states[m].g.destroyed && states[m + 1].g.destroyed
    ensures var pc := states[n].actors[moves[n].actor];
            !(pc.Ref? && (pc.f.Destroy? || pc.f.ReleaseDestroy?))
  {
    RunIsOneWay(states, moves, m + 1, n);
    EveryStepIsSound(states, moves, n, moves[n].actor);
  }

  /** A task after its `Task` was detached, and after its only poll. */
  function DetachedTask(running: bool, refs: int, destroyed: bool): Shared {
    Shared(Word(!running && refs == 1 && !destroyed, running, false, false, false, false, false, false, refs),
           Alive, NoOutput, None, destroyed, false, false, None, false, false)
  }

  lemma LeakDetaches()
    ensures var s0 := Spawned(false);
            var s1 := Step(s0, 1, CallDetach);
            |s1.actors| == 2 && Step(s1, 1, Go) == State(DetachedTask(false, 1, false), [Runnable(RunnableIdle), Done])
  {
    var s1 := Step(Spawned(false), 1, CallDetach);
    assert s1.actors == [Runnable(RunnableIdle), Task(DetachTry)];
    assert Step(s1, 1, Go).actors == [Runnable(RunnableIdle), Done];
  }

  lemma LeakRuns()
    ensures var s2 := State(DetachedTask(false, 1, false), [Runnable(RunnableIdle), Done]);
            var s3 := Step(s2, 0, CallRun);
            |s3.actors| == 2 && |Step(s3, 0, Go).actors| == 2
            && Step(Step(s3, 0, Go), 0, Go)
               == State(DetachedTask(true, 1, false), [Poll(Polling(DetachedTask(true, 1, false).word)), Done])
  {
    var s2 := State(DetachedTask(false, 1, false), [Runnable(RunnableIdle), Done]);
    var s3 := Step(s2, 0, CallRun);
    assert s3.actors == [Runnable(RunLoad), Done];
    var s4 := Step(s3, 0, Go);
    assert s4.actors == [Runnable(RunLoop(s2.g.word)), Done];
    assert Step(s4, 0, Go).actors == [Poll(Polling(DetachedTask(true, 1, false).word)), Done];
  }

  lemma LeakEnds()
    ensures var s5 := State(DetachedTask(true, 1, false), [Poll(Polling(DetachedTask(true, 1, false).word)), Done]);
            var s6 := Step(s5, 0, FuturePending);
            && |s6.actors| == 2 && |Step(s6, 0, Go).actors| == 2 && |Step(Step(s6, 0, Go), 0, Go).actors| == 2
            && Step(Step(Step(s6, 0, Go), 0, Go), 0, Go).g.destroyed
            && Step(Step(Step(s6, 0, Go), 0, Go), 0, Go).g.future == Alive
  {
    var w := DetachedTask(true, 1, false).word;
    var s5 := State(DetachedTask(true, 1, false), [Poll(Polling(w)), Done]);
    var s6 := Step(s5, 0, FuturePending);
    assert s6.actors == [Poll(PendingLoop(w, false)), Done];
    var s7 := Step(s6, 0, Go);
    assert s7.actors == [Ref(Release(None)), Done];
    var s8 := Step(s7, 0, Go);
    assert s8.actors == [Ref(ReleaseDestroy(None)), Done];
  }

  /** The second case of `ReleasedContents` is real: a detached task whose only poll returns `Pending`
      without keeping a waker is released with its future still alive. */
  lemma FutureCanLeak() returns (states: seq<State>, moves: seq<Move>)
    ensures Run(states, moves)
    ensures states[|moves|].g.destroyed && states[|moves|].g.future == Alive
  {
    LeakDetaches();
    LeakRuns();
    LeakEnds();
    var s0 := Spawned(false);
    var s1 := Step(s0, 1, CallDetach);
    var s2 := Step(s1, 1, Go);
    var s3 := Step(s2, 0, CallRun);
    var s4 := Step(s3, 0, Go);
    var s5 := Step(s4, 0, Go);
    var s6 := Step(s5, 0, FuturePending);
    var s7 := Step(s6, 0, Go);
    var s8 := Step(s7, 0, Go);
    var s9 := Step(s8, 0, Go);
    states := [s0, s1, s2, s3, s4, s5, s6, s7, s8, s9];
    moves := [Move(1, CallDetach), Move(1, Go), Move(0, CallRun), Move(0, Go), Move(0, Go),
              Move(0, FuturePending), Move(0, Go), Move(0, Go), Move(0, Go)];
  }

  // ----- No notification is lost -----

  /** A handle between calls, or a finished call. */
  predicate AtRest(pc: Pc) {
    || pc.Done?
    || (pc.Runnable? && pc.r.RunnableIdle?)
    || (pc.Waker? && pc.v.WakerIdle?)
    || (pc.Task? && pc.t.TaskIdle?)
  }

  /** After `poll_task` returned `Pending`, its waker has been woken, is stored in the cell, or is
      carried by an actor that will wake it.  If the task has settled meanwhile, somebody is on the way
      to wake it. */
  lemma ParkedWakerIsKept(states: seq<State>, moves: seq<Move>, n: nat)
    requires Run(states, moves) && n < |states| && states[n].g.parked
    ensures var s := states[n];
            && s.g.reg.Some?
            && (!s.g.woken ==>
                  || s.g.cell == s.g.reg
                  || exists i :: 0 <= i < |s.actors| && Carries(s.actors[i], s.g.reg.value))
            && (!s.g.woken && Settled(s.g.word) ==>
                  exists i :: 0 <= i < |s.actors| && (Carries(s.actors[i], s.g.reg.value) || WillTake(s.actors[i])))
  {
    var x := RunKeepsInv(states, moves, n);
    var s := states[n];
    var id := s.g.reg.value;
    if Sum(s.actors, KCarries(id)) >= 1 {
      var i := SumWitness(s.actors, KCarries(id));
      assert Carries(s.actors[i], id);
    }
    if Sum(s.actors, KWillTake) >= 1 {
      var i := SumWitness(s.actors, KWillTake);
      assert WillTake(s.actors[i]);
    }
  }

  /** Once every call has returned, a `Task` that answered `Pending` and was not woken since would
      answer `Pending` again, and its waker is in the cell with AWAITER set. */
  lemma NoLostNotification(states: seq<State>, moves: seq<Move>, n: nat)
    requires Run(states, moves) && n < |states|
    requires states[n].g.parked && !states[n].g.woken
    requires forall i :: 0 <= i < |states[n].actors| ==> AtRest(states[n].actors[i])
    ensures !Settled(states[n].g.word)
    ensures states[n].g.cell == states[n].g.reg && states[n].g.cell.Some? && states[n].g.word.awaiter
  {
    ParkedWakerIsKept(states, moves, n);
    var x := RunKeepsInv(states, moves, n);
    var s := states[n];
    if !x.lock.Nobody? {
      forall i | 0 <= i < |s.actors| ensures Weight(s.actors[i], KHolds(FLock, x.lock)) == 0 { assert AtRest(s.actors[i]); }
      assert Sum(s.actors, KHolds(FLock, Get(x, FLock))) == 1;
      SumZero(s.actors, KHolds(FLock, x.lock));
    }
  }
}
