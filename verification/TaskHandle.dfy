/** The calls on the `Task` handle: polling it, canceling, dropping and detaching it. */
module TaskHandle {
  import opened Basics
  import opened TaskProtocol
  import opened TaskInvariant
  import opened TaskTheorems
  import opened TaskCalls

  // ----- There is one handle -----

  /** An awaiter that is registered is being notified. */
  predicate Notified(g: Shared) {
    g.word.awaiter ==> g.word.notifying
  }

  /** An actor that is not the Task does not become it, and leaves its registration alone. */
  predicate StandsBy(g: Shared, pc: Pc, o: Out) {
    TaskRole(pc).Nobody? ==>
      && TaskRole(o.pc).Nobody? && (o.spawn.Some? ==> TaskRole(o.spawn.value).Nobody?)
      && o.g.reg == g.reg && o.g.parked == g.parked
  }

  lemma RunnableStandsBy(g: Shared, r: RunnablePc, c: Choice)
    ensures StandsBy(g, Runnable(r), ActRunnable(g, r, c))
  {
  }

  lemma PollStandsBy(g: Shared, p: PollPc, c: Choice)
    ensures StandsBy(g, Poll(p), ActPoll(g, p, c))
  {
  }

  lemma RefStandsBy(g: Shared, f: RefPc, c: Choice)
    ensures StandsBy(g, Ref(f), ActRef(g, f))
  {
  }

  lemma WakeStandsBy(g: Shared, s: Word, c: Choice)
    ensures StandsBy(g, Waker(WakeLoop(s)), ActWaker(g, WakeLoop(s), c))
  {
  }

  lemma WakeRefStandsBy(g: Shared, wk: WakeCont, s: Word, c: Choice)
    ensures StandsBy(g, Waker(WakeRefLoop(wk, s)), ActWaker(g, WakeRefLoop(wk, s), c))
  {
  }

  lemma WakerStandsBy(g: Shared, v: WakerPc, c: Choice)
    ensures StandsBy(g, Waker(v), ActWaker(g, v, c))
  {
    match v
    case WakeLoop(s) => WakeStandsBy(g, s, c);
    case WakeRefLoop(wk, s) => WakeRefStandsBy(g, wk, s, c);
    case _ =>
  }

  lemma TakeStandsBy(g: Shared, a: TakePc, c: Choice)
    ensures StandsBy(g, Take(a), ActTake(g, a))
  {
  }

  lemma ActStandsBy(g: Shared, pc: Pc, c: Choice)
    requires TaskRole(pc).Nobody?
    ensures StandsBy(g, pc, Act(g, pc, c))
  {
    match pc
    case Runnable(r) => RunnableStandsBy(g, r, c);
    case Poll(p) => PollStandsBy(g, p, c);
    case Ref(f) => RefStandsBy(g, f, c);
    case Waker(v) => WakerStandsBy(g, v, c);
    case Take(a) => TakeStandsBy(g, a, c);
    case _ =>
  }

  /** And it neither registers an awaiter nor stops notifying one that stays. */
  predicate KeepsNotice(w: Word, w': Word) {
    (w.awaiter ==> w.notifying) ==> (w'.awaiter ==> w'.notifying)
  }

  lemma RunKeepsNotice(g: Shared, s: Word, c: Choice)
    ensures KeepsNotice(g.word, ActRunnable(g, RunLoop(s), c).g.word)
  {
    var g' := ActRunnable(g, RunLoop(s), c).g;
    assert g'.word == g.word || g'.word == g.word.(scheduled := false, running := true);
  }

  lemma DropKeepsNotice(g: Shared, s: Word, c: Choice)
    ensures KeepsNotice(g.word, ActRunnable(g, DropLoop(s), c).g.word)
  {
    var g' := ActRunnable(g, DropLoop(s), c).g;
    assert g'.word == g.word || g'.word == g.word.(closed := true);
  }

  lemma RunnableKeepsNotice(g: Shared, r: RunnablePc, c: Choice)
    ensures KeepsNotice(g.word, ActRunnable(g, r, c).g.word)
  {
    match r
    case RunLoop(s) => RunKeepsNotice(g, s, c);
    case DropLoop(s) => DropKeepsNotice(g, s, c);
    case _ =>
  }

  lemma ReadyKeepsNotice(g: Shared, s: Word, c: Choice)
    ensures KeepsNotice(g.word, ActPoll(g, ReadyLoop(s), c).g.word)
  {
    var g' := ActPoll(g, ReadyLoop(s), c).g;
    if Hit(g, s, c) {
      assert g'.word == s.(running := false, scheduled := false, completed := true, closed := s.closed || !s.task);
    } else {
      assert g' == g;
    }
  }

  lemma PendingKeepsNotice(g: Shared, s: Word, dropped: bool, c: Choice)
    ensures KeepsNotice(g.word, ActPoll(g, PendingLoop(s, dropped), c).g.word)
  {
    var g' := ActPoll(g, PendingLoop(s, dropped), c).g;
    if !(s.closed && !dropped) && Hit(g, s, c) {
      assert g'.word == s.(running := false, scheduled := false) || g'.word == s.(running := false);
    } else {
      assert g'.word == g.word;
    }
  }

  lemma PollKeepsNotice(g: Shared, p: PollPc, c: Choice)
    ensures KeepsNotice(g.word, ActPoll(g, p, c).g.word)
  {
    match p
    case ReadyLoop(s) => ReadyKeepsNotice(g, s, c);
    case PendingLoop(s, dropped) => PendingKeepsNotice(g, s, dropped, c);
    case _ => assert ActPoll(g, p, c).g.word == g.word || ActPoll(g, p, c).g == AddRef(g);
  }

  lemma RefKeepsNotice(g: Shared, f: RefPc, c: Choice)
    ensures KeepsNotice(g.word, ActRef(g, f).g.word)
  {
  }

  lemma WakeKeepsNotice(g: Shared, s: Word, c: Choice)
    ensures KeepsNotice(g.word, ActWaker(g, WakeLoop(s), c).g.word)
  {
    var g' := ActWaker(g, WakeLoop(s), c).g;
    assert g'.word == g.word || g'.word == g.word.(scheduled := true);
  }

  lemma WakeRefKeepsNotice(g: Shared, wk: WakeCont, s: Word, c: Choice)
    ensures KeepsNotice(g.word, ActWaker(g, WakeRefLoop(wk, s), c).g.word)
  {
    var g' := ActWaker(g, WakeRefLoop(wk, s), c).g;
    if s.completed || s.closed || s.scheduled || !Hit(g, s, c) {
      assert g'.word == g.word;
    } else if s.running {
      assert g'.word == s.(scheduled := true);
    } else {
      assert g'.word == s.(scheduled := true, refs := s.refs + 1);
    }
  }

  lemma WakerKeepsNotice(g: Shared, v: WakerPc, c: Choice)
    ensures KeepsNotice(g.word, ActWaker(g, v, c).g.word)
  {
    match v
    case WakeLoop(s) => WakeKeepsNotice(g, s, c);
    case WakeRefLoop(wk, s) => WakeRefKeepsNotice(g, wk, s, c);
    case _ => assert ActWaker(g, v, c).g.word == g.word || ActWaker(g, v, c).g == AddRef(g);
  }

  lemma TakeKeepsNotice(g: Shared, a: TakePc, c: Choice)
    ensures KeepsNotice(g.word, ActTake(g, a).g.word)
  {
  }

  lemma ActKeepsNotice(g: Shared, pc: Pc, c: Choice)
    requires TaskRole(pc).Nobody?
    ensures KeepsNotice(g.word, Act(g, pc, c).g.word)
  {
    match pc
    case Runnable(r) => RunnableKeepsNotice(g, r, c);
    case Poll(p) => PollKeepsNotice(g, p, c);
    case Ref(f) => RefKeepsNotice(g, f, c);
    case Waker(v) => WakerKeepsNotice(g, v, c);
    case Take(a) => TakeKeepsNotice(g, a, c);
    case _ =>
  }

  /** New actors are Runnables and Wakers. */
  predicate SpawnsHandle(o: Out) {
    o.spawn.Some? ==> o.spawn.value == Runnable(RunnableIdle) || o.spawn.value == Waker(WakerIdle)
  }

  lemma TaskSpawnsNothing(g: Shared, t: TaskPc, c: Choice)
    ensures ActTask(g, t, c).spawn.None?
  {
  }

  lemma RegisterSpawnsNothing(g: Shared, e: RegisterPc, c: Choice)
    ensures ActRegister(g, e, c).spawn.None?
  {
  }

  lemma ActSpawns(g: Shared, pc: Pc, c: Choice)
    ensures SpawnsHandle(Act(g, pc, c))
  {
    match pc
    case Task(t) => TaskSpawnsNothing(g, t, c);
    case Register(e) => RegisterSpawnsNothing(g, e, c);
    case _ =>
  }

  /** The Task is actor 1, if anyone. */
  lemma {:induction false} OneTask(states: seq<State>, moves: seq<Move>, n: nat, j: nat)
    requires Run(states, moves) && n < |states| && j < |states[n].actors| && j != 1
    ensures TaskRole(states[n].actors[j]).Nobody?
  {
    if n > 0 {
      var (g, a, c) := (states[n - 1].g, moves[n - 1].actor, moves[n - 1].choice);
      if j < |states[n - 1].actors| {
        OneTask(states, moves, n - 1, j);
        if a == j { ActStandsBy(g, states[n - 1].actors[a], c); }
      } else {
        ActSpawns(g, states[n - 1].actors[a], c);
      }
    }
  }

  /** TASK is set just while the handle, or a call on it, is there. */
  lemma TaskFlagIffHandle(states: seq<State>, moves: seq<Move>, n: nat)
    requires Run(states, moves) && n < |states|
    ensures |states[n].actors| > 1 && (states[n].g.word.task <==> !TaskRole(states[n].actors[1]).Nobody?)
  {
    var x := RunKeepsInv(states, moves, n);
    var s := states[n];
    TwoActors(states, moves, n);
    if s.g.word.task {
      assert Sum(s.actors, KHolds(FTask, Get(x, FTask))) == 1;
      var j := SumWitness(s.actors, KHolds(FTask, x.task));
      if j != 1 { OneTask(states, moves, n, j); }
    } else {
      HolderFits(s, x, 1, FTask);
    }
  }

  lemma {:induction false} TwoActors(states: seq<State>, moves: seq<Move>, n: nat)
    requires Run(states, moves) && n < |states|
    ensures |states[n].actors| > 1
  {
    if n > 0 {
      TwoActors(states, moves, n - 1);
      assert states[n] == Step(states[n - 1], moves[n - 1].actor, moves[n - 1].choice);
    }
  }

  /** The handle is called at step `m`. */
  ghost predicate HandleCalled(states: seq<State>, moves: seq<Move>, c: Choice, m: nat) {
    && m < |moves| && m < |states| && |states[m].actors| > 1 && moves[m] == Move(1, c)
    && states[m].actors[1] == Task(TaskIdle)
  }

  // ----- Calls that use a handle up -----

  /** `run`, `schedule` and the drop of a Runnable, `wake` and the drop of a Waker, the drop of the Task
      and `detach`. */
  predicate UsesUp(pc: Pc, c: Choice) {
    match pc
    case Runnable(r) => r.RunnableIdle? && (c.CallRun? || c.CallDropRunnable? || c.CallSchedule?)
    case Waker(v) => v.WakerIdle? && (c.CallWake? || c.CallDropWaker?)
    case Task(t) => t.TaskIdle? && (c.CallDropTask? || c.CallDetach?)
    case _ => false
  }

  predicate EndsUsed(k: Cont) {
    k.End? || k.dropping
  }

  /** The handle is being used up, or gone. */
  predicate Used(pc: Pc) {
    match pc
    case Done | Poll(_) => true
    case Runnable(r) => !r.RunnableIdle?
    case Ref(f) =>
      (match f
       case Release(_) | ReleaseDestroy(_) | WakeEnd(_) => true
       case Schedule(k) => EndsUsed(k)
       case ScheduleHeld(k) => EndsUsed(k)
       case DropWaker(k) => EndsUsed(k)
       case LastWakerStore(k) => EndsUsed(k)
       case Destroy(k) => EndsUsed(k))
    case Waker(v) =>
      (match v
       case WakerIdle => false
       case WakeLoad | WakeLoop(_) => true
       case WakeRefLoad(wk) => !wk.KeepWaker?
       case WakeRefLoop(wk, _) => !wk.KeepWaker?
       case WakeRefSchedule(wk) => !wk.KeepWaker?)
    case Task(t) =>
      (match t
       case CancelLoad(dropping) => dropping
       case CancelLoop(dropping, _) => dropping
       case DetachTry | DetachLoop(_) | DetachRead(_) => true
       case _ => false)
    case Register(_) => false
    case Take(a) => !OfTask(a.tk) || a.tk == ThenCanceled(true)
  }

  lemma RunnableStaysUsed(g: Shared, r: RunnablePc, c: Choice)
    requires Used(Runnable(r))
    ensures Used(ActRunnable(g, r, c).pc)
  {
  }

  lemma PollStaysUsed(g: Shared, p: PollPc, c: Choice)
    ensures Used(ActPoll(g, p, c).pc)
  {
  }

  lemma RefStaysUsed(g: Shared, f: RefPc, c: Choice)
    requires Used(Ref(f))
    ensures Used(ActRef(g, f).pc)
  {
  }

  lemma WakerStaysUsed(g: Shared, v: WakerPc, c: Choice)
    requires Used(Waker(v))
    ensures Used(ActWaker(g, v, c).pc)
  {
  }

  lemma TaskStaysUsed(g: Shared, t: TaskPc, c: Choice)
    requires Used(Task(t))
    ensures Used(ActTask(g, t, c).pc)
  {
    if t.DetachTry? || t.DetachLoop? || t.DetachRead? { DetachStaysUsed(g, t, c); }
  }

  lemma DetachStaysUsed(g: Shared, t: TaskPc, c: Choice)
    requires t.DetachTry? || t.DetachLoop? || t.DetachRead?
    ensures Used(ActDetach(g, t, c).pc)
  {
  }

  lemma TakeStaysUsed(g: Shared, a: TakePc)
    requires Used(Take(a))
    ensures Used(ActTake(g, a).pc)
  {
  }

  lemma ActStaysUsed(g: Shared, pc: Pc, c: Choice)
    requires Used(pc)
    ensures Used(Act(g, pc, c).pc)
  {
    match pc
    case Done =>
    case Runnable(r) => RunnableStaysUsed(g, r, c);
    case Poll(p) => PollStaysUsed(g, p, c);
    case Ref(f) => RefStaysUsed(g, f, c);
    case Waker(v) => WakerStaysUsed(g, v, c);
    case Task(t) => TaskStaysUsed(g, t, c);
    case Take(a) => TakeStaysUsed(g, a);
  }

  lemma UsedNext(states: seq<State>, moves: seq<Move>, n: nat, i: nat)
    requires Run(states, moves) && n < |moves| && i < |states[n].actors| && Used(states[n].actors[i])
    ensures i < |states[n + 1].actors| && Used(states[n + 1].actors[i])
  {
    StepOfRun(states, moves, n);
    if moves[n].actor == i { ActStaysUsed(states[n].g, states[n].actors[i], moves[n].choice); }
  }

  lemma UseBegins(g: Shared, pc: Pc, c: Choice)
    requires UsesUp(pc, c)
    ensures Used(Act(g, pc, c).pc)
  {
  }

  /** A handle that was used up never is one again: its actor is in the call until it is done for good. */
  lemma {:induction false} HandleIsUsedUp(states: seq<State>, moves: seq<Move>, m: nat, n: nat, i: nat)
    requires Run(states, moves) && m < n < |states| && moves[m].actor == i && UsesUp(states[m].actors[i], moves[m].choice)
    ensures i < |states[n].actors| && Used(states[n].actors[i])
    ensures AtRest(states[n].actors[i]) ==> states[n].actors[i].Done?
    decreases n
  {
    if m < n - 1 {
      HandleIsUsedUp(states, moves, m, n - 1, i);
      UsedNext(states, moves, n - 1, i);
    } else {
      UseBegins(states[m].g, states[m].actors[i], moves[m].choice);
      StepOfRun(states, moves, m);
    }
  }

  /** When the drop of the Task, or `detach`, is over, TASK is cleared. */
  lemma TaskIsGone(states: seq<State>, moves: seq<Move>, m: nat, n: nat)
    requires Run(states, moves) && m < n < |states|
    requires HandleCalled(states, moves, CallDropTask, m) || HandleCalled(states, moves, CallDetach, m)
    ensures |states[n].actors| > 1 && (AtRest(states[n].actors[1]) ==> !states[n].g.word.task)
  {
    HandleIsUsedUp(states, moves, m, n, 1);
    TaskFlagIffHandle(states, moves, n);
  }

  /** A clone of a Waker, or of the waker that `run` or a Runnable offers, is one more Waker. */
  lemma CloneAddsWaker(s: State, i: nat)
    requires i < |s.actors|
    requires s.actors[i] == Runnable(RunnableIdle) || s.actors[i] == Waker(WakerIdle) || PollsFuture(s.actors[i])
    ensures Step(s, i, CallCloneWaker).actors == s.actors + [Waker(WakerIdle)]
  {
  }

  // ----- Polling the handle -----

  /** A call of `poll_task` with waker `id`, before it answers.  It never wakes that waker itself. */
  predicate PollsTask(id: WakerId, g: Shared, pc: Pc) {
    match pc
    case Task(t) =>
      (match t
       case PollLoad(x) => x == id
       case PollLoop(x, s) => x == id && Seen(s, g)
       case Reload(x, path) => x == id && g.reg == Some(id) && (path ==> g.word.closed)
       case TakeOutput => Notified(g)
       case _ => false)
    case Register(e) => e.id == id && (e.closedPath ==> g.word.closed)
    case Take(a) =>
      && ((a.tk.ThenPollNone? && g.word.closed) || a.tk.ThenPollOutput?)
      && (if a.NotifyWake? then a.id != id && Notified(g) else a.cur == Some(id))
    case _ => false
  }

  /** How the call ends: `Pending` while the task is not settled, with the waker registered; or with the
      output, which it takes; or with nothing, because the task is closed.  In the last two cases no awaiter
      is left behind unless somebody is notifying it. */
  predicate PollAnswer(id: WakerId, pc: Pc, o: Out) {
    && o.pc == Task(TaskIdle)
    && (|| (o.g.parked && o.g.reg == Some(id) && !Settled(o.g.word))
        || (pc == Task(TakeOutput) && o.g.output == Consumed && Notified(o.g))
        || (pc.Take? && pc.a.tk.ThenPollNone? && o.g.word.closed && Notified(o.g)))
  }

  lemma PollTaskGoesOn(id: WakerId, g: Shared, t: TaskPc, c: Choice)
    requires PollsTask(id, g, Task(t)) && (g.word.scheduled || g.word.running ==> !g.word.completed)
    ensures var o := ActTask(g, t, c); PollsTask(id, o.g, o.pc) || PollAnswer(id, Task(t), o)
  {
  }

  lemma FinishGoesOn(id: WakerId, g: Shared, path: bool, s: Word, took: Option<WakerId>, c: Choice)
    requires path ==> g.word.closed
    ensures var o := ActRegister(g, RegisterFinish(id, path, s, took), c); PollsTask(id, o.g, o.pc)
  {
    var o := ActRegister(g, RegisterFinish(id, path, s, took), c);
    if s.notifying && g.cell.Some? {
      assert o.g == g.(cell := None) && o.pc == Register(RegisterFinish(id, path, s, g.cell));
    } else if !Hit(g, s, c) {
      assert o == Keep(g, Register(RegisterFinish(id, path, g.word, took)));
    } else if took.None? {
      var w := s.(notifying := false, registering := false, awaiter := true);
      assert o.g == g.(word := w, reg := Some(id), woken := false) && o.pc == Task(Reload(id, path));
    } else {
      var w := s.(notifying := false, registering := false, awaiter := false);
      assert o.g == g.(word := w) && o.pc == Register(RegisterWake(id, path, took.value));
    }
  }

  lemma LoopGoesOn(id: WakerId, g: Shared, path: bool, s: Word, c: Choice)
    requires path ==> g.word.closed
    ensures var o := ActRegister(g, RegisterLoop(id, path, s), c); PollsTask(id, o.g, o.pc)
  {
    var o := ActRegister(g, RegisterLoop(id, path, s), c);
    if s.notifying {
      assert o.g == g.(reg := Some(id), woken := true) && o.pc == Task(Reload(id, path));
    } else {
      assert o.g == g || o.g == g.(word := g.word.(registering := true));
    }
  }

  lemma RegisterGoesOn(id: WakerId, g: Shared, e: RegisterPc, c: Choice)
    requires PollsTask(id, g, Register(e))
    ensures var o := ActRegister(g, e, c); PollsTask(id, o.g, o.pc)
  {
    match e
    case RegisterLoop(_, path, s) => LoopGoesOn(id, g, path, s, c);
    case RegisterFinish(_, path, s, took) => FinishGoesOn(id, g, path, s, took, c);
    case _ => assert ActRegister(g, e, c).g.word == g.word;
  }

  lemma TakeGoesOn(id: WakerId, g: Shared, a: TakePc)
    requires PollsTask(id, g, Take(a))
    ensures var o := ActTake(g, a); PollsTask(id, o.g, o.pc) || PollAnswer(id, Take(a), o)
  {
  }

  /** The handle is in a call of `poll_task` with waker `id`. */
  ghost predicate PollsAt(states: seq<State>, id: WakerId, n: nat) {
    n < |states| && |states[n].actors| > 1 && PollsTask(id, states[n].g, states[n].actors[1])
  }

  /** The call of `poll_task` answers at step `k`. */
  ghost predicate AnswersAt(states: seq<State>, moves: seq<Move>, id: WakerId, k: nat) {
    && k < |moves| && k < |states| && |states[k].actors| > 1 && moves[k].actor == 1
    && PollAnswer(id, states[k].actors[1], Act(states[k].g, states[k].actors[1], moves[k].choice))
  }

  lemma PollNext(states: seq<State>, moves: seq<Move>, id: WakerId, n: nat)
    requires Run(states, moves) && n < |moves| && PollsAt(states, id, n)
    ensures PollsAt(states, id, n + 1) || AnswersAt(states, moves, id, n)
  {
    var (g, pc, c) := (states[n].g, states[n].actors[1], moves[n].choice);
    StepOfRun(states, moves, n);
    if moves[n].actor == 1 {
      match pc
      case Task(t) => FlagsExclude(states, moves, n); PollTaskGoesOn(id, g, t, c);
      case Register(e) => RegisterGoesOn(id, g, e, c);
      case Take(a) => TakeGoesOn(id, g, a);
    } else {
      OneTask(states, moves, n, moves[n].actor);
      ActStandsBy(g, states[n].actors[moves[n].actor], c);
      ActKeepsNotice(g, states[n].actors[moves[n].actor], c);
    }
  }

  /** A call of `poll_task` goes on until it answers. */
  lemma {:induction false} PollAnswers(states: seq<State>, moves: seq<Move>, id: WakerId, m: nat, n: nat)
    returns (k: nat)
    requires Run(states, moves) && m < n < |states| && HandleCalled(states, moves, CallPoll(id), m)
    ensures PollsAt(states, id, n) || (m < k < n && AnswersAt(states, moves, id, k))
    decreases n
  {
    k := 0;
    if n == m + 1 {
      assert states[n] == Step(states[m], 1, CallPoll(id));
    } else {
      k := PollAnswers(states, moves, id, m, n - 1);
      if PollsAt(states, id, n - 1) {
        PollNext(states, moves, id, n - 1);
        k := n - 1;
      }
    }
  }

  // ----- Polling a completed task -----

  /** A call of `poll_task` that will come to the output. */
  predicate WinsOutput(g: Shared, pc: Pc) {
    g.word.completed && (match pc
                         case Task(t) =>
                           (match t
                            case PollLoad(_) => !g.word.closed
                            case PollLoop(_, s) => !g.word.closed && s.completed && !s.closed
                            case TakeOutput => true
                            case _ => false)
                         case Take(a) => a.tk.ThenPollOutput?
                         case _ => false)
  }

  lemma WinnerGoesOn(g: Shared, pc: Pc, c: Choice)
    requires WinsOutput(g, pc)
    ensures var o := Act(g, pc, c); WinsOutput(o.g, o.pc) || (pc == Task(TakeOutput) && o.g.output == Consumed)
  {
  }

  ghost predicate WinsAt(states: seq<State>, n: nat) {
    n < |states| && |states[n].actors| > 1 && WinsOutput(states[n].g, states[n].actors[1])
  }

  /** The output is moved out to the caller at step `k`. */
  ghost predicate HandsOver(states: seq<State>, moves: seq<Move>, k: nat) {
    && k + 1 < |states| && k < |moves| && |states[k].actors| > 1 && moves[k].actor == 1
    && states[k].actors[1] == Task(TakeOutput)
    && states[k].g.output == Stored && states[k + 1].g.output == Consumed
  }

  lemma WinNext(states: seq<State>, moves: seq<Move>, n: nat)
    requires Run(states, moves) && n < |moves| && WinsAt(states, n)
    ensures WinsAt(states, n + 1) || HandsOver(states, moves, n)
  {
    var (g, a, c) := (states[n].g, moves[n].actor, moves[n].choice);
    StepOfRun(states, moves, n);
    var x := RunKeepsInv(states, moves, n);
    ActorIsReady(states[n], x, a);
    if a == 1 {
      WinnerGoesOn(g, states[n].actors[1], c);
    } else {
      OneTask(states, moves, n, a);
      ActIsOrderly(g, states[n].actors[a], c);
    }
  }

  /** A call of `poll_task` on an open, completed task ends by handing over the output, whatever the other
      actors do. */
  lemma {:induction false} PollReachesOutput(states: seq<State>, moves: seq<Move>, id: WakerId, m: nat, n: nat)
    returns (k: nat)
    requires Run(states, moves) && m < n < |states| && HandleCalled(states, moves, CallPoll(id), m)
    requires states[m].g.word.completed && !states[m].g.word.closed
    ensures WinsAt(states, n) || (m < k < n && HandsOver(states, moves, k))
    decreases n
  {
    k := 0;
    if n == m + 1 {
      assert states[n] == Step(states[m], 1, CallPoll(id));
    } else {
      k := PollReachesOutput(states, moves, id, m, n - 1);
      if WinsAt(states, n - 1) {
        WinNext(states, moves, n - 1);
        k := n - 1;
      }
    }
  }

  // ----- Releasing the task -----

  /** `drop_waker` or `set_detached` is about to release the task. */
  predicate AtDestroy(pc: Pc) {
    pc.Ref? && pc.f.Destroy?
  }

  predicate Finished(w: Word) {
    w.closed || w.completed
  }

  lemma RefEntersDestroy(g: Shared, f: RefPc, c: Choice)
    ensures var o := ActRef(g, f); AtDestroy(o.pc) ==> Finished(o.g.word)
  {
  }

  lemma DetachEntersDestroy(g: Shared, t: TaskPc, c: Choice)
    ensures var o := ActDetach(g, t, c); AtDestroy(o.pc) ==> Finished(o.g.word)
  {
    if t.DetachLoop? && Hit(g, t.s, c) && !(t.s.completed && !t.s.closed) && !(t.s.refs == 0 && !t.s.closed) {
      assert ActDetach(g, t, c).g.word == t.s.(task := false);
    }
  }

  lemma TaskEntersDestroy(g: Shared, t: TaskPc, c: Choice)
    ensures var o := ActTask(g, t, c); AtDestroy(o.pc) ==> Finished(o.g.word)
  {
    if t.DetachTry? || t.DetachLoop? || t.DetachRead? {
      DetachEntersDestroy(g, t, c);
    } else {
      assert !AtDestroy(ActTask(g, t, c).pc);
    }
  }

  lemma RegisterEntersDestroy(g: Shared, e: RegisterPc, c: Choice)
    ensures !AtDestroy(ActRegister(g, e, c).pc)
  {
  }

  lemma NeverEntersDestroy(g: Shared, pc: Pc, c: Choice)
    requires !pc.Ref? && !pc.Task? && !pc.Register?
    ensures !AtDestroy(Act(g, pc, c).pc)
  {
  }

  lemma ActEntersDestroy(g: Shared, pc: Pc, c: Choice)
    ensures var o := Act(g, pc, c); AtDestroy(o.pc) ==> Finished(o.g.word)
  {
    match pc
    case Ref(f) => RefEntersDestroy(g, f, c);
    case Task(t) => TaskEntersDestroy(g, t, c);
    case Register(e) => RegisterEntersDestroy(g, e, c);
    case _ => NeverEntersDestroy(g, pc, c);
  }

  lemma DestroyNext(states: seq<State>, moves: seq<Move>, n: nat, i: nat)
    requires Run(states, moves) && n < |moves| && i < |states[n + 1].actors| && AtDestroy(states[n + 1].actors[i])
    ensures || Finished(states[n + 1].g.word)
            || (&& i < |states[n].actors| && AtDestroy(states[n].actors[i])
                && (Finished(states[n].g.word) ==> Finished(states[n + 1].g.word)))
  {
    StepOfRun(states, moves, n);
    var (g, a, c) := (states[n].g, moves[n].actor, moves[n].choice);
    if a == i {
      ActEntersDestroy(g, states[n].actors[i], c);
    } else if i >= |states[n].actors| {
      ActSpawns(g, states[n].actors[a], c);
    }
  }

  lemma {:induction false} DestroyIsFinished(states: seq<State>, moves: seq<Move>, n: nat, i: nat)
    requires Run(states, moves) && n < |states| && i < |states[n].actors| && AtDestroy(states[n].actors[i])
    ensures Finished(states[n].g.word)
  {
    DestroyNext(states, moves, n - 1, i);
    if !Finished(states[n].g.word) { DestroyIsFinished(states, moves, n - 1, i); }
  }

  /** The last Waker or the Task releases only a task that is finished, so that its future has been dropped:
      an open one is scheduled once more. */
  lemma FinishedAtRelease(states: seq<State>, moves: seq<Move>, n: nat, i: nat)
    requires Run(states, moves) && n < |states| && i < |states[n].actors| && AtDestroy(states[n].actors[i])
    ensures Finished(states[n].g.word) && states[n].g.future == Dropped
  {
    DestroyIsFinished(states, moves, n, i);
    var x := RunKeepsInv(states, moves, n);
    ActorIsReady(states[n], x, i);
    HoldersAreBacked(states[n], x);
  }

  // ----- Scheduling -----

  /** Whoever hands a Runnable out keeps a reference through the call of `schedule` if that captures
      variables, which live in the task: so the task is not released under it. */
  lemma ScheduleKeepsTask(states: seq<State>, moves: seq<Move>, n: nat)
    requires Run(states, moves) && n < |moves| && states[n].g.captures
    requires Act(states[n].g, states[n].actors[moves[n].actor], moves[n].choice).spawn == Some(Runnable(RunnableIdle))
    ensures RefsOf(states[n + 1].actors[moves[n].actor]) >= 1 && !states[n + 1].g.destroyed
  {
    StepOfRun(states, moves, n);
    HandoverKeepsReference(states[n].g, states[n].actors[moves[n].actor], moves[n].choice);
    var x := RunKeepsInv(states, moves, n + 1);
    ActorIsReady(states[n + 1], x, moves[n].actor);
  }

  lemma HandoverKeepsReference(g: Shared, pc: Pc, c: Choice)
    requires g.captures && Act(g, pc, c).spawn == Some(Runnable(RunnableIdle))
    ensures RefsOf(Act(g, pc, c).pc) >= 1
  {
    match pc
    case Task(t) => TaskSpawnsNothing(g, t, c);
    case Register(e) => RegisterSpawnsNothing(g, e, c);
    case _ =>
  }
}
