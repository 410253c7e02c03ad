/** No call on a task waits for another: each of them, when it steps alone, is over after a bounded number
    of steps. */
module TaskProgress {
  import opened Basics
  import opened TaskProtocol
  import opened TaskInvariant
  import opened TaskSteps
  import opened TaskTheorems
  import opened TaskCalls
  import opened TaskHandle

  /** The actor waits for its user, or for the future: it has no step of its own to make. */
  predicate Waits(pc: Pc) {
    AtRest(pc) || PollsFuture(pc)
  }

  // ----- How many steps are left -----

  function CanceledLeft(dropping: bool): nat {
    if dropping then 7 else 0
  }

  function ContLeft(k: Cont): nat {
    match k
    case End => 0
    case CancelNext(aw, dropping) => (if aw then 4 else 0) + CanceledLeft(dropping)
  }

  function RunnableLeft(g: Shared, r: RunnablePc): nat {
    match r
    case RunnableIdle => 0
    case RunLoad | DropLoad => 11
    case RunLoop(s) => if s.closed || s == g.word then 10 else 11
    case DropLoop(s) => if s.completed || s.closed || s == g.word then 10 else 11
    case RunClosedDrop | DropFuture => 9
    case RunClosedUnschedule | DropUnschedule => 8
  }

  function PollLeft(g: Shared, p: PollPc): nat {
    match p
    case Polling(_) => 0
    case ReadyDrop(_) => 12
    case ReadyWrite(_) => 11
    case ReadyLoop(s) => if s == g.word then 9 else 10
    case ReadyDropOutput(_) => 8
    case PendingLoop(s, dropped) => 8 + (if s.closed && !dropped then 1 else 0) + (if s == g.word then 0 else 2)
  }

  function RefLeft(g: Shared, f: RefPc): nat {
    match f
    case Release(_) => 3
    case ReleaseDestroy(_) => 2
    case WakeEnd(_) => 1
    case LastWakerStore(k) => 4 + ContLeft(k)
    case Schedule(k) => 3 + ContLeft(k)
    case ScheduleHeld(k) => 2 + ContLeft(k)
    case Destroy(k) => 1 + ContLeft(k)
    case DropWaker(k) =>
      ContLeft(k) + (if g.word.refs > 1 || g.word.task then 1 else if g.word.completed || g.word.closed then 2 else 5)
  }

  function WakerLeft(g: Shared, v: WakerPc): nat {
    match v
    case WakerIdle => 0
    case WakeLoad => 7
    case WakeLoop(s) => if s.completed || s.closed || s == g.word then 6 else 7
    case WakeRefSchedule(_) => 6
    case WakeRefLoad(_) => 8
    case WakeRefLoop(_, s) => if s.completed || s.closed || s == g.word then 7 else 8
  }

  function TaskLeft(g: Shared, t: TaskPc): nat {
    match t
    case TaskIdle => 0
    case PollLoad(_) => 26
    case PollLoop(_, s) => if s.closed then 14 else if !s.completed then 25 else if s == g.word then 14 else 26
    case Reload(_, path) => if path then 5 else 16
    case TakeOutput => 1
    case CancelLoad(_) => 16
    case CancelLoop(_, s) => if s.completed || s.closed || s == g.word then 15 else 16
    case DetachTry => 7
    case DetachLoop(s) => if s != g.word then 7 else if s.completed && !s.closed then 6 else 4
    case DetachRead(s) => if s == g.word && s.closed then 5 else 8
  }

  function RegisterLeft(g: Shared, e: RegisterPc): nat {
    (if e.closedPath then 0 else 11)
    + match e
      case RegisterLoad(_, _) => 13
      case RegisterLoop(_, _, s) => if s == g.word then 12 else 13
      case RegisterStore(_, _, _) => 11
      case RegisterFinish(_, _, s, _) =>
        7 + (if s.notifying && g.cell.Some? then 1 else 0) + (if s == g.word then 0 else 2)
      case RegisterWake(_, _, _) => 6
  }

  function TakeContLeft(tk: TakeCont): nat {
    match tk
    case ThenRelease | ThenWakeRelease => 3
    case ThenCanceled(dropping) => CanceledLeft(dropping)
    case ThenPollNone => 0
    case ThenPollOutput => 1
  }

  function TakeLeft(a: TakePc): nat {
    TakeContLeft(a.tk) + match a
                         case TakeMark(_, _) => 4
                         case TakeCell(_, _) => 3
                         case TakeClear(_, _, _) => 2
                         case NotifyWake(_, _) => 1
  }

  function Left(g: Shared, pc: Pc): nat {
    match pc
    case Done => 0
    case Runnable(r) => RunnableLeft(g, r)
    case Poll(p) => PollLeft(g, p)
    case Ref(f) => RefLeft(g, f)
    case Waker(v) => WakerLeft(g, v)
    case Task(t) => TaskLeft(g, t)
    case Register(e) => RegisterLeft(g, e)
    case Take(a) => TakeLeft(a)
  }

  // ----- A step leaves fewer of them -----

  lemma RunnableFalls(g: Shared, r: RunnablePc, c: Choice)
    requires !r.RunnableIdle? && c != Spurious
    ensures var o := ActRunnable(g, r, c); Left(o.g, o.pc) < RunnableLeft(g, r)
  {
  }

  lemma PollFalls(g: Shared, p: PollPc, c: Choice)
    requires !p.Polling? && c != Spurious
    ensures var o := ActPoll(g, p, c); Left(o.g, o.pc) < PollLeft(g, p)
  {
  }

  lemma ResumeLeft(g: Shared, k: Cont)
    ensures Left(g, Resume(k)) == ContLeft(k)
  {
  }

  lemma RefFalls(g: Shared, f: RefPc)
    requires RefsOf(Ref(f)) <= g.word.refs
    ensures var o := ActRef(g, f); Left(o.g, o.pc) < RefLeft(g, f)
  {
    var o := ActRef(g, f);
    if f.Schedule? || f.ScheduleHeld? || f.DropWaker? || f.Destroy? { ResumeLeft(o.g, f.k); }
  }

  lemma WakerFalls(g: Shared, v: WakerPc, c: Choice)
    requires !v.WakerIdle? && c != Spurious
    ensures var o := ActWaker(g, v, c); Left(o.g, o.pc) < WakerLeft(g, v)
  {
  }

  lemma TaskFalls(g: Shared, t: TaskPc, c: Choice)
    requires !t.TaskIdle? && c != Spurious
    ensures var o := ActTask(g, t, c); Left(o.g, o.pc) < TaskLeft(g, t)
  {
    match t
    case CancelLoop(dropping, s) => CancelFalls(g, dropping, s, c);
    case DetachTry | DetachLoop(_) | DetachRead(_) => DetachFalls(g, t, c);
    case _ =>
  }

  lemma CancelFalls(g: Shared, dropping: bool, s: Word, c: Choice)
    requires c != Spurious
    ensures var o := ActTask(g, CancelLoop(dropping, s), c); Left(o.g, o.pc) < TaskLeft(g, CancelLoop(dropping, s))
  {
    var o := ActTask(g, CancelLoop(dropping, s), c);
    if s.completed || s.closed {
      assert o.pc == Canceled(dropping);
    } else if g.word == s {
      var k := CancelNext(s.awaiter, dropping);
      ResumeLeft(o.g, k);
      assert o.pc == Ref(Schedule(k)) || o.pc == Resume(k);
    }
  }

  lemma DetachFalls(g: Shared, t: TaskPc, c: Choice)
    requires (t.DetachTry? || t.DetachLoop? || t.DetachRead?) && c != Spurious
    ensures var o := ActDetach(g, t, c); Left(o.g, o.pc) < TaskLeft(g, t)
  {
  }

  lemma RegisterFalls(g: Shared, e: RegisterPc, c: Choice)
    requires c != Spurious
    ensures var o := ActRegister(g, e, c); Left(o.g, o.pc) < RegisterLeft(g, e)
  {
    match e
    case RegisterLoop(id, path, s) =>
      var o := ActRegister(g, e, c);
      assert o.pc == Task(Reload(id, path)) || o.pc == Register(RegisterLoop(id, path, o.g.word)) || o.pc.e.RegisterStore?;
    case RegisterFinish(id, path, s, took) => FinishFalls(g, id, path, s, took, c);
    case _ =>
  }

  lemma FinishFalls(g: Shared, id: WakerId, path: bool, s: Word, took: Option<WakerId>, c: Choice)
    requires c != Spurious
    ensures var o := ActRegister(g, RegisterFinish(id, path, s, took), c);
            Left(o.g, o.pc) < RegisterLeft(g, RegisterFinish(id, path, s, took))
  {
    var o := ActRegister(g, RegisterFinish(id, path, s, took), c);
    if s.notifying && g.cell.Some? {
      assert o.g == g.(cell := None) && o.pc == Register(RegisterFinish(id, path, s, g.cell));
    } else if g.word != s {
      assert o == Keep(g, Register(RegisterFinish(id, path, g.word, took)));
    } else {
      FinishedPc(g, id, path, s, took, c);
      ReloadLeft(o.g, id, path, took);
    }
  }

  lemma FinishedPc(g: Shared, id: WakerId, path: bool, s: Word, took: Option<WakerId>, c: Choice)
    requires Hit(g, s, c) && !(s.notifying && g.cell.Some?)
    ensures ActRegister(g, RegisterFinish(id, path, s, took), c).pc == Finished(id, path, took)
  {
  }

  function Finished(id: WakerId, path: bool, took: Option<WakerId>): Pc {
    match took
    case None => Task(Reload(id, path))
    case Some(x) => Register(RegisterWake(id, path, x))
  }

  lemma ReloadLeft(g: Shared, id: WakerId, path: bool, took: Option<WakerId>)
    ensures Left(g, Finished(id, path, took)) <= if path then 6 else 17
  {
  }

  lemma TakeFalls(g: Shared, a: TakePc)
    ensures var o := ActTake(g, a); Left(o.g, o.pc) < TakeLeft(a)
  {
  }

  /** Unless its weak compare-exchange fails spuriously, an actor that does not wait comes nearer to the
      end of its call by every step. */
  lemma StepFalls(g: Shared, pc: Pc, c: Choice)
    requires !Waits(pc) && c != Spurious && RefsOf(pc) <= g.word.refs
    ensures var o := Act(g, pc, c); Left(o.g, o.pc) < Left(g, pc)
  {
    match pc
    case Runnable(r) => RunnableFalls(g, r, c);
    case Poll(p) => PollFalls(g, p, c);
    case Ref(f) => RefFalls(g, f);
    case Waker(v) => WakerFalls(g, v, c);
    case Task(t) => TaskFalls(g, t, c);
    case Register(e) => RegisterFalls(g, e, c);
    case Take(a) => TakeFalls(g, a);
  }

  lemma LeftIsBounded(g: Shared, pc: Pc)
    ensures Left(g, pc) <= 26
  {
  }

  // ----- Runs go on -----

  function Final(states: seq<State>): State
    requires |states| > 0
  {
    states[|states| - 1]
  }

  /** The run goes on: nothing that happened is changed. */
  ghost predicate Extends(states: seq<State>, moves: seq<Move>, states': seq<State>, moves': seq<Move>) {
    Run(states', moves') && states <= states' && moves <= moves'
  }

  lemma RunGoesOn(states: seq<State>, moves: seq<Move>, m: Move) returns (states': seq<State>, moves': seq<Move>)
    requires Run(states, moves) && m.actor < |Final(states).actors|
    ensures Extends(states, moves, states', moves') && moves' == moves + [m]
    ensures Final(states') == Step(Final(states), m.actor, m.choice)
  {
    states', moves' := states + [Step(Final(states), m.actor, m.choice)], moves + [m];
    forall n | 0 <= n < |moves'|
      ensures moves'[n].actor < |states'[n].actors|
      ensures states'[n + 1] == Step(states'[n], moves'[n].actor, moves'[n].choice)
    {
      if n < |moves| { assert moves'[n] == moves[n]; }
    }
  }

  /** Every actor but `i` is where it was, and the new ones wait. */
  predicate OnlyMoved(s: State, s': State, i: nat) {
    && |s.actors| <= |s'.actors|
    && (forall j :: 0 <= j < |s.actors| && j != i ==> s'.actors[j] == s.actors[j])
    && (forall j :: |s.actors| <= j < |s'.actors| ==> Waits(s'.actors[j]))
  }

  /** The actor of a run that steps alone comes nearer to the end of its call. */
  lemma SoloStep(states: seq<State>, moves: seq<Move>, i: nat)
    requires Run(states, moves) && i < |Final(states).actors| && !Waits(Final(states).actors[i])
    ensures var (s, s') := (Final(states), Step(Final(states), i, Go));
            && OnlyMoved(s, s', i) && Left(s'.g, s'.actors[i]) < Left(s.g, s.actors[i])
  {
    var s := Final(states);
    var x := RunKeepsInv(states, moves, |states| - 1);
    ActorIsReady(s, x, i);
    StepFalls(s.g, s.actors[i], Go);
    ActSpawns(s.g, s.actors[i], Go);
  }

  /** From every reachable state, a call that steps alone is over after at most 26 steps. */
  lemma CallFinishesAlone(states: seq<State>, moves: seq<Move>, i: nat)
    returns (states': seq<State>, moves': seq<Move>)
    requires Run(states, moves) && i < |Final(states).actors|
    ensures Extends(states, moves, states', moves') && |moves'| <= |moves| + 26
    ensures forall n :: |moves| <= n < |moves'| ==> moves'[n] == Move(i, Go)
    ensures OnlyMoved(Final(states), Final(states'), i) && Waits(Final(states').actors[i])
  {
    LeftIsBounded(Final(states).g, Final(states).actors[i]);
    states', moves' := RunAlone(states, moves, i);
  }

  lemma {:induction false} RunAlone(states: seq<State>, moves: seq<Move>, i: nat)
    returns (states': seq<State>, moves': seq<Move>)
    requires Run(states, moves) && i < |Final(states).actors|
    ensures Extends(states, moves, states', moves')
    ensures |moves'| <= |moves| + Left(Final(states).g, Final(states).actors[i])
    ensures forall n :: |moves| <= n < |moves'| ==> moves'[n] == Move(i, Go)
    ensures OnlyMoved(Final(states), Final(states'), i) && Waits(Final(states').actors[i])
    decreases Left(Final(states).g, Final(states).actors[i])
  {
    if Waits(Final(states).actors[i]) {
      states', moves' := states, moves;
    } else {
      SoloStep(states, moves, i);
      var states1, moves1 := RunGoesOn(states, moves, Move(i, Go));
      states', moves' := RunAlone(states1, moves1, i);
    }
  }

  /** From every reachable state the run can go on until every call is over. */
  lemma EveryCallCanFinish(states: seq<State>, moves: seq<Move>) returns (states': seq<State>, moves': seq<Move>)
    requires Run(states, moves)
    ensures Extends(states, moves, states', moves')
    ensures forall j :: 0 <= j < |Final(states').actors| ==> Waits(Final(states').actors[j])
  {
    states', moves' := states, moves;
    var n := |Final(states).actors|;
    for k := 0 to n
      invariant Extends(states, moves, states', moves')
      invariant n <= |Final(states').actors|
      invariant forall j :: (0 <= j < k || n <= j < |Final(states').actors|) ==> Waits(Final(states').actors[j])
    {
      states', moves' := CallFinishesAlone(states', moves', k);
    }
  }

  /** Whenever a task is completed and open and its handle is free, `poll_task` gets the output within 27
      steps. */
  lemma OutputCanBeHad(states: seq<State>, moves: seq<Move>, id: WakerId)
    returns (states': seq<State>, moves': seq<Move>, k: nat)
    requires Run(states, moves) && |Final(states).actors| > 1 && Final(states).actors[1] == Task(TaskIdle)
    requires Final(states).g.word.completed && !Final(states).g.word.closed
    ensures Extends(states, moves, states', moves') && |moves'| <= |moves| + 27
    ensures |moves| < k && HandsOver(states', moves', k)
  {
    var m := |moves|;
    var states1, moves1 := RunGoesOn(states, moves, Move(1, CallPoll(id)));
    states', moves' := CallFinishesAlone(states1, moves1, 1);
    assert moves'[m] == moves1[m] == Move(1, CallPoll(id)) && states'[m] == states1[m] == states[m];
    var n := |states'| - 1;
    assert Final(states1).actors[1] == Task(PollLoad(id));
    k := PollReachesOutput(states', moves', id, m, n);
  }
}
