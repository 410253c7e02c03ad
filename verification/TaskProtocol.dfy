/**
 The lock-free task protocol of the async-task crate: one atomic word holds eight flags and a
 reference count, and `Runnable`, `Task`, `Waker`s and the running poll race on it.

 A state is the shared memory of one task plus a sequence of actors.  An actor is a handle or a call
 in progress; its program counter says which atomic operation comes next and carries the snapshots
 the Rust code keeps in local variables.  One step is one atomic operation (or one access to the
 future, the output or the awaiter cell) of one actor, so runs are all sequentially consistent
 interleavings.
 */
module TaskProtocol {
  import opened Basics

  /** Identity of a waker stored by whoever polls the `Task` (`will_wake` is equality). */
  type WakerId = nat

  /** The unpacked state word.  `refs` is an `int`, so that an underflow would be visible. */
  datatype Word = Word(
    scheduled: bool, running: bool, completed: bool, closed: bool,
    task: bool, awaiter: bool, registering: bool, notifying: bool,
    refs: int)

  datatype FutureSlot = Alive | Dropped

  datatype OutputSlot = NoOutput | Stored | Consumed

  /** The heap allocation of one task, followed by history variables that no step reads.
      `captures` says whether the schedule function has captured variables (its size is not zero).
      `owed`: a wake took effect and the future has not been polled since.
      `reg`: the waker of the last finished registration of the current or last `poll_task` call.
      `woken`: that waker has been woken since.
      `parked`: `poll_task` returned `Pending` and the `Task` has not been used since. */
  datatype Shared = Shared(
    word: Word, future: FutureSlot, output: OutputSlot, cell: Option<WakerId>,
    destroyed: bool, captures: bool,
    owed: bool, reg: Option<WakerId>, woken: bool, parked: bool)

  /** Where a call to `schedule`, `drop_waker` or `destroy` returns to. */
  datatype Cont = End | CancelNext(aw: bool, dropping: bool)

  /** Where a call to `wake_by_ref` returns to. */
  datatype WakeCont = KeepWaker | ConsumeWaker | BackToPoll(seen: Word)

  /** Where a call to `Header::take` or `Header::notify` returns to. */
  datatype TakeCont =
    | ThenRelease                   // run: drop the reference, then wake the awaiter
    | ThenWakeRelease               // Runnable::drop: wake the awaiter, then drop the reference
    | ThenCanceled(dropping: bool)  // set_canceled
    | ThenPollNone                  // poll_task, about to return Ready(None)
    | ThenPollOutput                // poll_task, about to take the output

  /** A Runnable, the start of `Runnable::run`, and `Runnable::drop`. */
  datatype RunnablePc =
    | RunnableIdle
    | RunLoad
    | RunLoop(s: Word)
    | RunClosedDrop
    | RunClosedUnschedule
    | DropLoad
    | DropLoop(s: Word)
    | DropFuture
    | DropUnschedule

  /** The poll inside `Runnable::run`. */
  datatype PollPc =
    | Polling(s: Word)
    | ReadyDrop(s: Word)
    | ReadyWrite(s: Word)
    | ReadyLoop(s: Word)
    | ReadyDropOutput(aw: bool)
    | PendingLoop(s: Word, dropped: bool)

  /** `drop_ref` (and the awaiter that `run` wakes afterwards), `schedule`, `drop_waker`, `destroy`. */
  datatype RefPc =
    | Release(w: Option<WakerId>)
    | ReleaseDestroy(w: Option<WakerId>)
    | WakeEnd(id: WakerId)
    | Schedule(k: Cont)
    | ScheduleHeld(k: Cont)
    | DropWaker(k: Cont)
    | LastWakerStore(k: Cont)
    | Destroy(k: Cont)

  /** A Waker, `wake` and `wake_by_ref`. */
  datatype WakerPc =
    | WakerIdle
    | WakeLoad
    | WakeLoop(s: Word)
    | WakeRefLoad(wk: WakeCont)
    | WakeRefLoop(wk: WakeCont, s: Word)
    | WakeRefSchedule(wk: WakeCont)

  /** The Task, `poll_task`, `set_canceled` and `set_detached`. */
  datatype TaskPc =
    | TaskIdle
    | PollLoad(id: WakerId)
    | PollLoop(id: WakerId, s: Word)
    | Reload(id: WakerId, closedPath: bool)
    | TakeOutput
    | CancelLoad(dropping: bool)
    | CancelLoop(dropping: bool, s: Word)
    | DetachTry
    | DetachLoop(s: Word)
    | DetachRead(s: Word)

  /** `Header::register`, called by `poll_task`; `closedPath` says from which of its two branches. */
  datatype RegisterPc =
    | RegisterLoad(id: WakerId, closedPath: bool)
    | RegisterLoop(id: WakerId, closedPath: bool, s: Word)
    | RegisterStore(id: WakerId, closedPath: bool, s: Word)
    | RegisterFinish(id: WakerId, closedPath: bool, s: Word, took: Option<WakerId>)
    | RegisterWake(id: WakerId, closedPath: bool, taken: WakerId)

  /** `Header::take` and `Header::notify`. */
  datatype TakePc =
    | TakeMark(cur: Option<WakerId>, tk: TakeCont)
    | TakeCell(cur: Option<WakerId>, tk: TakeCont)
    | TakeClear(cur: Option<WakerId>, w: Option<WakerId>, tk: TakeCont)
    | NotifyWake(id: WakerId, tk: TakeCont)

  datatype Pc =
    | Done
    | Runnable(r: RunnablePc)
    | Poll(p: PollPc)
    | Ref(f: RefPc)
    | Waker(v: WakerPc)
    | Task(t: TaskPc)
    | Register(e: RegisterPc)
    | Take(a: TakePc)

  /** What a step may choose: which call an idle handle makes, what the future's poll does, and
      whether a weak compare-exchange fails although the word matches. */
  datatype Choice =
    | Go
    | Spurious
    | CallRun | CallDropRunnable | CallSchedule | CallCloneWaker
    | CallWake | CallWakeByRef | CallDropWaker
    | CallPoll(id: WakerId) | CallCancel | CallDropTask | CallDetach
    | FutureReady | FuturePending

  datatype Out = Out(g: Shared, pc: Pc, spawn: Option<Pc>)

  predicate Hit(g: Shared, s: Word, c: Choice) {
    c != Spurious && g.word == s
  }

  function Keep(g: Shared, pc: Pc): Out {
    Out(g, pc, None)
  }

  function AddRef(g: Shared): Shared {
    g.(word := g.word.(refs := g.word.refs + 1))
  }

  function SubRef(g: Shared): Shared {
    g.(word := g.word.(refs := g.word.refs - 1))
  }

  /** `w.wake()` on an awaiter: outside the task's memory, so only history changes. */
  function Wake(g: Shared, w: WakerId): Shared {
    g.(woken := g.woken || g.reg == Some(w))
  }

  function Canceled(dropping: bool): Pc {
    if dropping then Task(DetachTry) else Task(TaskIdle)
  }

  function Resume(k: Cont): Pc {
    match k
    case End => Done
    case CancelNext(aw, dropping) =>
      if aw then Take(TakeMark(None, ThenCanceled(dropping))) else Canceled(dropping)
  }

  function AfterRun(aw: bool): Pc {
    if aw then Take(TakeMark(None, ThenRelease)) else Ref(Release(None))
  }

  function AfterRelease(w: Option<WakerId>): Pc {
    match w
    case None => Done
    case Some(id) => Ref(WakeEnd(id))
  }

  function AfterWakeRef(wk: WakeCont): Pc {
    match wk
    case KeepWaker => Waker(WakerIdle)
    case ConsumeWaker => Ref(DropWaker(End))
    case BackToPoll(s) => Poll(Polling(s))
  }

  function AfterNotify(tk: TakeCont): Pc {
    match tk
    case ThenRelease => Ref(Release(None))
    case ThenWakeRelease => Ref(Release(None))
    case ThenCanceled(dropping) => Canceled(dropping)
    case ThenPollNone => Task(TaskIdle)
    case ThenPollOutput => Task(TakeOutput)
  }

  function AfterTake(r: Option<WakerId>, tk: TakeCont): Pc {
    if tk == ThenRelease then Ref(Release(r))
    else match r
      case None => AfterNotify(tk)
      case Some(id) => Take(NotifyWake(id, tk))
  }

  // ----- Runnable -----

  function ActRunnable(g: Shared, r: RunnablePc, c: Choice): Out {
    match r
    case RunnableIdle =>
      (match c
       case CallRun => Keep(g, Runnable(RunLoad))
       case CallDropRunnable => Keep(g, Runnable(DropLoad))
       case CallSchedule => Keep(g, Ref(Schedule(End)))
       case CallCloneWaker => Out(AddRef(g), Runnable(r), Some(Waker(WakerIdle)))
       case _ => Keep(g, Runnable(r)))
    case RunLoad => Keep(g, Runnable(RunLoop(g.word)))
    case RunLoop(s) =>
      if s.closed then Keep(g, Runnable(RunClosedDrop))
      else if Hit(g, s, c) then
        var new_ := s.(scheduled := false, running := true);
        Keep(g.(word := new_, owed := false), Poll(Polling(new_)))
      else Keep(g, Runnable(RunLoop(g.word)))
    case RunClosedDrop => Keep(g.(future := Dropped), Runnable(RunClosedUnschedule))
    case RunClosedUnschedule =>
      Keep(g.(word := g.word.(scheduled := false)), AfterRun(g.word.awaiter))
    case DropLoad => Keep(g, Runnable(DropLoop(g.word)))
    case DropLoop(s) =>
      if s.completed || s.closed then Keep(g, Runnable(DropFuture))
      else if Hit(g, s, c) then Keep(g.(word := s.(closed := true)), Runnable(DropFuture))
      else Keep(g, Runnable(DropLoop(g.word)))
    case DropFuture => Keep(g.(future := Dropped), Runnable(DropUnschedule))
    case DropUnschedule =>
      Keep(g.(word := g.word.(scheduled := false)),
           if g.word.awaiter then Take(TakeMark(None, ThenWakeRelease)) else Ref(Release(None)))
  }

  // ----- The poll inside Runnable::run -----

  function ActPoll(g: Shared, p: PollPc, c: Choice): Out {
    match p
    case Polling(s) =>
      (match c
       case FutureReady => Keep(g, Poll(ReadyDrop(s)))
       case FuturePending => Keep(g, Poll(PendingLoop(s, false)))
       case CallWakeByRef => Keep(g, Waker(WakeRefLoad(BackToPoll(s))))
       case CallCloneWaker => Out(AddRef(g), Poll(p), Some(Waker(WakerIdle)))
       case _ => Keep(g, Poll(p)))
    case ReadyDrop(s) => Keep(g.(future := Dropped), Poll(ReadyWrite(s)))
    case ReadyWrite(s) => Keep(g.(output := Stored), Poll(ReadyLoop(s)))
    case ReadyLoop(s) =>
      if Hit(g, s, c) then
        var new_ := s.(running := false, scheduled := false, completed := true, closed := s.closed || !s.task);
        Keep(g.(word := new_), if !s.task || s.closed then Poll(ReadyDropOutput(s.awaiter)) else AfterRun(s.awaiter))
      else Keep(g, Poll(ReadyLoop(g.word)))
    case ReadyDropOutput(aw) => Keep(g.(output := Consumed), AfterRun(aw))
    case PendingLoop(s, dropped) =>
      if s.closed && !dropped then Keep(g.(future := Dropped), Poll(PendingLoop(s, true)))
      else if Hit(g, s, c) then
        var new_ := if s.closed then s.(running := false, scheduled := false) else s.(running := false);
        Keep(g.(word := new_),
             if s.closed then AfterRun(s.awaiter)
             else if s.scheduled then Ref(Schedule(End))
             else Ref(Release(None)))
      else Keep(g, Poll(PendingLoop(g.word, dropped)))
  }

  // ----- References: schedule, drop_ref, drop_waker, destroy -----

  function ActRef(g: Shared, f: RefPc): Out {
    match f
    case Release(w) =>
      var g' := SubRef(g);
      Keep(g', if g'.word.refs == 0 && !g'.word.task then Ref(ReleaseDestroy(w)) else AfterRelease(w))
    case ReleaseDestroy(w) => Keep(g.(destroyed := true), AfterRelease(w))
    case WakeEnd(id) => Keep(Wake(g, id), Done)
    case Schedule(k) =>
      if g.captures then Keep(AddRef(g), Ref(ScheduleHeld(k)))
      else Out(g, Resume(k), Some(Runnable(RunnableIdle)))
    case ScheduleHeld(k) => Out(g, Ref(DropWaker(k)), Some(Runnable(RunnableIdle)))
    case DropWaker(k) =>
      var g' := SubRef(g);
      Keep(g', if g'.word.refs == 0 && !g'.word.task then
                 if g'.word.completed || g'.word.closed then Ref(Destroy(k)) else Ref(LastWakerStore(k))
               else Resume(k))
    case LastWakerStore(k) => Keep(g.(word := Rescheduled()), Ref(Schedule(k)))
    case Destroy(k) => Keep(g.(destroyed := true), Resume(k))
  }

  /** `SCHEDULED | CLOSED | REFERENCE` */
  function Rescheduled(): Word {
    Word(true, false, false, true, false, false, false, false, 1)
  }

  // ----- Wakers -----

  function ActWaker(g: Shared, v: WakerPc, c: Choice): Out {
    match v
    case WakerIdle =>
      (match c
       case CallWake => Keep(g, if g.captures then Waker(WakeRefLoad(ConsumeWaker)) else Waker(WakeLoad))
       case CallWakeByRef => Keep(g, Waker(WakeRefLoad(KeepWaker)))
       case CallDropWaker => Keep(g, Ref(DropWaker(End)))
       case CallCloneWaker => Out(AddRef(g), Waker(v), Some(Waker(WakerIdle)))
       case _ => Keep(g, Waker(v)))
    case WakeLoad => Keep(g, Waker(WakeLoop(g.word)))
    case WakeLoop(s) =>
      if s.completed || s.closed then Keep(g, Ref(DropWaker(End)))
      else if !Hit(g, s, c) then Keep(g, Waker(WakeLoop(g.word)))
      else if s.scheduled then Keep(g.(owed := true), Ref(DropWaker(End)))
      else Keep(g.(word := s.(scheduled := true), owed := true),
                if s.running then Ref(DropWaker(End)) else Ref(Schedule(End)))
    case WakeRefLoad(wk) => Keep(g, Waker(WakeRefLoop(wk, g.word)))
    case WakeRefLoop(wk, s) =>
      if s.completed || s.closed then Keep(g, AfterWakeRef(wk))
      else if !Hit(g, s, c) then Keep(g, Waker(WakeRefLoop(wk, g.word)))
      else if s.scheduled then Keep(g.(owed := true), AfterWakeRef(wk))
      else if s.running then Keep(g.(word := s.(scheduled := true), owed := true), AfterWakeRef(wk))
      else Keep(g.(word := s.(scheduled := true, refs := s.refs + 1), owed := true), Waker(WakeRefSchedule(wk)))
    case WakeRefSchedule(wk) => Out(g, AfterWakeRef(wk), Some(Runnable(RunnableIdle)))
  }

  // ----- Task -----

  /** A call on the `Task` starts, or a poll is about to answer or to register anew: the last
      registration no longer counts. */
  function Forget(g: Shared): Shared {
    g.(reg := None, parked := false)
  }

  function ActTask(g: Shared, t: TaskPc, c: Choice): Out {
    match t
    case TaskIdle =>
      (match c
       case CallPoll(id) => Keep(Forget(g), Task(PollLoad(id)))
       case CallCancel => Keep(Forget(g), Task(CancelLoad(false)))
       case CallDropTask => Keep(Forget(g), Task(CancelLoad(true)))
       case CallDetach => Keep(Forget(g), Task(DetachTry))
       case _ => Keep(g, Task(t)))
    case PollLoad(id) => Keep(g, Task(PollLoop(id, g.word)))
    case PollLoop(id, s) =>
      if s.closed then
        if s.scheduled || s.running then Keep(g, Register(RegisterLoad(id, true)))
        else Keep(Forget(g), Take(TakeMark(Some(id), ThenPollNone)))
      else if !s.completed then Keep(g, Register(RegisterLoad(id, false)))
      else if g.word == s then
        Keep(Forget(g).(word := s.(closed := true)),
             if s.awaiter then Take(TakeMark(Some(id), ThenPollOutput)) else Task(TakeOutput))
      else Keep(g, Task(PollLoop(id, g.word)))
    case Reload(id, closedPath) =>
      var s := g.word;
      if closedPath then
        if s.scheduled || s.running then Keep(g.(parked := true), Task(TaskIdle))
        else Keep(Forget(g), Take(TakeMark(Some(id), ThenPollNone)))
      else if !s.closed && !s.completed then Keep(g.(parked := true), Task(TaskIdle))
      else Keep(g, Task(PollLoop(id, s)))
    case TakeOutput => Keep(g.(output := Consumed), Task(TaskIdle))
    case CancelLoad(dropping) => Keep(g, Task(CancelLoop(dropping, g.word)))
    case CancelLoop(dropping, s) =>
      if s.completed || s.closed then Keep(g, Canceled(dropping))
      else if !Hit(g, s, c) then Keep(g, Task(CancelLoop(dropping, g.word)))
      else if !s.scheduled && !s.running then
        Keep(g.(word := s.(scheduled := true, closed := true, refs := s.refs + 1)),
             Ref(Schedule(CancelNext(s.awaiter, dropping))))
      else Keep(g.(word := s.(closed := true)), Resume(CancelNext(s.awaiter, dropping)))
    case _ => ActDetach(g, t, c)
  }

  function ActDetach(g: Shared, t: TaskPc, c: Choice): Out {
    match t
    case DetachTry =>
      var fresh_ := Word(true, false, false, false, true, false, false, false, 1);
      if Hit(g, fresh_, c) then Keep(g.(word := fresh_.(task := false)), Done)
      else Keep(g, Task(DetachLoop(g.word)))
    case DetachLoop(s) =>
      if !Hit(g, s, c) then Keep(g, Task(DetachLoop(g.word)))
      else if s.completed && !s.closed then
        Keep(g.(word := s.(closed := true)), Task(DetachRead(s.(closed := true))))
      else if s.refs == 0 && !s.closed then Keep(g.(word := Rescheduled()), Ref(Schedule(End)))
      else Keep(g.(word := s.(task := false)), if s.refs == 0 then Ref(Destroy(End)) else Done)
    case DetachRead(s) => Keep(g.(output := Consumed), Task(DetachLoop(s)))
    case _ => Keep(g, Task(t))
  }

  // ----- The awaiter cell: register, take, notify -----

  function ActRegister(g: Shared, e: RegisterPc, c: Choice): Out {
    match e
    case RegisterLoad(id, path) => Keep(Forget(g), Register(RegisterLoop(id, path, g.word)))
    case RegisterLoop(id, path, s) =>
      if s.notifying then Keep(g.(reg := Some(id), woken := true), Task(Reload(id, path)))
      else if Hit(g, s, c) then
        var new_ := s.(registering := true);
        Keep(g.(word := new_), Register(RegisterStore(id, path, new_)))
      else Keep(g, Register(RegisterLoop(id, path, g.word)))
    case RegisterStore(id, path, s) => Keep(g.(cell := Some(id)), Register(RegisterFinish(id, path, s, None)))
    case RegisterFinish(id, path, s, took) =>
      if s.notifying && g.cell.Some? then
        Keep(g.(cell := None), Register(RegisterFinish(id, path, s, g.cell)))
      else if !Hit(g, s, c) then Keep(g, Register(RegisterFinish(id, path, g.word, took)))
      else
        var new_ := s.(notifying := false, registering := false, awaiter := took.None?);
        (match took
         case None => Keep(g.(word := new_, reg := Some(id), woken := false), Task(Reload(id, path)))
         case Some(x) => Keep(g.(word := new_), Register(RegisterWake(id, path, x))))
    case RegisterWake(id, path, x) => Keep(g.(reg := Some(id), woken := x == id), Task(Reload(id, path)))
  }

  function ActTake(g: Shared, a: TakePc): Out {
    match a
    case TakeMark(cur, tk) =>
      Keep(g.(word := g.word.(notifying := true)),
           if g.word.notifying || g.word.registering then AfterTake(None, tk) else Take(TakeCell(cur, tk)))
    case TakeCell(cur, tk) => Keep(g.(cell := None), Take(TakeClear(cur, g.cell, tk)))
    case TakeClear(cur, w, tk) =>
      Keep(g.(word := g.word.(notifying := false, awaiter := false)),
           AfterTake(if cur.Some? && w == cur then None else w, tk))
    case NotifyWake(id, tk) => Keep(Wake(g, id), AfterNotify(tk))
  }

  // ----- Steps and runs -----

  /** One step of an actor at `pc`. */
  function Act(g: Shared, pc: Pc, c: Choice): Out {
    match pc
    case Done => Keep(g, pc)
    case Runnable(r) => ActRunnable(g, r, c)
    case Poll(p) => ActPoll(g, p, c)
    case Ref(f) => ActRef(g, f)
    case Waker(v) => ActWaker(g, v, c)
    case Task(t) => ActTask(g, t, c)
    case Register(e) => ActRegister(g, e, c)
    case Take(a) => ActTake(g, a)
  }

  datatype State = State(g: Shared, actors: seq<Pc>)

  /** `allocate`: the word is `SCHEDULED | TASK | REFERENCE`; a Runnable and a Task exist. */
  function Spawned(captures: bool): State {
    State(Shared(Word(true, false, false, false, true, false, false, false, 1),
                 Alive, NoOutput, None, false, captures, false, None, false, false),
          [Runnable(RunnableIdle), Task(TaskIdle)])
  }

  function Step(s: State, i: nat, c: Choice): State
    requires i < |s.actors|
  {
    var o := Act(s.g, s.actors[i], c);
    State(o.g, s.actors[i := o.pc] + (match o.spawn case None => [] case Some(p) => [p]))
  }

  /** A run: the actor to move and its choice, step by step, from a freshly spawned task. */
  datatype Move = Move(actor: nat, choice: Choice)

  ghost predicate Run(states: seq<State>, moves: seq<Move>) {
    && |states| == |moves| + 1
    && (exists captures :: states[0] == Spawned(captures))
    && forall n {:trigger moves[n]} :: 0 <= n < |moves| ==>
         && moves[n].actor < |states[n].actors|
         && states[n + 1] == Step(states[n], moves[n].actor, moves[n].choice)
  }

  // ----- What a step must not do -----

  /** The pc stands for a handle or call that may touch the task's memory. */
  predicate Touches(pc: Pc) {
    !pc.Done? && !(pc.Ref? && pc.f.WakeEnd?)
  }

  predicate PollsFuture(pc: Pc) {
    pc.Poll? && pc.p.Polling?
  }

  predicate DropsFuture(pc: Pc) {
    || (pc.Runnable? && (pc.r.RunClosedDrop? || pc.r.DropFuture?))
    || (pc.Poll? && (pc.p.ReadyDrop? || (pc.p.PendingLoop? && pc.p.s.closed && !pc.p.dropped)))
  }

  predicate WritesOutput(pc: Pc) {
    pc.Poll? && pc.p.ReadyWrite?
  }

  predicate ConsumesOutput(pc: Pc) {
    (pc.Poll? && pc.p.ReadyDropOutput?) || (pc.Task? && (pc.t.TakeOutput? || pc.t.DetachRead?))
  }

  predicate DropsReference(pc: Pc) {
    pc.Ref? && (pc.f.Release? || pc.f.DropWaker?)
  }

  predicate ActsAsLast(pc: Pc) {
    pc.Ref? && (pc.f.ReleaseDestroy? || pc.f.Destroy? || pc.f.LastWakerStore?)
  }

  /** The pc reads or writes the awaiter cell without synchronisation. */
  predicate AccessesCell(pc: Pc) {
    (pc.Register? && (pc.e.RegisterStore? || pc.e.RegisterFinish?)) || (pc.Take? && pc.a.TakeCell?)
  }

  /** Memory safety of the next step of an actor at `pc`, and the assertion in `register`. */
  predicate Sound(g: Shared, pc: Pc) {
    && (Touches(pc) ==> !g.destroyed)
    && (PollsFuture(pc) ==> g.future == Alive && g.word.running)
    && (DropsFuture(pc) ==> g.future == Alive)
    && (WritesOutput(pc) ==> g.future == Dropped && g.output == NoOutput)
    && (ConsumesOutput(pc) ==> g.output == Stored)
    && (DropsReference(pc) ==> g.word.refs >= 1)
    && (ActsAsLast(pc) ==> g.word.refs == 0 && !g.word.task)
    && (pc.Register? && pc.e.RegisterLoop? ==> !pc.e.s.registering)
  }
}
