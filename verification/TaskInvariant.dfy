/**
 The inductive invariant of the task protocol.

 Every resource that only one actor may hold at a time (the right to run the task, the awaiter cell,
 the `Task` handle, the duty to free the memory, the stored output) is described by a label: the
 invariant says which label the holder has, and what that implies for the shared word.  References
 are a weighted sum over all actors.  With these, a step needs only the shared memory and the moving
 actor (lemma `TaskSteps.AnyStep`); the other actors enter through sums alone.
 */
module TaskInvariant {
  import opened Basics
  import opened TaskProtocol

  datatype Family = FToken | FLock | FTask | FLast | FOutput

  datatype Label =
    | Nobody
      // FToken: the right to run the task, by state of the future
    | Queued | QueuedDropped | RunAlive | RunReadyDropped | RunStored | RunPendingDropped
      // FLock: access to the awaiter cell
    | RegFresh | RegStored(id: WakerId) | RegTaken | TakePre(byTask: bool) | TakePost(byTask: bool)
      // FTask: what the Task handle is doing
    | TaskFree | TaskPolling | TaskRegistered | TaskBusy | TaskRegistering | TaskTaking
      // FLast: the duty of whoever dropped the last reference
    | LastStore | LastFree
      // FOutput: the duty to consume the output of a closed task
    | Consumer

  datatype Aux = Aux(token: Label, lock: Label, task: Label, last: Label, output: Label)

  function Get(x: Aux, f: Family): Label {
    match f
    case FToken => x.token
    case FLock => x.lock
    case FTask => x.task
    case FLast => x.last
    case FOutput => x.output
  }

  predicate OfTask(tk: TakeCont) {
    tk.ThenCanceled? || tk.ThenPollNone? || tk.ThenPollOutput?
  }

  function Token(pc: Pc): Label {
    match pc
    case Runnable(r) => if r.RunClosedUnschedule? || r.DropUnschedule? then QueuedDropped else Queued
    case Poll(p) =>
      (match p
       case Polling(_) | ReadyDrop(_) => RunAlive
       case ReadyWrite(_) => RunReadyDropped
       case ReadyLoop(_) => RunStored
       case ReadyDropOutput(_) => Nobody
       case PendingLoop(_, dropped) => if dropped then RunPendingDropped else RunAlive)
    case Ref(f) => if f.Schedule? || f.ScheduleHeld? then Queued else Nobody
    case Waker(v) =>
      (match v
       case WakeRefLoad(wk) => if wk.BackToPoll? then RunAlive else Nobody
       case WakeRefLoop(wk, _) => if wk.BackToPoll? then RunAlive else Nobody
       case WakeRefSchedule(_) => Queued
       case _ => Nobody)
    case _ => Nobody
  }

  function Lock(pc: Pc): Label {
    match pc
    case Register(e) =>
      (match e
       case RegisterStore(_, _, _) => RegFresh
       case RegisterFinish(id, _, _, took) => if took.None? then RegStored(id) else RegTaken
       case _ => Nobody)
    case Take(a) =>
      (match a
       case TakeCell(_, tk) => TakePre(OfTask(tk))
       case TakeClear(_, _, tk) => TakePost(OfTask(tk))
       case _ => Nobody)
    case _ => Nobody
  }

  function TaskRole(pc: Pc): Label {
    match pc
    case Task(t) =>
      (match t
       case TaskIdle => TaskFree
       case PollLoop(_, _) => TaskPolling
       case Reload(_, _) => TaskRegistered
       case _ => TaskBusy)
    case Register(e) =>
      (match e
       case RegisterLoad(_, _) => TaskPolling
       case RegisterStore(_, _, _) | RegisterFinish(_, _, _, _) => TaskRegistering
       case _ => TaskBusy)
    case Ref(f) =>
      if (f.Schedule? || f.ScheduleHeld? || f.DropWaker? || f.LastWakerStore? || f.Destroy?) && f.k.CancelNext?
      then TaskBusy else Nobody
    case Take(a) =>
      if !OfTask(a.tk) then Nobody else if a.TakeCell? || a.TakeClear? then TaskTaking else TaskBusy
    case _ => Nobody
  }

  function LastRole(pc: Pc): Label {
    match pc
    case Ref(f) =>
      if f.LastWakerStore? then LastStore else if f.ReleaseDestroy? || f.Destroy? then LastFree else Nobody
    case _ => Nobody
  }

  function OutputRole(pc: Pc): Label {
    match pc
    case Poll(p) => if p.ReadyDropOutput? then Consumer else Nobody
    case Task(t) => if t.TakeOutput? || t.DetachRead? then Consumer else Nobody
    case Take(a) => if a.tk.ThenPollOutput? then Consumer else Nobody
    case _ => Nobody
  }

  function LabelOf(pc: Pc, f: Family): Label {
    match f
    case FToken => Token(pc)
    case FLock => Lock(pc)
    case FTask => TaskRole(pc)
    case FLast => LastRole(pc)
    case FOutput => OutputRole(pc)
  }

  /** References that an actor at `pc` owns. */
  function RefsOf(pc: Pc): nat {
    match pc
    case Runnable(_) | Poll(_) => 1
    case Waker(v) => if v.WakeRefSchedule? then 2 else 1
    case Ref(f) => if f.ScheduleHeld? then 2 else if f.Release? || f.Schedule? || f.DropWaker? then 1 else 0
    case Take(a) => if OfTask(a.tk) then 0 else 1
    case _ => 0
  }

  /** The actor has taken waker `id` out of the cell and will wake it. */
  predicate Carries(pc: Pc, id: WakerId) {
    match pc
    case Take(a) => (a.TakeClear? && a.w == Some(id) && a.cur != a.w) || (a.NotifyWake? && a.id == id)
    case Ref(f) => ((f.Release? || f.ReleaseDestroy?) && f.w == Some(id)) || (f.WakeEnd? && f.id == id)
    case _ => false
  }

  /** The actor, not the `Task` itself, is on its way to empty the awaiter cell. */
  predicate WillTake(pc: Pc) {
    match pc
    case Poll(p) => p.ReadyDropOutput? && p.aw
    case Take(a) => (a.TakeMark? || a.TakeCell?) && !OfTask(a.tk)
    case _ => false
  }

  datatype Kind = KRefs | KHolds(f: Family, l: Label) | KCarries(id: WakerId) | KWillTake

  function Weight(pc: Pc, k: Kind): nat {
    match k
    case KRefs => RefsOf(pc)
    case KHolds(f, l) => if LabelOf(pc, f) == l then 1 else 0
    case KCarries(id) => if Carries(pc, id) then 1 else 0
    case KWillTake => if WillTake(pc) then 1 else 0
  }

  /** Sum of the weights of all actors. */
  function Sum(actors: seq<Pc>, k: Kind): nat {
    if actors == [] then 0 else Weight(actors[0], k) + Sum(actors[1..], k)
  }

  // ----- Shared-memory part of the invariant -----

  predicate Running(t: Label) {
    t.RunAlive? || t.RunReadyDropped? || t.RunStored? || t.RunPendingDropped?
  }

  predicate Waiting(t: Label) {
    t.Queued? || t.QueuedDropped?
  }

  predicate TokenOk(g: Shared, t: Label) {
    && (t.Nobody? || Running(t) || Waiting(t))
    && (g.word.running <==> Running(t))
    && (g.word.scheduled && !g.word.running <==> Waiting(t))
    && (!t.RunStored? && !g.word.completed ==> g.output == NoOutput)
    && (t.Queued? || t.RunAlive? ==> g.future == Alive)
    && (t.QueuedDropped? || t.RunPendingDropped? ==> g.future == Dropped && g.word.closed)
    && (t.RunReadyDropped? ==> g.future == Dropped)
    && (t.RunStored? ==> g.future == Dropped && g.output == Stored)
    && (g.word.completed ==> t.Nobody? && g.future == Dropped)
    && (t.Nobody? && !g.word.completed ==> (g.future == Dropped <==> g.word.closed))
  }

  predicate OutputOk(g: Shared, o: Label) {
    && (o.Nobody? || o.Consumer?)
    && (o.Consumer? ==> g.word.completed && g.word.closed && g.output == Stored)
    && (g.word.completed && g.word.closed && o.Nobody? ==> g.output == Consumed)
    && (g.word.completed && !g.word.closed ==> g.output == Stored)
    && (g.word.completed && !g.word.task ==> g.word.closed)
  }

  predicate LastOk(g: Shared, l: Label) {
    && (l.Nobody? || l.LastStore? || l.LastFree?)
    && (!l.Nobody? <==> g.word.refs == 0 && !g.word.task && !g.destroyed)
    && (l.LastStore? ==> !g.word.closed && !g.word.completed)
    && (g.destroyed ==> g.word.refs == 0 && !g.word.task)
  }

  predicate Registering(l: Label) {
    l.RegFresh? || l.RegTaken? || l.RegStored?
  }

  predicate LockOk(g: Shared, l: Label) {
    && (l.Nobody? || Registering(l) || l.TakePre? || l.TakePost?)
    && (g.word.registering <==> Registering(l))
    && (g.word.notifying && !g.word.registering <==> l.TakePre? || l.TakePost?)
    && (l.RegStored? ==> g.cell == Some(l.id))
    && (l.RegTaken? ==> g.cell == None)
    && (l.TakePost? ==> g.cell == None)
    && (l.Nobody? || l.TakePre? ==>
          && (g.word.awaiter ==> g.cell.Some?)
          && (g.word.task && g.cell.Some? ==> g.word.awaiter))
  }

  predicate TaskOk(g: Shared, x: Aux) {
    && (x.task.Nobody? || x.task.TaskFree? || x.task.TaskPolling? || x.task.TaskRegistered?
        || x.task.TaskBusy? || x.task.TaskRegistering? || x.task.TaskTaking?)
    && (g.word.task <==> !x.task.Nobody?)
    && (g.word.registering ==> x.task.TaskRegistering?)
    && (x.lock == TakePre(true) || x.lock == TakePost(true) ==> x.task.TaskTaking?)
    && (x.task.TaskBusy? || x.task.TaskTaking? || x.task.TaskRegistering? ==> g.reg == None)
    && (x.task.TaskRegistered? ==> g.reg.Some?)
    && (g.parked ==> x.task.TaskFree? && g.reg.Some?)
  }

  /** What the labels say about the shared memory. */
  predicate SharedOk(g: Shared, x: Aux) {
    && TokenOk(g, x.token)
    && OutputOk(g, x.output)
    && LastOk(g, x.last)
    && LockOk(g, x.lock)
    && TaskOk(g, x)
    && (g.owed && !g.word.completed && !g.word.closed ==> g.word.scheduled)
  }

  /** `poll_task` would not answer `Pending` now. */
  predicate Settled(w: Word) {
    w.completed || (w.closed && !w.scheduled && !w.running)
  }

  // ----- What one actor knows -----

  function Snapshot(pc: Pc): Option<Word> {
    match pc
    case Runnable(r) => if r.RunLoop? || r.DropLoop? then Some(r.s) else None
    case Poll(p) => if p.Polling? || p.PendingLoop? then Some(p.s) else None
    case Waker(v) =>
      if (v.WakeRefLoad? || v.WakeRefLoop? || v.WakeRefSchedule?) && v.wk.BackToPoll? then Some(v.wk.seen) else None
    case _ => None
  }

  /** Facts about one actor that only use that flags CLOSED and COMPLETED never go back. */
  predicate Knows(g: Shared, pc: Pc) {
    && (Snapshot(pc).Some? && Snapshot(pc).value.closed ==> g.word.closed)
    && (Snapshot(pc).Some? && Snapshot(pc).value.completed ==> g.word.completed)
    && match pc
       case Runnable(r) =>
         r.RunClosedDrop? || r.RunClosedUnschedule? || r.DropFuture? || r.DropUnschedule? ==> g.word.closed
       case Poll(p) => p.PendingLoop? && p.dropped ==> p.s.closed
       case Waker(v) => v.WakeRefSchedule? ==> !v.wk.BackToPoll?
       case Register(e) =>
         && (e.RegisterLoop? ==> !e.s.registering)
         && (e.RegisterFinish? && e.took.Some? ==> e.took == Some(e.id))
         && (e.RegisterWake? ==> e.taken == e.id)
       case Take(a) => !a.NotifyWake? && !OfTask(a.tk) ==> a.cur == None
       case _ => true
  }

  /** The actor's labels and references agree with the shared memory. */
  predicate Fits(g: Shared, x: Aux, pc: Pc) {
    && RefsOf(pc) <= g.word.refs
    && (!Token(pc).Nobody? ==> x.token == Token(pc))
    && (!Lock(pc).Nobody? ==> x.lock == Lock(pc))
    && (!TaskRole(pc).Nobody? ==> x.task == TaskRole(pc))
    && (!LastRole(pc).Nobody? ==> x.last == LastRole(pc))
    && (!OutputRole(pc).Nobody? ==> x.output == OutputRole(pc))
  }

  /** Holders of the token or (other than the Task) of the cell own a reference. */
  predicate Backed(g: Shared, x: Aux) {
    && (!x.token.Nobody? ==> g.word.refs >= 1)
    && (x.lock == TakePre(false) || x.lock == TakePost(false) ==> g.word.refs >= 1)
  }
}
