/** Every step of every actor keeps the invariant. */
module TaskSteps {
  import opened Basics
  import opened TaskProtocol
  import opened TaskInvariant

  function SpawnLabel(sp: Option<Pc>, f: Family): Label {
    match sp
    case None => Nobody
    case Some(p) => LabelOf(p, f)
  }

  /** The holder's label after an actor moved from `from` to `to` and spawned `sp`. */
  function Shift(was: Label, from: Label, to: Label, sp: Label): Label {
    if !to.Nobody? then to
    else if !sp.Nobody? then sp
    else if !from.Nobody? then Nobody
    else was
  }

  function NextAux(x: Aux, pc: Pc, o: Out): Aux {
    Aux(Shift(x.token, Token(pc), Token(o.pc), SpawnLabel(o.spawn, FToken)),
        Shift(x.lock, Lock(pc), Lock(o.pc), SpawnLabel(o.spawn, FLock)),
        Shift(x.task, TaskRole(pc), TaskRole(o.pc), SpawnLabel(o.spawn, FTask)),
        Shift(x.last, LastRole(pc), LastRole(o.pc), SpawnLabel(o.spawn, FLast)),
        Shift(x.output, OutputRole(pc), OutputRole(o.pc), SpawnLabel(o.spawn, FOutput)))
  }

  /** A label never appears twice: it is taken up only when nobody holds one. */
  predicate Handover(was: Label, from: Label, to: Label, sp: Label) {
    && (to.Nobody? || sp.Nobody?)
    && (from.Nobody? && (!to.Nobody? || !sp.Nobody?) ==> was.Nobody?)
  }

  predicate Handovers(x: Aux, pc: Pc, o: Out) {
    && Handover(x.token, Token(pc), Token(o.pc), SpawnLabel(o.spawn, FToken))
    && Handover(x.lock, Lock(pc), Lock(o.pc), SpawnLabel(o.spawn, FLock))
    && Handover(x.task, TaskRole(pc), TaskRole(o.pc), SpawnLabel(o.spawn, FTask))
    && Handover(x.last, LastRole(pc), LastRole(o.pc), SpawnLabel(o.spawn, FLast))
    && Handover(x.output, OutputRole(pc), OutputRole(o.pc), SpawnLabel(o.spawn, FOutput))
  }

  function SpawnRefs(sp: Option<Pc>): nat {
    match sp
    case None => 0
    case Some(p) => RefsOf(p)
  }

  /** Everything the invariant needs to know about one step, from the mover's point of view. */
  predicate GoodStep(g: Shared, x: Aux, pc: Pc, o: Out) {
    Labelled(x, pc, o) && Accounted(g, x, pc, o)
  }

  /** The labels agree with the shared memory after the step. */
  predicate Labelled(x: Aux, pc: Pc, o: Out) {
    && TokenOk(o.g, NextAux(x, pc, o).token)
    && OutputOk(o.g, NextAux(x, pc, o).output)
    && LastOk(o.g, NextAux(x, pc, o).last)
    && LockOk(o.g, NextAux(x, pc, o).lock)
    && TaskOk(o.g, NextAux(x, pc, o))
    && (o.g.owed && !o.g.word.completed && !o.g.word.closed ==> o.g.word.scheduled)
  }

  /** Labels and references are handed on, flags do not go back, and the mover knows where it is. */
  predicate Accounted(g: Shared, x: Aux, pc: Pc, o: Out) {
    && Handovers(x, pc, o)
    && o.g.word.refs == g.word.refs - RefsOf(pc) + RefsOf(o.pc) + SpawnRefs(o.spawn)
    && (g.word.closed ==> o.g.word.closed)
    && (g.word.completed ==> o.g.word.completed)
    && Knows(o.g, o.pc)
    && (o.spawn.Some? ==> Knows(o.g, o.spawn.value))
  }

  predicate Before(g: Shared, x: Aux, pc: Pc) {
    && SharedOk(g, x)
    && Fits(g, x, pc)
    && Backed(g, x)
    && Knows(g, pc)
  }

  /** The mover keeps the promise that the registered waker will be woken: it neither loses a waker
      it carries, nor one that is in the cell. */
  predicate KeepsWaker(g: Shared, pc: Pc, o: Out) {
    o.g.reg.Some? && !o.g.woken ==>
      var id := o.g.reg.value;
      if g.reg == Some(id) && !g.woken then
        && (g.cell == Some(id) ==> o.g.cell == Some(id) || Carries(o.pc, id))
        && (Carries(pc, id) ==> Carries(o.pc, id))
      else o.g.cell == Some(id)
  }

  /** While the `Task` is parked: whoever settles the task goes on to empty the cell, and whoever is
      about to empty it does so or leaves it to the actor that holds it. */
  predicate KeepsDuty(g: Shared, x: Aux, pc: Pc, o: Out) {
    o.g.parked && !o.g.woken && Settled(o.g.word) ==>
      && g.parked && !g.woken && g.reg == o.g.reg && g.reg.Some?
      && (g.cell == g.reg && (!Settled(g.word) || WillTake(pc)) ==>
            || Carries(o.pc, g.reg.value)
            || (o.g.cell == g.reg && (WillTake(o.pc) || NextAux(x, pc, o).lock == TakePre(false))))
      && (g.cell == g.reg ==> o.g.cell == g.reg || Carries(o.pc, g.reg.value))
  }

  predicate Good(g: Shared, x: Aux, pc: Pc, c: Choice) {
    var o := Act(g, pc, c);
    GoodStep(g, x, pc, o) && KeepsWaker(g, pc, o) && KeepsDuty(g, x, pc, o)
  }

  // ----- Steps that only move the program counter -----

  predicate SameRoles(pc: Pc, pc': Pc) {
    && RefsOf(pc) == RefsOf(pc')
    && Token(pc) == Token(pc')
    && Lock(pc) == Lock(pc')
    && TaskRole(pc) == TaskRole(pc')
    && LastRole(pc) == LastRole(pc')
    && OutputRole(pc) == OutputRole(pc')
  }

  lemma QuietStepLabels(g: Shared, x: Aux, pc: Pc, pc': Pc)
    requires Before(g, x, pc) && SameRoles(pc, pc') && Knows(g, pc')
    ensures Labelled(x, pc, Keep(g, pc'))
  {
  }

  lemma QuietStep(g: Shared, x: Aux, pc: Pc, pc': Pc)
    requires Before(g, x, pc) && SameRoles(pc, pc') && Knows(g, pc')
    ensures GoodStep(g, x, pc, Keep(g, pc'))
  {
    QuietStepLabels(g, x, pc, pc');
  }

  lemma CloneStepLabels(g: Shared, x: Aux, pc: Pc)
    requires Before(g, x, pc) && RefsOf(pc) >= 1
    ensures Labelled(x, pc, Out(AddRef(g), pc, Some(Waker(WakerIdle))))
  {
  }

  lemma CloneStep(g: Shared, x: Aux, pc: Pc)
    requires Before(g, x, pc) && RefsOf(pc) >= 1
    ensures GoodStep(g, x, pc, Out(AddRef(g), pc, Some(Waker(WakerIdle))))
  {
    CloneStepLabels(g, x, pc);
  }

  // ----- Runnable -----

  lemma RunTakesToken(g: Shared, x: Aux, s: Word, c: Choice)
    requires Before(g, x, Runnable(RunLoop(s))) && !s.closed && Hit(g, s, c)
    ensures GoodStep(g, x, Runnable(RunLoop(s)), Act(g, Runnable(RunLoop(s)), c))
  {
  }

  lemma RunDropsFuture(g: Shared, x: Aux, c: Choice)
    requires Before(g, x, Runnable(RunClosedDrop))
    ensures GoodStep(g, x, Runnable(RunClosedDrop), Act(g, Runnable(RunClosedDrop), c))
  {
  }

  lemma RunUnschedules(g: Shared, x: Aux, c: Choice)
    requires Before(g, x, Runnable(RunClosedUnschedule))
    ensures GoodStep(g, x, Runnable(RunClosedUnschedule), Act(g, Runnable(RunClosedUnschedule), c))
  {
  }

  lemma DropCloses(g: Shared, x: Aux, s: Word, c: Choice)
    requires Before(g, x, Runnable(DropLoop(s))) && Hit(g, s, c) && !s.completed && !s.closed
    ensures GoodStep(g, x, Runnable(DropLoop(s)), Act(g, Runnable(DropLoop(s)), c))
  {
  }

  lemma DropDropsFuture(g: Shared, x: Aux, c: Choice)
    requires Before(g, x, Runnable(DropFuture))
    ensures GoodStep(g, x, Runnable(DropFuture), Act(g, Runnable(DropFuture), c))
  {
  }

  lemma DropUnschedules(g: Shared, x: Aux, c: Choice)
    requires Before(g, x, Runnable(DropUnschedule))
    ensures GoodStep(g, x, Runnable(DropUnschedule), Act(g, Runnable(DropUnschedule), c))
  {
  }

  lemma RunnableCalls(g: Shared, x: Aux, c: Choice)
    requires Before(g, x, Runnable(RunnableIdle)) && !c.CallCloneWaker?
    ensures GoodStep(g, x, Runnable(RunnableIdle), Act(g, Runnable(RunnableIdle), c))
  {
    QuietStep(g, x, Runnable(RunnableIdle), Act(g, Runnable(RunnableIdle), c).pc);
  }

  lemma RunLoads(g: Shared, x: Aux, c: Choice)
    requires Before(g, x, Runnable(RunLoad))
    ensures GoodStep(g, x, Runnable(RunLoad), Act(g, Runnable(RunLoad), c))
  {
  }

  lemma RunRetries(g: Shared, x: Aux, s: Word, c: Choice)
    requires Before(g, x, Runnable(RunLoop(s))) && (s.closed || !Hit(g, s, c))
    ensures GoodStep(g, x, Runnable(RunLoop(s)), Act(g, Runnable(RunLoop(s)), c))
  {
  }

  lemma DropLoads(g: Shared, x: Aux, c: Choice)
    requires Before(g, x, Runnable(DropLoad))
    ensures GoodStep(g, x, Runnable(DropLoad), Act(g, Runnable(DropLoad), c))
  {
  }

  lemma DropRetries(g: Shared, x: Aux, s: Word, c: Choice)
    requires Before(g, x, Runnable(DropLoop(s))) && (s.completed || s.closed || !Hit(g, s, c))
    ensures GoodStep(g, x, Runnable(DropLoop(s)), Act(g, Runnable(DropLoop(s)), c))
  {
  }

  lemma RunnableStep(g: Shared, x: Aux, r: RunnablePc, c: Choice)
    requires Before(g, x, Runnable(r))
    ensures GoodStep(g, x, Runnable(r), Act(g, Runnable(r), c))
  {
    match r
    case RunnableIdle =>
      if c.CallCloneWaker? { CloneStep(g, x, Runnable(r)); } else { RunnableCalls(g, x, c); }
    case RunLoad => RunLoads(g, x, c);
    case RunLoop(s) =>
      if !s.closed && Hit(g, s, c) { RunTakesToken(g, x, s, c); } else { RunRetries(g, x, s, c); }
    case RunClosedDrop => RunDropsFuture(g, x, c);
    case RunClosedUnschedule => RunUnschedules(g, x, c);
    case DropLoop(s) =>
      if Hit(g, s, c) && !s.completed && !s.closed { DropCloses(g, x, s, c); } else { DropRetries(g, x, s, c); }
    case DropLoad => DropLoads(g, x, c);
    case DropFuture => DropDropsFuture(g, x, c);
    case DropUnschedule => DropUnschedules(g, x, c);
  }

  // ----- The poll inside run -----

  lemma ReadyDropsFuture(g: Shared, x: Aux, s: Word, c: Choice)
    requires Before(g, x, Poll(ReadyDrop(s)))
    ensures GoodStep(g, x, Poll(ReadyDrop(s)), Act(g, Poll(ReadyDrop(s)), c))
  {
  }

  lemma ReadyWritesOutput(g: Shared, x: Aux, s: Word, c: Choice)
    requires Before(g, x, Poll(ReadyWrite(s)))
    ensures GoodStep(g, x, Poll(ReadyWrite(s)), Act(g, Poll(ReadyWrite(s)), c))
  {
  }

  lemma ReadyCompletes(g: Shared, x: Aux, c: Choice)
    requires Before(g, x, Poll(ReadyLoop(g.word))) && c != Spurious
    ensures GoodStep(g, x, Poll(ReadyLoop(g.word)), Act(g, Poll(ReadyLoop(g.word)), c))
  {
  }

  lemma ReadyDropsOutputLabels(g: Shared, x: Aux, aw: bool, c: Choice)
    requires Before(g, x, Poll(ReadyDropOutput(aw)))
    ensures Labelled(x, Poll(ReadyDropOutput(aw)), Act(g, Poll(ReadyDropOutput(aw)), c))
  {
  }

  lemma ReadyDropsOutput(g: Shared, x: Aux, aw: bool, c: Choice)
    requires Before(g, x, Poll(ReadyDropOutput(aw)))
    ensures GoodStep(g, x, Poll(ReadyDropOutput(aw)), Act(g, Poll(ReadyDropOutput(aw)), c))
  {
    ReadyDropsOutputLabels(g, x, aw, c);
  }

  lemma PendingDropsFuture(g: Shared, x: Aux, s: Word, c: Choice)
    requires Before(g, x, Poll(PendingLoop(s, false))) && s.closed
    ensures GoodStep(g, x, Poll(PendingLoop(s, false)), Act(g, Poll(PendingLoop(s, false)), c))
  {
  }

  lemma PendingEnds(g: Shared, x: Aux, s: Word, dropped: bool, c: Choice)
    requires Before(g, x, Poll(PendingLoop(s, dropped))) && Hit(g, s, c) && !s.closed
    ensures GoodStep(g, x, Poll(PendingLoop(s, dropped)), Act(g, Poll(PendingLoop(s, dropped)), c))
  {
  }

  lemma PendingEndsClosed(g: Shared, x: Aux, s: Word, c: Choice)
    requires Before(g, x, Poll(PendingLoop(s, true))) && Hit(g, s, c) && s.closed
    ensures GoodStep(g, x, Poll(PendingLoop(s, true)), Act(g, Poll(PendingLoop(s, true)), c))
  {
  }

  lemma PollReturns(g: Shared, x: Aux, s: Word, c: Choice)
    requires Before(g, x, Poll(Polling(s))) && !c.CallCloneWaker?
    ensures GoodStep(g, x, Poll(Polling(s)), Act(g, Poll(Polling(s)), c))
  {
    QuietStep(g, x, Poll(Polling(s)), Act(g, Poll(Polling(s)), c).pc);
  }

  lemma ReadyRetries(g: Shared, x: Aux, s: Word, c: Choice)
    requires Before(g, x, Poll(ReadyLoop(s))) && !Hit(g, s, c)
    ensures GoodStep(g, x, Poll(ReadyLoop(s)), Act(g, Poll(ReadyLoop(s)), c))
  {
  }

  lemma PendingRetries(g: Shared, x: Aux, s: Word, dropped: bool, c: Choice)
    requires Before(g, x, Poll(PendingLoop(s, dropped))) && !Hit(g, s, c) && (s.closed ==> dropped)
    ensures GoodStep(g, x, Poll(PendingLoop(s, dropped)), Act(g, Poll(PendingLoop(s, dropped)), c))
  {
  }

  lemma PollStep(g: Shared, x: Aux, p: PollPc, c: Choice)
    requires Before(g, x, Poll(p))
    ensures GoodStep(g, x, Poll(p), Act(g, Poll(p), c))
  {
    match p
    case Polling(s) =>
      if c.CallCloneWaker? { CloneStep(g, x, Poll(p)); } else { PollReturns(g, x, s, c); }
    case ReadyDrop(s) => ReadyDropsFuture(g, x, s, c);
    case ReadyWrite(s) => ReadyWritesOutput(g, x, s, c);
    case ReadyLoop(s) => if Hit(g, s, c) { ReadyCompletes(g, x, c); } else { ReadyRetries(g, x, s, c); }
    case ReadyDropOutput(aw) => ReadyDropsOutput(g, x, aw, c);
    case PendingLoop(s, dropped) =>
      if s.closed && !dropped { PendingDropsFuture(g, x, s, c); }
      else if !Hit(g, s, c) { PendingRetries(g, x, s, dropped, c); }
      else if s.closed { PendingEndsClosed(g, x, s, c); }
      else { PendingEnds(g, x, s, dropped, c); }
  }

  // ----- References -----

  lemma ReleasesLabels(g: Shared, x: Aux, w: Option<WakerId>, c: Choice)
    requires Before(g, x, Ref(Release(w)))
    ensures Labelled(x, Ref(Release(w)), Act(g, Ref(Release(w)), c))
  {
  }

  lemma Releases(g: Shared, x: Aux, w: Option<WakerId>, c: Choice)
    requires Before(g, x, Ref(Release(w)))
    ensures GoodStep(g, x, Ref(Release(w)), Act(g, Ref(Release(w)), c))
  {
    ReleasesLabels(g, x, w, c);
  }

  lemma ReleaseDestroys(g: Shared, x: Aux, w: Option<WakerId>, c: Choice)
    requires Before(g, x, Ref(ReleaseDestroy(w)))
    ensures GoodStep(g, x, Ref(ReleaseDestroy(w)), Act(g, Ref(ReleaseDestroy(w)), c))
  {
  }

  lemma WakesAtEnd(g: Shared, x: Aux, id: WakerId, c: Choice)
    requires Before(g, x, Ref(WakeEnd(id)))
    ensures GoodStep(g, x, Ref(WakeEnd(id)), Act(g, Ref(WakeEnd(id)), c))
  {
  }

  lemma SchedulesHolding(g: Shared, x: Aux, k: Cont, c: Choice)
    requires Before(g, x, Ref(Schedule(k))) && g.captures
    ensures GoodStep(g, x, Ref(Schedule(k)), Act(g, Ref(Schedule(k)), c))
  {
  }

  lemma SchedulesDirectly(g: Shared, x: Aux, k: Cont, c: Choice)
    requires Before(g, x, Ref(Schedule(k))) && !g.captures
    ensures GoodStep(g, x, Ref(Schedule(k)), Act(g, Ref(Schedule(k)), c))
  {
  }

  lemma SchedulesHeld(g: Shared, x: Aux, k: Cont, c: Choice)
    requires Before(g, x, Ref(ScheduleHeld(k)))
    ensures GoodStep(g, x, Ref(ScheduleHeld(k)), Act(g, Ref(ScheduleHeld(k)), c))
  {
  }

  lemma DropsWakerLabels(g: Shared, x: Aux, k: Cont, c: Choice)
    requires Before(g, x, Ref(DropWaker(k)))
    ensures Labelled(x, Ref(DropWaker(k)), Act(g, Ref(DropWaker(k)), c))
  {
  }

  lemma DropsWaker(g: Shared, x: Aux, k: Cont, c: Choice)
    requires Before(g, x, Ref(DropWaker(k)))
    ensures GoodStep(g, x, Ref(DropWaker(k)), Act(g, Ref(DropWaker(k)), c))
  {
    DropsWakerLabels(g, x, k, c);
  }

  lemma StoresLast(g: Shared, x: Aux, k: Cont, c: Choice)
    requires Before(g, x, Ref(LastWakerStore(k)))
    ensures GoodStep(g, x, Ref(LastWakerStore(k)), Act(g, Ref(LastWakerStore(k)), c))
  {
  }

  lemma Destroys(g: Shared, x: Aux, k: Cont, c: Choice)
    requires Before(g, x, Ref(Destroy(k)))
    ensures GoodStep(g, x, Ref(Destroy(k)), Act(g, Ref(Destroy(k)), c))
  {
  }

  lemma RefStep(g: Shared, x: Aux, f: RefPc, c: Choice)
    requires Before(g, x, Ref(f))
    ensures GoodStep(g, x, Ref(f), Act(g, Ref(f), c))
  {
    match f
    case Release(w) => Releases(g, x, w, c);
    case ReleaseDestroy(w) => ReleaseDestroys(g, x, w, c);
    case WakeEnd(id) => WakesAtEnd(g, x, id, c);
    case Schedule(k) => if g.captures { SchedulesHolding(g, x, k, c); } else { SchedulesDirectly(g, x, k, c); }
    case ScheduleHeld(k) => SchedulesHeld(g, x, k, c);
    case DropWaker(k) => DropsWaker(g, x, k, c);
    case LastWakerStore(k) => StoresLast(g, x, k, c);
    case Destroy(k) => Destroys(g, x, k, c);
  }

  // ----- Wakers -----

  lemma WakeMarksLabels(g: Shared, x: Aux, s: Word, c: Choice)
    requires Before(g, x, Waker(WakeLoop(s))) && Hit(g, s, c) && !s.completed && !s.closed && (s.scheduled || s.running)
    ensures Labelled(x, Waker(WakeLoop(s)), Act(g, Waker(WakeLoop(s)), c))
  {
  }

  lemma WakeMarks(g: Shared, x: Aux, s: Word, c: Choice)
    requires Before(g, x, Waker(WakeLoop(s))) && Hit(g, s, c) && !s.completed && !s.closed && (s.scheduled || s.running)
    ensures GoodStep(g, x, Waker(WakeLoop(s)), Act(g, Waker(WakeLoop(s)), c))
  {
    WakeMarksLabels(g, x, s, c);
  }

  lemma WakeQueues(g: Shared, x: Aux, s: Word, c: Choice)
    requires Before(g, x, Waker(WakeLoop(s))) && Hit(g, s, c) && !s.completed && !s.closed && !s.scheduled && !s.running
    ensures GoodStep(g, x, Waker(WakeLoop(s)), Act(g, Waker(WakeLoop(s)), c))
  {
  }

  lemma WakeRefMarksLabels(g: Shared, x: Aux, wk: WakeCont, s: Word, c: Choice)
    requires Before(g, x, Waker(WakeRefLoop(wk, s))) && !wk.BackToPoll? && Hit(g, s, c) && !s.completed && !s.closed && (s.scheduled || s.running)
    ensures Labelled(x, Waker(WakeRefLoop(wk, s)), Act(g, Waker(WakeRefLoop(wk, s)), c))
  {
  }

  lemma WakeRefMarks(g: Shared, x: Aux, wk: WakeCont, s: Word, c: Choice)
    requires Before(g, x, Waker(WakeRefLoop(wk, s))) && !wk.BackToPoll? && Hit(g, s, c) && !s.completed && !s.closed && (s.scheduled || s.running)
    ensures GoodStep(g, x, Waker(WakeRefLoop(wk, s)), Act(g, Waker(WakeRefLoop(wk, s)), c))
  {
    WakeRefMarksLabels(g, x, wk, s, c);
  }

  lemma WakeRefQueues(g: Shared, x: Aux, wk: WakeCont, s: Word, c: Choice)
    requires Before(g, x, Waker(WakeRefLoop(wk, s))) && !wk.BackToPoll? && Hit(g, s, c) && !s.completed && !s.closed && !s.scheduled && !s.running
    ensures GoodStep(g, x, Waker(WakeRefLoop(wk, s)), Act(g, Waker(WakeRefLoop(wk, s)), c))
  {
  }

  lemma PollWakesItself(g: Shared, x: Aux, seen: Word, s: Word, c: Choice)
    requires Before(g, x, Waker(WakeRefLoop(BackToPoll(seen), s))) && Hit(g, s, c) && !s.completed && !s.closed
    ensures GoodStep(g, x, Waker(WakeRefLoop(BackToPoll(seen), s)), Act(g, Waker(WakeRefLoop(BackToPoll(seen), s)), c))
  {
  }

  lemma WakeRefSchedulesLabels(g: Shared, x: Aux, wk: WakeCont, c: Choice)
    requires Before(g, x, Waker(WakeRefSchedule(wk)))
    ensures Labelled(x, Waker(WakeRefSchedule(wk)), Act(g, Waker(WakeRefSchedule(wk)), c))
  {
  }

  lemma WakeRefSchedules(g: Shared, x: Aux, wk: WakeCont, c: Choice)
    requires Before(g, x, Waker(WakeRefSchedule(wk)))
    ensures GoodStep(g, x, Waker(WakeRefSchedule(wk)), Act(g, Waker(WakeRefSchedule(wk)), c))
  {
    WakeRefSchedulesLabels(g, x, wk, c);
  }

  lemma WakerCalls(g: Shared, x: Aux, c: Choice)
    requires Before(g, x, Waker(WakerIdle)) && !c.CallCloneWaker?
    ensures GoodStep(g, x, Waker(WakerIdle), Act(g, Waker(WakerIdle), c))
  {
    QuietStep(g, x, Waker(WakerIdle), Act(g, Waker(WakerIdle), c).pc);
  }

  lemma WakeLoads(g: Shared, x: Aux, c: Choice)
    requires Before(g, x, Waker(WakeLoad))
    ensures GoodStep(g, x, Waker(WakeLoad), Act(g, Waker(WakeLoad), c))
  {
  }

  lemma WakeRetries(g: Shared, x: Aux, s: Word, c: Choice)
    requires Before(g, x, Waker(WakeLoop(s))) && (!Hit(g, s, c) || s.completed || s.closed)
    ensures GoodStep(g, x, Waker(WakeLoop(s)), Act(g, Waker(WakeLoop(s)), c))
  {
  }

  lemma WakeRefLoads(g: Shared, x: Aux, wk: WakeCont, c: Choice)
    requires Before(g, x, Waker(WakeRefLoad(wk)))
    ensures GoodStep(g, x, Waker(WakeRefLoad(wk)), Act(g, Waker(WakeRefLoad(wk)), c))
  {
  }

  lemma WakeRefRetries(g: Shared, x: Aux, wk: WakeCont, s: Word, c: Choice)
    requires Before(g, x, Waker(WakeRefLoop(wk, s))) && !Hit(g, s, c) && !s.completed && !s.closed
    ensures GoodStep(g, x, Waker(WakeRefLoop(wk, s)), Act(g, Waker(WakeRefLoop(wk, s)), c))
  {
  }

  lemma WakeRefReturns(g: Shared, x: Aux, wk: WakeCont, s: Word, c: Choice)
    requires Before(g, x, Waker(WakeRefLoop(wk, s))) && (s.completed || s.closed)
    ensures GoodStep(g, x, Waker(WakeRefLoop(wk, s)), Act(g, Waker(WakeRefLoop(wk, s)), c))
  {
  }

  lemma WakerStep(g: Shared, x: Aux, v: WakerPc, c: Choice)
    requires Before(g, x, Waker(v))
    ensures GoodStep(g, x, Waker(v), Act(g, Waker(v), c))
  {
    match v
    case WakerIdle =>
      if c.CallCloneWaker? { CloneStep(g, x, Waker(v)); } else { WakerCalls(g, x, c); }
    case WakeLoad => WakeLoads(g, x, c);
    case WakeRefLoad(wk) => WakeRefLoads(g, x, wk, c);
    case WakeLoop(s) =>
      if !Hit(g, s, c) || s.completed || s.closed { WakeRetries(g, x, s, c); }
      else if s.scheduled || s.running { WakeMarks(g, x, s, c); }
      else { WakeQueues(g, x, s, c); }
    case WakeRefLoop(wk, s) =>
      if s.completed || s.closed { WakeRefReturns(g, x, wk, s, c); }
      else if !Hit(g, s, c) { WakeRefRetries(g, x, wk, s, c); }
      else if wk.BackToPoll? { PollWakesItself(g, x, wk.seen, s, c); }
      else if s.scheduled || s.running { WakeRefMarks(g, x, wk, s, c); }
      else { WakeRefQueues(g, x, wk, s, c); }
    case WakeRefSchedule(wk) => WakeRefSchedules(g, x, wk, c);
  }

  // ----- Task -----

  lemma TaskPolls(g: Shared, x: Aux, id: WakerId, c: Choice)
    requires Before(g, x, Task(TaskIdle)) && c == CallPoll(id)
    ensures GoodStep(g, x, Task(TaskIdle), Act(g, Task(TaskIdle), c))
  {
  }

  lemma TaskCancelsLabels(g: Shared, x: Aux, c: Choice)
    requires Before(g, x, Task(TaskIdle)) && (c.CallCancel? || c.CallDropTask?)
    ensures Labelled(x, Task(TaskIdle), Act(g, Task(TaskIdle), c))
  {
  }

  lemma TaskCancels(g: Shared, x: Aux, c: Choice)
    requires Before(g, x, Task(TaskIdle)) && (c.CallCancel? || c.CallDropTask?)
    ensures GoodStep(g, x, Task(TaskIdle), Act(g, Task(TaskIdle), c))
  {
    TaskCancelsLabels(g, x, c);
  }

  lemma TaskDetaches(g: Shared, x: Aux, c: Choice)
    requires Before(g, x, Task(TaskIdle)) && c.CallDetach?
    ensures GoodStep(g, x, Task(TaskIdle), Act(g, Task(TaskIdle), c))
  {
  }

  lemma PollLoads(g: Shared, x: Aux, id: WakerId, c: Choice)
    requires Before(g, x, Task(PollLoad(id)))
    ensures GoodStep(g, x, Task(PollLoad(id)), Act(g, Task(PollLoad(id)), c))
  {
  }

  lemma PollTakesOutput(g: Shared, x: Aux, id: WakerId, s: Word, c: Choice)
    requires Before(g, x, Task(PollLoop(id, s))) && s.completed && !s.closed && g.word == s
    ensures GoodStep(g, x, Task(PollLoop(id, s)), Act(g, Task(PollLoop(id, s)), c))
  {
  }

  lemma PollTurns(g: Shared, x: Aux, id: WakerId, s: Word, c: Choice)
    requires Before(g, x, Task(PollLoop(id, s))) && s.closed && !s.scheduled && !s.running
    ensures GoodStep(g, x, Task(PollLoop(id, s)), Act(g, Task(PollLoop(id, s)), c))
  {
  }

  lemma ReloadParks(g: Shared, x: Aux, id: WakerId)
    requires Before(g, x, Task(Reload(id, true)))
    ensures Labelled(x, Task(Reload(id, true)), Keep(g.(parked := true), Task(TaskIdle)))
  {
  }

  lemma ReloadTakes(g: Shared, x: Aux, id: WakerId)
    requires Before(g, x, Task(Reload(id, true)))
    ensures Labelled(x, Task(Reload(id, true)), Keep(Forget(g), Take(TakeMark(Some(id), ThenPollNone))))
  {
  }

  lemma ReloadsClosed(g: Shared, x: Aux, id: WakerId, c: Choice)
    requires Before(g, x, Task(Reload(id, true)))
    ensures GoodStep(g, x, Task(Reload(id, true)), Act(g, Task(Reload(id, true)), c))
  {
    if g.word.scheduled || g.word.running { ReloadParks(g, x, id); } else { ReloadTakes(g, x, id); }
  }

  lemma ReloadsOpen(g: Shared, x: Aux, id: WakerId, c: Choice)
    requires Before(g, x, Task(Reload(id, false)))
    ensures GoodStep(g, x, Task(Reload(id, false)), Act(g, Task(Reload(id, false)), c))
  {
  }

  lemma TakesOutput(g: Shared, x: Aux, c: Choice)
    requires Before(g, x, Task(TakeOutput))
    ensures GoodStep(g, x, Task(TakeOutput), Act(g, Task(TakeOutput), c))
  {
  }

  lemma CancelsIdle(g: Shared, x: Aux, dropping: bool, s: Word, c: Choice)
    requires Before(g, x, Task(CancelLoop(dropping, s))) && Hit(g, s, c) && !s.completed && !s.closed && !s.scheduled && !s.running
    ensures GoodStep(g, x, Task(CancelLoop(dropping, s)), Act(g, Task(CancelLoop(dropping, s)), c))
  {
  }

  lemma CancelsBusy(g: Shared, x: Aux, dropping: bool, s: Word, c: Choice)
    requires Before(g, x, Task(CancelLoop(dropping, s))) && Hit(g, s, c) && !s.completed && !s.closed && (s.scheduled || s.running)
    ensures GoodStep(g, x, Task(CancelLoop(dropping, s)), Act(g, Task(CancelLoop(dropping, s)), c))
  {
  }

  lemma CancelsNothing(g: Shared, x: Aux, dropping: bool, s: Word, c: Choice)
    requires Before(g, x, Task(CancelLoop(dropping, s))) && (s.completed || s.closed)
    ensures GoodStep(g, x, Task(CancelLoop(dropping, s)), Act(g, Task(CancelLoop(dropping, s)), c))
  {
  }

  lemma DetachesFreshLabels(g: Shared, x: Aux, c: Choice)
    requires Before(g, x, Task(DetachTry)) && Act(g, Task(DetachTry), c).pc.Done?
    ensures Labelled(x, Task(DetachTry), Act(g, Task(DetachTry), c))
  {
  }

  lemma DetachesFresh(g: Shared, x: Aux, c: Choice)
    requires Before(g, x, Task(DetachTry)) && Act(g, Task(DetachTry), c).pc.Done?
    ensures GoodStep(g, x, Task(DetachTry), Act(g, Task(DetachTry), c))
  {
    DetachesFreshLabels(g, x, c);
  }

  lemma DetachTakesOutput(g: Shared, x: Aux, c: Choice)
    requires Before(g, x, Task(DetachLoop(g.word))) && c != Spurious && g.word.completed && !g.word.closed
    ensures GoodStep(g, x, Task(DetachLoop(g.word)), Act(g, Task(DetachLoop(g.word)), c))
  {
  }

  lemma DetachReschedulesLabels(g: Shared, x: Aux, c: Choice)
    requires Before(g, x, Task(DetachLoop(g.word))) && c != Spurious && !g.word.completed && g.word.refs == 0 && !g.word.closed
    ensures Labelled(x, Task(DetachLoop(g.word)), Keep(g.(word := Rescheduled()), Ref(Schedule(End))))
  {
  }

  lemma DetachReschedules(g: Shared, x: Aux, c: Choice)
    requires Before(g, x, Task(DetachLoop(g.word))) && c != Spurious && !g.word.completed && g.word.refs == 0 && !g.word.closed
    ensures GoodStep(g, x, Task(DetachLoop(g.word)), Act(g, Task(DetachLoop(g.word)), c))
  {
    DetachReschedulesLabels(g, x, c);
    assert Act(g, Task(DetachLoop(g.word)), c) == Keep(g.(word := Rescheduled()), Ref(Schedule(End)));
  }

  lemma DetachDestroysLabels(g: Shared, x: Aux)
    requires Before(g, x, Task(DetachLoop(g.word))) && g.word.refs == 0 && g.word.closed
    ensures Labelled(x, Task(DetachLoop(g.word)), Keep(g.(word := g.word.(task := false)), Ref(Destroy(End))))
  {
    assert x.token.Nobody? && !g.word.running && !g.word.scheduled;
  }

  lemma DetachDestroys(g: Shared, x: Aux, c: Choice)
    requires Before(g, x, Task(DetachLoop(g.word))) && c != Spurious && g.word.refs == 0 && g.word.closed
    ensures GoodStep(g, x, Task(DetachLoop(g.word)), Act(g, Task(DetachLoop(g.word)), c))
  {
    DetachDestroysLabels(g, x);
    assert Act(g, Task(DetachLoop(g.word)), c) == Keep(g.(word := g.word.(task := false)), Ref(Destroy(End)));
  }

  lemma DetachEnds(g: Shared, x: Aux, c: Choice)
    requires Before(g, x, Task(DetachLoop(g.word))) && c != Spurious && !(g.word.completed && !g.word.closed) && g.word.refs != 0
    ensures GoodStep(g, x, Task(DetachLoop(g.word)), Act(g, Task(DetachLoop(g.word)), c))
  {
  }

  lemma DetachReads(g: Shared, x: Aux, s: Word, c: Choice)
    requires Before(g, x, Task(DetachRead(s)))
    ensures GoodStep(g, x, Task(DetachRead(s)), Act(g, Task(DetachRead(s)), c))
  {
  }

  lemma TaskWaits(g: Shared, x: Aux, c: Choice)
    requires Before(g, x, Task(TaskIdle)) && !c.CallPoll? && !c.CallCancel? && !c.CallDropTask? && !c.CallDetach?
    ensures GoodStep(g, x, Task(TaskIdle), Act(g, Task(TaskIdle), c))
  {
  }

  lemma PollRegisters(g: Shared, x: Aux, id: WakerId, s: Word, c: Choice)
    requires Before(g, x, Task(PollLoop(id, s))) && !(s.completed && !s.closed && g.word == s) && !(s.closed && !s.scheduled && !s.running)
    ensures GoodStep(g, x, Task(PollLoop(id, s)), Act(g, Task(PollLoop(id, s)), c))
  {
  }

  lemma CancelLoads(g: Shared, x: Aux, dropping: bool, c: Choice)
    requires Before(g, x, Task(CancelLoad(dropping)))
    ensures GoodStep(g, x, Task(CancelLoad(dropping)), Act(g, Task(CancelLoad(dropping)), c))
  {
  }

  lemma DetachTryFails(g: Shared, x: Aux, c: Choice)
    requires Before(g, x, Task(DetachTry)) && !Act(g, Task(DetachTry), c).pc.Done?
    ensures GoodStep(g, x, Task(DetachTry), Act(g, Task(DetachTry), c))
  {
  }

  lemma TaskStep(g: Shared, x: Aux, t: TaskPc, c: Choice)
    requires Before(g, x, Task(t))
    ensures GoodStep(g, x, Task(t), Act(g, Task(t), c))
  {
    match t
    case TaskIdle =>
      if c.CallPoll? { TaskPolls(g, x, c.id, c); }
      else if c.CallCancel? || c.CallDropTask? { TaskCancels(g, x, c); }
      else if c.CallDetach? { TaskDetaches(g, x, c); }
      else { TaskWaits(g, x, c); }
    case PollLoad(id) => PollLoads(g, x, id, c);
    case PollLoop(id, s) =>
      if s.completed && !s.closed && g.word == s { PollTakesOutput(g, x, id, s, c); }
      else if s.closed && !s.scheduled && !s.running { PollTurns(g, x, id, s, c); }
      else { PollRegisters(g, x, id, s, c); }
    case Reload(id, closedPath) => if closedPath { ReloadsClosed(g, x, id, c); } else { ReloadsOpen(g, x, id, c); }
    case TakeOutput => TakesOutput(g, x, c);
    case CancelLoop(dropping, s) => CancelLoopStep(g, x, dropping, s, c);
    case DetachLoop(s) => DetachLoopStep(g, x, s, c);
    case DetachTry =>
      if Act(g, Task(t), c).pc.Done? { DetachesFresh(g, x, c); } else { DetachTryFails(g, x, c); }
    case DetachRead(s) => DetachReads(g, x, s, c);
    case CancelLoad(dropping) => CancelLoads(g, x, dropping, c);
  }

  lemma CancelRetries(g: Shared, x: Aux, dropping: bool, s: Word, c: Choice)
    requires Before(g, x, Task(CancelLoop(dropping, s))) && !Hit(g, s, c) && !s.completed && !s.closed
    ensures GoodStep(g, x, Task(CancelLoop(dropping, s)), Act(g, Task(CancelLoop(dropping, s)), c))
  {
  }

  lemma CancelLoopStep(g: Shared, x: Aux, dropping: bool, s: Word, c: Choice)
    requires Before(g, x, Task(CancelLoop(dropping, s)))
    ensures GoodStep(g, x, Task(CancelLoop(dropping, s)), Act(g, Task(CancelLoop(dropping, s)), c))
  {
    if s.completed || s.closed { CancelsNothing(g, x, dropping, s, c); }
    else if !Hit(g, s, c) { CancelRetries(g, x, dropping, s, c); }
    else if s.scheduled || s.running { CancelsBusy(g, x, dropping, s, c); }
    else { CancelsIdle(g, x, dropping, s, c); }
  }

  lemma DetachRetries(g: Shared, x: Aux, s: Word, c: Choice)
    requires Before(g, x, Task(DetachLoop(s))) && !Hit(g, s, c)
    ensures GoodStep(g, x, Task(DetachLoop(s)), Act(g, Task(DetachLoop(s)), c))
  {
  }

  lemma DetachLoopStep(g: Shared, x: Aux, s: Word, c: Choice)
    requires Before(g, x, Task(DetachLoop(s)))
    ensures GoodStep(g, x, Task(DetachLoop(s)), Act(g, Task(DetachLoop(s)), c))
  {
    if !Hit(g, s, c) { DetachRetries(g, x, s, c); }
    else if s.completed && !s.closed { DetachTakesOutput(g, x, c); }
    else if s.refs != 0 { DetachEnds(g, x, c); }
    else if s.closed { DetachDestroys(g, x, c); }
    else { DetachReschedules(g, x, c); }
  }

  // ----- The awaiter cell -----

  lemma RegisterLoads(g: Shared, x: Aux, id: WakerId, path: bool, c: Choice)
    requires Before(g, x, Register(RegisterLoad(id, path)))
    ensures GoodStep(g, x, Register(RegisterLoad(id, path)), Act(g, Register(RegisterLoad(id, path)), c))
  {
  }

  lemma RegisterYields(g: Shared, x: Aux, id: WakerId, path: bool, s: Word, c: Choice)
    requires Before(g, x, Register(RegisterLoop(id, path, s))) && s.notifying
    ensures GoodStep(g, x, Register(RegisterLoop(id, path, s)), Act(g, Register(RegisterLoop(id, path, s)), c))
  {
  }

  lemma RegisterMarks(g: Shared, x: Aux, id: WakerId, path: bool, s: Word, c: Choice)
    requires Before(g, x, Register(RegisterLoop(id, path, s))) && !s.notifying && Hit(g, s, c)
    ensures GoodStep(g, x, Register(RegisterLoop(id, path, s)), Act(g, Register(RegisterLoop(id, path, s)), c))
  {
  }

  lemma RegisterStores(g: Shared, x: Aux, id: WakerId, path: bool, s: Word, c: Choice)
    requires Before(g, x, Register(RegisterStore(id, path, s)))
    ensures GoodStep(g, x, Register(RegisterStore(id, path, s)), Act(g, Register(RegisterStore(id, path, s)), c))
  {
  }

  lemma RegisterTakesBack(g: Shared, x: Aux, id: WakerId, path: bool, s: Word, took: Option<WakerId>, c: Choice)
    requires Before(g, x, Register(RegisterFinish(id, path, s, took))) && s.notifying && g.cell.Some?
    ensures GoodStep(g, x, Register(RegisterFinish(id, path, s, took)), Act(g, Register(RegisterFinish(id, path, s, took)), c))
  {
  }

  lemma RegisterFinishes(g: Shared, x: Aux, id: WakerId, path: bool, s: Word, c: Choice)
    requires Before(g, x, Register(RegisterFinish(id, path, s, None))) && !(s.notifying && g.cell.Some?) && Hit(g, s, c)
    ensures GoodStep(g, x, Register(RegisterFinish(id, path, s, None)), Act(g, Register(RegisterFinish(id, path, s, None)), c))
  {
  }

  lemma RegisterGivesUp(g: Shared, x: Aux, id: WakerId, path: bool, s: Word, taken: WakerId, c: Choice)
    requires Before(g, x, Register(RegisterFinish(id, path, s, Some(taken)))) && !(s.notifying && g.cell.Some?) && Hit(g, s, c)
    ensures GoodStep(g, x, Register(RegisterFinish(id, path, s, Some(taken))), Act(g, Register(RegisterFinish(id, path, s, Some(taken))), c))
  {
  }

  lemma RegisterWakes(g: Shared, x: Aux, id: WakerId, path: bool, taken: WakerId, c: Choice)
    requires Before(g, x, Register(RegisterWake(id, path, taken)))
    ensures GoodStep(g, x, Register(RegisterWake(id, path, taken)), Act(g, Register(RegisterWake(id, path, taken)), c))
  {
  }

  lemma RegisterRetries(g: Shared, x: Aux, id: WakerId, path: bool, s: Word, c: Choice)
    requires Before(g, x, Register(RegisterLoop(id, path, s))) && !s.notifying && !Hit(g, s, c)
    ensures GoodStep(g, x, Register(RegisterLoop(id, path, s)), Act(g, Register(RegisterLoop(id, path, s)), c))
  {
  }

  lemma RegisterFinishRetries(g: Shared, x: Aux, id: WakerId, path: bool, s: Word, took: Option<WakerId>, c: Choice)
    requires Before(g, x, Register(RegisterFinish(id, path, s, took))) && !(s.notifying && g.cell.Some?) && !Hit(g, s, c)
    ensures GoodStep(g, x, Register(RegisterFinish(id, path, s, took)), Act(g, Register(RegisterFinish(id, path, s, took)), c))
  {
  }

  lemma RegisterStep(g: Shared, x: Aux, e: RegisterPc, c: Choice)
    requires Before(g, x, Register(e))
    ensures GoodStep(g, x, Register(e), Act(g, Register(e), c))
  {
    match e
    case RegisterLoad(id, path) => RegisterLoads(g, x, id, path, c);
    case RegisterLoop(id, path, s) =>
      if s.notifying { RegisterYields(g, x, id, path, s, c); }
      else if Hit(g, s, c) { RegisterMarks(g, x, id, path, s, c); }
      else { RegisterRetries(g, x, id, path, s, c); }
    case RegisterStore(id, path, s) => RegisterStores(g, x, id, path, s, c);
    case RegisterFinish(id, path, s, took) =>
      if s.notifying && g.cell.Some? { RegisterTakesBack(g, x, id, path, s, took, c); }
      else if !Hit(g, s, c) { RegisterFinishRetries(g, x, id, path, s, took, c); }
      else if took.None? { RegisterFinishes(g, x, id, path, s, c); }
      else { RegisterGivesUp(g, x, id, path, s, took.value, c); }
    case RegisterWake(id, path, taken) => RegisterWakes(g, x, id, path, taken, c);
  }

  lemma CancelYields(g: Shared, x: Aux, cur: Option<WakerId>, dropping: bool, c: Choice)
    requires Before(g, x, Take(TakeMark(cur, ThenCanceled(dropping)))) && g.word.notifying && !g.word.registering
    ensures GoodStep(g, x, Take(TakeMark(cur, ThenCanceled(dropping))), Act(g, Take(TakeMark(cur, ThenCanceled(dropping))), c))
  {
    assert g.(word := g.word.(notifying := true)) == g;
  }

  lemma PollNoneYields(g: Shared, x: Aux, cur: Option<WakerId>, c: Choice)
    requires Before(g, x, Take(TakeMark(cur, ThenPollNone))) && g.word.notifying && !g.word.registering
    ensures GoodStep(g, x, Take(TakeMark(cur, ThenPollNone)), Act(g, Take(TakeMark(cur, ThenPollNone)), c))
  {
    assert g.(word := g.word.(notifying := true)) == g;
  }

  lemma PollOutputYields(g: Shared, x: Aux, cur: Option<WakerId>, c: Choice)
    requires Before(g, x, Take(TakeMark(cur, ThenPollOutput))) && g.word.notifying && !g.word.registering
    ensures GoodStep(g, x, Take(TakeMark(cur, ThenPollOutput)), Act(g, Take(TakeMark(cur, ThenPollOutput)), c))
  {
    assert g.(word := g.word.(notifying := true)) == g;
  }

  lemma RunYields(g: Shared, x: Aux, cur: Option<WakerId>, c: Choice)
    requires Before(g, x, Take(TakeMark(cur, ThenRelease))) && g.word.notifying && !g.word.registering
    ensures GoodStep(g, x, Take(TakeMark(cur, ThenRelease)), Act(g, Take(TakeMark(cur, ThenRelease)), c))
  {
    assert g.(word := g.word.(notifying := true)) == g;
    QuietStep(g, x, Take(TakeMark(cur, ThenRelease)), Ref(Release(None)));
  }

  lemma DropYields(g: Shared, x: Aux, cur: Option<WakerId>, c: Choice)
    requires Before(g, x, Take(TakeMark(cur, ThenWakeRelease))) && g.word.notifying && !g.word.registering
    ensures GoodStep(g, x, Take(TakeMark(cur, ThenWakeRelease)), Act(g, Take(TakeMark(cur, ThenWakeRelease)), c))
  {
    assert g.(word := g.word.(notifying := true)) == g;
    QuietStep(g, x, Take(TakeMark(cur, ThenWakeRelease)), Ref(Release(None)));
  }

  lemma TakeYields(g: Shared, x: Aux, cur: Option<WakerId>, tk: TakeCont, c: Choice)
    requires Before(g, x, Take(TakeMark(cur, tk))) && g.word.notifying && !g.word.registering
    ensures GoodStep(g, x, Take(TakeMark(cur, tk)), Act(g, Take(TakeMark(cur, tk)), c))
  {
    match tk
    case ThenRelease => RunYields(g, x, cur, c);
    case ThenWakeRelease => DropYields(g, x, cur, c);
    case ThenCanceled(dropping) => CancelYields(g, x, cur, dropping, c);
    case ThenPollNone => PollNoneYields(g, x, cur, c);
    case ThenPollOutput => PollOutputYields(g, x, cur, c);
  }

  lemma TakeLeavesToRegister(g: Shared, x: Aux, cur: Option<WakerId>, tk: TakeCont, c: Choice)
    requires Before(g, x, Take(TakeMark(cur, tk))) && g.word.registering && !OfTask(tk)
    ensures GoodStep(g, x, Take(TakeMark(cur, tk)), Act(g, Take(TakeMark(cur, tk)), c))
  {
  }

  lemma TakeMarksLabels(g: Shared, x: Aux, cur: Option<WakerId>, tk: TakeCont, c: Choice)
    requires Before(g, x, Take(TakeMark(cur, tk))) && !g.word.notifying && !g.word.registering
    ensures Labelled(x, Take(TakeMark(cur, tk)), Act(g, Take(TakeMark(cur, tk)), c))
  {
  }

  lemma TakeMarks(g: Shared, x: Aux, cur: Option<WakerId>, tk: TakeCont, c: Choice)
    requires Before(g, x, Take(TakeMark(cur, tk))) && !g.word.notifying && !g.word.registering
    ensures GoodStep(g, x, Take(TakeMark(cur, tk)), Act(g, Take(TakeMark(cur, tk)), c))
  {
    TakeMarksLabels(g, x, cur, tk, c);
  }

  lemma TakesCellLabels(g: Shared, x: Aux, cur: Option<WakerId>, tk: TakeCont, c: Choice)
    requires Before(g, x, Take(TakeCell(cur, tk)))
    ensures Labelled(x, Take(TakeCell(cur, tk)), Act(g, Take(TakeCell(cur, tk)), c))
  {
  }

  lemma TakesCell(g: Shared, x: Aux, cur: Option<WakerId>, tk: TakeCont, c: Choice)
    requires Before(g, x, Take(TakeCell(cur, tk)))
    ensures GoodStep(g, x, Take(TakeCell(cur, tk)), Act(g, Take(TakeCell(cur, tk)), c))
  {
    TakesCellLabels(g, x, cur, tk, c);
  }

  lemma TakeClearsForTaskLabels(g: Shared, x: Aux, cur: Option<WakerId>, w: Option<WakerId>, tk: TakeCont, c: Choice)
    requires Before(g, x, Take(TakeClear(cur, w, tk))) && OfTask(tk)
    ensures Labelled(x, Take(TakeClear(cur, w, tk)), Act(g, Take(TakeClear(cur, w, tk)), c))
  {
  }

  lemma TakeClearsForTask(g: Shared, x: Aux, cur: Option<WakerId>, w: Option<WakerId>, tk: TakeCont, c: Choice)
    requires Before(g, x, Take(TakeClear(cur, w, tk))) && OfTask(tk)
    ensures GoodStep(g, x, Take(TakeClear(cur, w, tk)), Act(g, Take(TakeClear(cur, w, tk)), c))
  {
    TakeClearsForTaskLabels(g, x, cur, w, tk, c);
  }

  lemma TakeClearsForRunLabels(g: Shared, x: Aux, cur: Option<WakerId>, w: Option<WakerId>, tk: TakeCont, c: Choice)
    requires Before(g, x, Take(TakeClear(cur, w, tk))) && !OfTask(tk)
    ensures Labelled(x, Take(TakeClear(cur, w, tk)), Act(g, Take(TakeClear(cur, w, tk)), c))
  {
  }

  lemma TakeClearsForRun(g: Shared, x: Aux, cur: Option<WakerId>, w: Option<WakerId>, tk: TakeCont, c: Choice)
    requires Before(g, x, Take(TakeClear(cur, w, tk))) && !OfTask(tk)
    ensures GoodStep(g, x, Take(TakeClear(cur, w, tk)), Act(g, Take(TakeClear(cur, w, tk)), c))
  {
    TakeClearsForRunLabels(g, x, cur, w, tk, c);
  }

  lemma NotifyWakesLabels(g: Shared, x: Aux, id: WakerId, tk: TakeCont, c: Choice)
    requires Before(g, x, Take(NotifyWake(id, tk)))
    ensures Labelled(x, Take(NotifyWake(id, tk)), Act(g, Take(NotifyWake(id, tk)), c))
  {
  }

  lemma NotifyWakes(g: Shared, x: Aux, id: WakerId, tk: TakeCont, c: Choice)
    requires Before(g, x, Take(NotifyWake(id, tk)))
    ensures GoodStep(g, x, Take(NotifyWake(id, tk)), Act(g, Take(NotifyWake(id, tk)), c))
  {
    NotifyWakesLabels(g, x, id, tk, c);
  }

  lemma TakeStep(g: Shared, x: Aux, a: TakePc, c: Choice)
    requires Before(g, x, Take(a))
    ensures GoodStep(g, x, Take(a), Act(g, Take(a), c))
  {
    match a
    case TakeMark(cur, tk) =>
      if !g.word.notifying && !g.word.registering { TakeMarks(g, x, cur, tk, c); }
      else if g.word.registering { TakeLeavesToRegister(g, x, cur, tk, c); }
      else { TakeYields(g, x, cur, tk, c); }
    case TakeCell(cur, tk) => TakesCell(g, x, cur, tk, c);
    case TakeClear(cur, w, tk) =>
      if OfTask(tk) { TakeClearsForTask(g, x, cur, w, tk, c); } else { TakeClearsForRun(g, x, cur, w, tk, c); }
    case NotifyWake(id, tk) => NotifyWakes(g, x, id, tk, c);
  }

  // ----- Wakers stay promised -----

  lemma RunningRunnableKeepsWaker(g: Shared, r: RunnablePc, c: Choice)
    requires r.RunnableIdle? || r.RunLoad? || r.RunLoop? || r.RunClosedDrop? || r.RunClosedUnschedule?
    ensures KeepsWaker(g, Runnable(r), Act(g, Runnable(r), c))
  {
  }

  lemma DroppedRunnableKeepsWaker(g: Shared, r: RunnablePc, c: Choice)
    requires r.DropLoad? || r.DropLoop? || r.DropFuture? || r.DropUnschedule?
    ensures KeepsWaker(g, Runnable(r), Act(g, Runnable(r), c))
  {
  }

  lemma RunnableKeepsWaker(g: Shared, x: Aux, r: RunnablePc, c: Choice)
    requires Before(g, x, Runnable(r))
    ensures KeepsWaker(g, Runnable(r), Act(g, Runnable(r), c))
  {
    if r.RunnableIdle? || r.RunLoad? || r.RunLoop? || r.RunClosedDrop? || r.RunClosedUnschedule? {
      RunningRunnableKeepsWaker(g, r, c);
    } else {
      DroppedRunnableKeepsWaker(g, r, c);
    }
  }

  lemma RunningRunnableKeepsDuty(g: Shared, x: Aux, r: RunnablePc, c: Choice)
    requires Before(g, x, Runnable(r)) && (r.RunnableIdle? || r.RunLoad? || r.RunLoop? || r.RunClosedDrop? || r.RunClosedUnschedule?)
    ensures KeepsDuty(g, x, Runnable(r), Act(g, Runnable(r), c))
  {
  }

  lemma DroppedRunnableKeepsDuty(g: Shared, x: Aux, r: RunnablePc, c: Choice)
    requires Before(g, x, Runnable(r)) && (r.DropLoad? || r.DropLoop? || r.DropFuture? || r.DropUnschedule?)
    ensures KeepsDuty(g, x, Runnable(r), Act(g, Runnable(r), c))
  {
  }

  lemma RunnableKeepsDuty(g: Shared, x: Aux, r: RunnablePc, c: Choice)
    requires Before(g, x, Runnable(r))
    ensures KeepsDuty(g, x, Runnable(r), Act(g, Runnable(r), c))
  {
    if r.RunnableIdle? || r.RunLoad? || r.RunLoop? || r.RunClosedDrop? || r.RunClosedUnschedule? {
      RunningRunnableKeepsDuty(g, x, r, c);
    } else {
      DroppedRunnableKeepsDuty(g, x, r, c);
    }
  }

  lemma ReadyPollKeepsWaker(g: Shared, p: PollPc, c: Choice)
    requires p.ReadyDrop? || p.ReadyWrite? || p.ReadyLoop? || p.ReadyDropOutput?
    ensures KeepsWaker(g, Poll(p), Act(g, Poll(p), c))
  {
  }

  lemma OtherPollKeepsWaker(g: Shared, p: PollPc, c: Choice)
    requires p.Polling? || p.PendingLoop?
    ensures KeepsWaker(g, Poll(p), Act(g, Poll(p), c))
  {
  }

  lemma PollKeepsWaker(g: Shared, x: Aux, p: PollPc, c: Choice)
    requires Before(g, x, Poll(p))
    ensures KeepsWaker(g, Poll(p), Act(g, Poll(p), c))
  {
    if p.ReadyDrop? || p.ReadyWrite? || p.ReadyLoop? || p.ReadyDropOutput? {
      ReadyPollKeepsWaker(g, p, c);
    } else {
      OtherPollKeepsWaker(g, p, c);
    }
  }

  lemma ReadyPollKeepsDuty(g: Shared, x: Aux, p: PollPc, c: Choice)
    requires Before(g, x, Poll(p)) && (p.ReadyDrop? || p.ReadyWrite? || p.ReadyLoop? || p.ReadyDropOutput?)
    ensures KeepsDuty(g, x, Poll(p), Act(g, Poll(p), c))
  {
  }

  lemma PollingKeepsDuty(g: Shared, x: Aux, s: Word, c: Choice)
    requires Before(g, x, Poll(Polling(s)))
    ensures KeepsDuty(g, x, Poll(Polling(s)), Act(g, Poll(Polling(s)), c))
  {
  }

  lemma PendingKeepsDuty(g: Shared, x: Aux, s: Word, dropped: bool, c: Choice)
    requires Before(g, x, Poll(PendingLoop(s, dropped)))
    ensures KeepsDuty(g, x, Poll(PendingLoop(s, dropped)), Act(g, Poll(PendingLoop(s, dropped)), c))
  {
    var o := Act(g, Poll(PendingLoop(s, dropped)), c);
    assert g.word.running;
    if Hit(g, s, c) && s.closed && dropped {
      assert o == Keep(g.(word := s.(running := false, scheduled := false)), AfterRun(s.awaiter));
    } else {
      assert !Settled(o.g.word);
    }
  }

  lemma OtherPollKeepsDuty(g: Shared, x: Aux, p: PollPc, c: Choice)
    requires Before(g, x, Poll(p)) && (p.Polling? || p.PendingLoop?)
    ensures KeepsDuty(g, x, Poll(p), Act(g, Poll(p), c))
  {
    if p.Polling? { PollingKeepsDuty(g, x, p.s, c); } else { PendingKeepsDuty(g, x, p.s, p.dropped, c); }
  }

  lemma PollKeepsDuty(g: Shared, x: Aux, p: PollPc, c: Choice)
    requires Before(g, x, Poll(p))
    ensures KeepsDuty(g, x, Poll(p), Act(g, Poll(p), c))
  {
    if p.ReadyDrop? || p.ReadyWrite? || p.ReadyLoop? || p.ReadyDropOutput? {
      ReadyPollKeepsDuty(g, x, p, c);
    } else {
      OtherPollKeepsDuty(g, x, p, c);
    }
  }

  lemma RefKeepsWaker(g: Shared, x: Aux, f: RefPc, c: Choice)
    requires Before(g, x, Ref(f))
    ensures KeepsWaker(g, Ref(f), Act(g, Ref(f), c))
  {
  }

  lemma RefKeepsDuty(g: Shared, x: Aux, f: RefPc, c: Choice)
    requires Before(g, x, Ref(f))
    ensures KeepsDuty(g, x, Ref(f), Act(g, Ref(f), c))
  {
  }

  lemma IdleWakerKeepsWaker(g: Shared, v: WakerPc, c: Choice)
    requires v.WakerIdle? || v.WakeLoad?
    ensures KeepsWaker(g, Waker(v), Act(g, Waker(v), c))
  {
  }

  lemma LoopWakerKeepsWaker(g: Shared, v: WakerPc, c: Choice)
    requires v.WakeLoop?
    ensures KeepsWaker(g, Waker(v), Act(g, Waker(v), c))
  {
  }

  lemma RefWakerKeepsWaker(g: Shared, v: WakerPc, c: Choice)
    requires v.WakeRefLoad? || v.WakeRefLoop? || v.WakeRefSchedule?
    ensures KeepsWaker(g, Waker(v), Act(g, Waker(v), c))
  {
  }

  lemma WakerKeepsWaker(g: Shared, x: Aux, v: WakerPc, c: Choice)
    requires Before(g, x, Waker(v))
    ensures KeepsWaker(g, Waker(v), Act(g, Waker(v), c))
  {
    if v.WakerIdle? || v.WakeLoad? {
      IdleWakerKeepsWaker(g, v, c);
    } else if v.WakeLoop? {
      LoopWakerKeepsWaker(g, v, c);
    } else {
      RefWakerKeepsWaker(g, v, c);
    }
  }

  lemma IdleWakerKeepsDuty(g: Shared, x: Aux, v: WakerPc, c: Choice)
    requires Before(g, x, Waker(v)) && (v.WakerIdle? || v.WakeLoad?)
    ensures KeepsDuty(g, x, Waker(v), Act(g, Waker(v), c))
  {
  }

  lemma LoopWakerKeepsDuty(g: Shared, x: Aux, v: WakerPc, c: Choice)
    requires Before(g, x, Waker(v)) && v.WakeLoop?
    ensures KeepsDuty(g, x, Waker(v), Act(g, Waker(v), c))
  {
  }

  lemma RefWakerKeepsDuty(g: Shared, x: Aux, v: WakerPc, c: Choice)
    requires Before(g, x, Waker(v)) && (v.WakeRefLoad? || v.WakeRefLoop? || v.WakeRefSchedule?)
    ensures KeepsDuty(g, x, Waker(v), Act(g, Waker(v), c))
  {
  }

  lemma WakerKeepsDuty(g: Shared, x: Aux, v: WakerPc, c: Choice)
    requires Before(g, x, Waker(v))
    ensures KeepsDuty(g, x, Waker(v), Act(g, Waker(v), c))
  {
    if v.WakerIdle? || v.WakeLoad? {
      IdleWakerKeepsDuty(g, x, v, c);
    } else if v.WakeLoop? {
      LoopWakerKeepsDuty(g, x, v, c);
    } else {
      RefWakerKeepsDuty(g, x, v, c);
    }
  }

  lemma IdleTaskKeepsWaker(g: Shared, x: Aux, t: TaskPc, c: Choice)
    requires Before(g, x, Task(t)) && (t.TaskIdle? || t.PollLoad?)
    ensures KeepsWaker(g, Task(t), Act(g, Task(t), c))
  {
  }

  lemma PollingTaskKeepsWaker(g: Shared, x: Aux, t: TaskPc, c: Choice)
    requires Before(g, x, Task(t)) && (t.PollLoop? || t.Reload?)
    ensures KeepsWaker(g, Task(t), Act(g, Task(t), c))
  {
  }

  lemma ClosingTaskKeepsWaker(g: Shared, x: Aux, t: TaskPc, c: Choice)
    requires Before(g, x, Task(t)) && (t.TakeOutput? || t.CancelLoad? || t.CancelLoop?)
    ensures KeepsWaker(g, Task(t), Act(g, Task(t), c))
  {
  }

  lemma DetachingTaskKeepsWaker(g: Shared, x: Aux, t: TaskPc, c: Choice)
    requires Before(g, x, Task(t)) && (t.DetachTry? || t.DetachLoop? || t.DetachRead?)
    ensures KeepsWaker(g, Task(t), Act(g, Task(t), c))
  {
  }

  lemma TaskKeepsWaker(g: Shared, x: Aux, t: TaskPc, c: Choice)
    requires Before(g, x, Task(t))
    ensures KeepsWaker(g, Task(t), Act(g, Task(t), c))
  {
    if t.TaskIdle? || t.PollLoad? {
      IdleTaskKeepsWaker(g, x, t, c);
    } else if t.PollLoop? || t.Reload? {
      PollingTaskKeepsWaker(g, x, t, c);
    } else if t.TakeOutput? || t.CancelLoad? || t.CancelLoop? {
      ClosingTaskKeepsWaker(g, x, t, c);
    } else {
      DetachingTaskKeepsWaker(g, x, t, c);
    }
  }

  lemma IdleTaskKeepsDuty(g: Shared, x: Aux, t: TaskPc, c: Choice)
    requires Before(g, x, Task(t)) && (t.TaskIdle? || t.PollLoad?)
    ensures KeepsDuty(g, x, Task(t), Act(g, Task(t), c))
  {
  }

  lemma PollingTaskKeepsDuty(g: Shared, x: Aux, t: TaskPc, c: Choice)
    requires Before(g, x, Task(t)) && (t.PollLoop? || t.Reload?)
    ensures KeepsDuty(g, x, Task(t), Act(g, Task(t), c))
  {
  }

  lemma ClosingTaskKeepsDuty(g: Shared, x: Aux, t: TaskPc, c: Choice)
    requires Before(g, x, Task(t)) && (t.TakeOutput? || t.CancelLoad? || t.CancelLoop?)
    ensures KeepsDuty(g, x, Task(t), Act(g, Task(t), c))
  {
  }

  lemma DetachingTaskKeepsDuty(g: Shared, x: Aux, t: TaskPc, c: Choice)
    requires Before(g, x, Task(t)) && (t.DetachTry? || t.DetachLoop? || t.DetachRead?)
    ensures KeepsDuty(g, x, Task(t), Act(g, Task(t), c))
  {
  }

  lemma TaskKeepsDuty(g: Shared, x: Aux, t: TaskPc, c: Choice)
    requires Before(g, x, Task(t))
    ensures KeepsDuty(g, x, Task(t), Act(g, Task(t), c))
  {
    if t.TaskIdle? || t.PollLoad? {
      IdleTaskKeepsDuty(g, x, t, c);
    } else if t.PollLoop? || t.Reload? {
      PollingTaskKeepsDuty(g, x, t, c);
    } else if t.TakeOutput? || t.CancelLoad? || t.CancelLoop? {
      ClosingTaskKeepsDuty(g, x, t, c);
    } else {
      DetachingTaskKeepsDuty(g, x, t, c);
    }
  }

  lemma RegisterKeepsWaker(g: Shared, x: Aux, e: RegisterPc, c: Choice)
    requires Before(g, x, Register(e))
    ensures KeepsWaker(g, Register(e), Act(g, Register(e), c))
  {
  }

  lemma RegisterKeepsDuty(g: Shared, x: Aux, e: RegisterPc, c: Choice)
    requires Before(g, x, Register(e))
    ensures KeepsDuty(g, x, Register(e), Act(g, Register(e), c))
  {
  }

  lemma TakeKeepsWaker(g: Shared, x: Aux, a: TakePc, c: Choice)
    requires Before(g, x, Take(a))
    ensures KeepsWaker(g, Take(a), Act(g, Take(a), c))
  {
  }

  lemma TakeKeepsDuty(g: Shared, x: Aux, a: TakePc, c: Choice)
    requires Before(g, x, Take(a))
    ensures KeepsDuty(g, x, Take(a), Act(g, Take(a), c))
  {
  }

  // ----- All of them -----

  lemma AnyGoodStep(g: Shared, x: Aux, pc: Pc, c: Choice)
    requires Before(g, x, pc)
    ensures GoodStep(g, x, pc, Act(g, pc, c))
  {
    match pc
    case Done => QuietStep(g, x, pc, pc);
    case Runnable(r) => RunnableStep(g, x, r, c);
    case Poll(p) => PollStep(g, x, p, c);
    case Ref(f) => RefStep(g, x, f, c);
    case Waker(v) => WakerStep(g, x, v, c);
    case Task(t) => TaskStep(g, x, t, c);
    case Register(e) => RegisterStep(g, x, e, c);
    case Take(a) => TakeStep(g, x, a, c);
  }

  lemma AnyKeepsWaker(g: Shared, x: Aux, pc: Pc, c: Choice)
    requires Before(g, x, pc)
    ensures KeepsWaker(g, pc, Act(g, pc, c))
  {
    match pc
    case Done =>
    case Runnable(r) => RunnableKeepsWaker(g, x, r, c);
    case Poll(p) => PollKeepsWaker(g, x, p, c);
    case Ref(f) => RefKeepsWaker(g, x, f, c);
    case Waker(v) => WakerKeepsWaker(g, x, v, c);
    case Task(t) => TaskKeepsWaker(g, x, t, c);
    case Register(e) => RegisterKeepsWaker(g, x, e, c);
    case Take(a) => TakeKeepsWaker(g, x, a, c);
  }

  lemma AnyKeepsDuty(g: Shared, x: Aux, pc: Pc, c: Choice)
    requires Before(g, x, pc)
    ensures KeepsDuty(g, x, pc, Act(g, pc, c))
  {
    match pc
    case Done =>
    case Runnable(r) => RunnableKeepsDuty(g, x, r, c);
    case Poll(p) => PollKeepsDuty(g, x, p, c);
    case Ref(f) => RefKeepsDuty(g, x, f, c);
    case Waker(v) => WakerKeepsDuty(g, x, v, c);
    case Task(t) => TaskKeepsDuty(g, x, t, c);
    case Register(e) => RegisterKeepsDuty(g, x, e, c);
    case Take(a) => TakeKeepsDuty(g, x, a, c);
  }

  /** Any step of any actor. */
  lemma AnyStep(g: Shared, x: Aux, pc: Pc, c: Choice)
    requires Before(g, x, pc)
    ensures Good(g, x, pc, c)
  {
    AnyGoodStep(g, x, pc, c);
    AnyKeepsWaker(g, x, pc, c);
    AnyKeepsDuty(g, x, pc, c);
  }
}
