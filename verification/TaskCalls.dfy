/** What each call on a task has done by the time it is over, whatever the other actors do meanwhile. */
module TaskCalls {
  import opened Basics
  import opened TaskProtocol
  import opened TaskInvariant
  import opened TaskSteps
  import opened TaskTheorems

  /** `wake` or `wake_by_ref`; `run`; the drop of a Runnable; `set_canceled`; and the part of `run` after
      the future has returned `Ready`, or `Pending`. */
  datatype Call = Wakes | Runs | Drops | Cancels | Completes | Suspends

  /** An actor at `pc` makes the call, or its poll is answered. */
  predicate Begins(call: Call, pc: Pc, c: Choice) {
    match call
    case Wakes => (pc == Waker(WakerIdle) && (c.CallWake? || c.CallWakeByRef?)) || (PollsFuture(pc) && c.CallWakeByRef?)
    case Runs => pc == Runnable(RunnableIdle) && c.CallRun?
    case Drops => pc == Runnable(RunnableIdle) && c.CallDropRunnable?
    case Cancels => pc == Task(TaskIdle) && (c.CallCancel? || c.CallDropTask?)
    case Completes => PollsFuture(pc) && c.FutureReady?
    case Suspends => PollsFuture(pc) && c.FuturePending?
  }

  /** A snapshot of the word: flags that it shows and that never go back are still set. */
  predicate Seen(s: Word, g: Shared) {
    (s.closed ==> g.word.closed) && (s.completed ==> g.word.completed)
  }

  /** The call has not taken effect yet. */
  predicate Early(call: Call, g: Shared, pc: Pc) {
    match call
    case Wakes =>
      pc.Waker? && (match pc.v
                    case WakeLoad => true
                    case WakeLoop(s) => Seen(s, g)
                    case WakeRefLoad(_) => true
                    case WakeRefLoop(_, s) => Seen(s, g)
                    case _ => false)
    case Runs => pc.Runnable? && (pc.r.RunLoad? || (pc.r.RunLoop? && Seen(pc.r.s, g)))
    case Drops => pc.Runnable? && (pc.r.DropLoad? || (pc.r.DropLoop? && Seen(pc.r.s, g)))
    case Cancels => pc.Task? && (pc.t.CancelLoad? || (pc.t.CancelLoop? && Seen(pc.t.s, g)))
    case Completes => pc.Poll? && (pc.p.ReadyDrop? || pc.p.ReadyWrite? || pc.p.ReadyLoop?)
    case Suspends => pc.Poll? && pc.p.PendingLoop?
  }

  /** The step by which the call takes effect. */
  predicate Takes(call: Call, g: Shared, pc: Pc, c: Choice) {
    match call
    case Wakes => EffectiveWake(g, pc, c)
    case Runs => StartsPoll(g, pc, c)
    case Drops => pc.Runnable? && pc.r.DropLoop? && Hit(g, pc.r.s, c) && Act(g, pc, c).g.word.closed
    case Cancels => pc.Task? && pc.t.CancelLoop? && Hit(g, pc.t.s, c) && Act(g, pc, c).g.word.closed
    case Completes => pc.Poll? && pc.p.ReadyLoop? && Hit(g, pc.p.s, c) && Act(g, pc, c).g.word.completed
    case Suspends => pc.Poll? && pc.p.PendingLoop? && Hit(g, pc.p.s, c) && !Act(g, pc, c).g.word.running
  }

  /** The word leaves the call nothing to do. */
  predicate Spared(call: Call, w: Word) {
    match call
    case Wakes | Drops | Cancels => w.closed || w.completed
    case Runs => w.closed
    case Completes | Suspends => false
  }

  lemma CallBegins(call: Call, g: Shared, pc: Pc, c: Choice)
    requires Begins(call, pc, c)
    ensures var o := Act(g, pc, c); Early(call, o.g, o.pc)
  {
  }

  lemma WakeGoesOn(g: Shared, v: WakerPc, c: Choice)
    requires Early(Wakes, g, Waker(v))
    ensures var o := Act(g, Waker(v), c);
            Early(Wakes, o.g, o.pc) || Takes(Wakes, g, Waker(v), c) || Spared(Wakes, g.word)
  {
  }

  lemma RunnableGoesOn(call: Call, g: Shared, r: RunnablePc, c: Choice)
    requires (call.Runs? || call.Drops?) && Early(call, g, Runnable(r))
    ensures var o := Act(g, Runnable(r), c);
            Early(call, o.g, o.pc) || Takes(call, g, Runnable(r), c) || Spared(call, g.word)
  {
  }

  lemma CancelGoesOn(g: Shared, t: TaskPc, c: Choice)
    requires Early(Cancels, g, Task(t))
    ensures var o := Act(g, Task(t), c);
            Early(Cancels, o.g, o.pc) || Takes(Cancels, g, Task(t), c) || Spared(Cancels, g.word)
  {
    if t.CancelLoop? && !t.s.completed && !t.s.closed {
      var o := Act(g, Task(t), c);
      if Hit(g, t.s, c) { CancelCloses(g, t.dropping, t.s, c); } else { assert o == Keep(g, Task(CancelLoop(t.dropping, g.word))); }
    }
  }

  lemma CancelCloses(g: Shared, dropping: bool, s: Word, c: Choice)
    requires Hit(g, s, c) && !s.completed && !s.closed
    ensures Takes(Cancels, g, Task(CancelLoop(dropping, s)), c)
  {
  }

  lemma PollGoesOn(call: Call, g: Shared, p: PollPc, c: Choice)
    requires (call.Completes? || call.Suspends?) && Early(call, g, Poll(p))
    ensures var o := Act(g, Poll(p), c); Early(call, o.g, o.pc) || Takes(call, g, Poll(p), c)
  {
  }

  lemma CallGoesOn(call: Call, g: Shared, pc: Pc, c: Choice)
    requires Early(call, g, pc)
    ensures var o := Act(g, pc, c); Early(call, o.g, o.pc) || Takes(call, g, pc, c) || Spared(call, g.word)
  {
    match call
    case Wakes => WakeGoesOn(g, pc.v, c);
    case Runs | Drops => RunnableGoesOn(call, g, pc.r, c);
    case Cancels => CancelGoesOn(g, pc.t, c);
    case Completes | Suspends => PollGoesOn(call, g, pc.p, c);
  }

  // ----- Along a run -----

  /** CLOSED and COMPLETED never go back, and the other actors stay where they are. */
  lemma StepOfRun(states: seq<State>, moves: seq<Move>, n: nat)
    requires Run(states, moves) && n < |moves|
    ensures var (s, s', a) := (states[n], states[n + 1], moves[n].actor);
            && a < |s.actors| <= |s'.actors|
            && (s.g.word.closed ==> s'.g.word.closed) && (s.g.word.completed ==> s'.g.word.completed)
            && s'.g == Act(s.g, s.actors[a], moves[n].choice).g
            && s'.actors[a] == Act(s.g, s.actors[a], moves[n].choice).pc
            && forall i :: 0 <= i < |s.actors| && i != a ==> s'.actors[i] == s.actors[i]
  {
    var x := RunKeepsInv(states, moves, n);
    ActorIsReady(states[n], x, moves[n].actor);
    AnyStep(states[n].g, x, states[n].actors[moves[n].actor], moves[n].choice);
  }

  /** Actor `i` makes the call at step `m`. */
  ghost predicate CallsAt(states: seq<State>, moves: seq<Move>, call: Call, m: nat, i: nat) {
    && m < |moves| && m < |states| && moves[m].actor == i < |states[m].actors|
    && Begins(call, states[m].actors[i], moves[m].choice)
  }

  /** The call of actor `i` takes effect at step `k`. */
  ghost predicate TakesAt(states: seq<State>, moves: seq<Move>, call: Call, k: nat, i: nat) {
    && k < |moves| && k < |states| && moves[k].actor == i < |states[k].actors|
    && Takes(call, states[k].g, states[k].actors[i], moves[k].choice)
  }

  /** The call has not taken effect yet at state `n`. */
  ghost predicate EarlyAt(states: seq<State>, call: Call, n: nat, i: nat) {
    n < |states| && i < |states[n].actors| && Early(call, states[n].g, states[n].actors[i])
  }

  lemma EarlyNext(states: seq<State>, moves: seq<Move>, call: Call, n: nat, i: nat)
    requires Run(states, moves) && n < |moves| && EarlyAt(states, call, n, i)
    ensures EarlyAt(states, call, n + 1, i) || TakesAt(states, moves, call, n, i) || Spared(call, states[n + 1].g.word)
  {
    StepOfRun(states, moves, n);
    if moves[n].actor == i { CallGoesOn(call, states[n].g, states[n].actors[i], moves[n].choice); }
  }

  lemma FlagsNext(states: seq<State>, moves: seq<Move>, n: nat)
    requires Run(states, moves) && n < |moves|
    ensures states[n].g.word.closed ==> states[n + 1].g.word.closed
    ensures states[n].g.word.completed ==> states[n + 1].g.word.completed
  {
    StepOfRun(states, moves, n);
  }

  lemma EarlyBegins(states: seq<State>, moves: seq<Move>, call: Call, m: nat, i: nat)
    requires Run(states, moves) && CallsAt(states, moves, call, m, i)
    ensures EarlyAt(states, call, m + 1, i)
  {
    CallBegins(call, states[m].g, states[m].actors[i], moves[m].choice);
    StepOfRun(states, moves, m);
  }

  /** A call that is no longer in its early part took effect, or was spared. */
  lemma {:induction false} CallTakesEffect(states: seq<State>, moves: seq<Move>, call: Call, m: nat, n: nat, i: nat)
    requires Run(states, moves) && m < n < |states| && CallsAt(states, moves, call, m, i)
    ensures || EarlyAt(states, call, n, i)
            || (exists k :: m < k < n && TakesAt(states, moves, call, k, i))
            || Spared(call, states[n].g.word)
    decreases n
  {
    if n == m + 1 {
      EarlyBegins(states, moves, call, m, i);
    } else {
      FlagsNext(states, moves, n - 1);
      CallTakesEffect(states, moves, call, m, n - 1, i);
      if EarlyAt(states, call, n - 1, i) {
        EarlyNext(states, moves, call, n - 1, i);
      } else if k :| m < k < n - 1 && TakesAt(states, moves, call, k, i) {
        assert m < k < n && TakesAt(states, moves, call, k, i);
      }
    }
  }

  lemma {:induction false} FlagsStay(states: seq<State>, moves: seq<Move>, m: nat, n: nat)
    requires Run(states, moves) && m <= n < |states|
    ensures states[m].g.word.closed ==> states[n].g.word.closed
    ensures states[m].g.word.completed ==> states[n].g.word.completed
    decreases n
  {
    if m < n {
      FlagsStay(states, moves, m, n - 1);
      FlagsNext(states, moves, n - 1);
    }
  }

  // ----- Completion -----

  /** A run whose future returned `Ready` does not end before the task is completed, with the future
      dropped and the output stored, if not consumed already. */
  lemma ReadyCompletes(states: seq<State>, moves: seq<Move>, m: nat, n: nat, i: nat)
    requires Run(states, moves) && m < n < |states| && CallsAt(states, moves, Completes, m, i)
    requires !EarlyAt(states, Completes, n, i)
    ensures var g := states[n].g; g.word.completed && g.future == Dropped && (g.output == Stored || g.output == Consumed)
  {
    CallTakesEffect(states, moves, Completes, m, n, i);
    var k :| m < k < n && TakesAt(states, moves, Completes, k, i);
    StepOfRun(states, moves, k);
    FlagsStay(states, moves, k + 1, n);
    var x := RunKeepsInv(states, moves, n);
  }

  /** An actor gets among the runs that were answered `Ready` only by that answer. */
  predicate ReadyByAnswer(pc: Pc, c: Choice, o: Out) {
    && (AnswersReady(o.pc) ==> AnswersReady(pc) || Begins(Completes, pc, c))
    && (o.spawn.Some? ==> !AnswersReady(o.spawn.value))
  }

  lemma RunnableByAnswer(g: Shared, r: RunnablePc, c: Choice)
    ensures ReadyByAnswer(Runnable(r), c, ActRunnable(g, r, c))
  {
  }

  lemma PollByAnswer(g: Shared, p: PollPc, c: Choice)
    ensures ReadyByAnswer(Poll(p), c, ActPoll(g, p, c))
  {
  }

  lemma RefByAnswer(g: Shared, f: RefPc, c: Choice)
    ensures ReadyByAnswer(Ref(f), c, ActRef(g, f))
  {
  }

  lemma WakerByAnswer(g: Shared, v: WakerPc, c: Choice)
    ensures ReadyByAnswer(Waker(v), c, ActWaker(g, v, c))
  {
  }

  lemma TaskByAnswer(g: Shared, t: TaskPc, c: Choice)
    ensures ReadyByAnswer(Task(t), c, ActTask(g, t, c))
  {
  }

  lemma RegisterByAnswer(g: Shared, e: RegisterPc, c: Choice)
    ensures ReadyByAnswer(Register(e), c, ActRegister(g, e, c))
  {
  }

  lemma TakeByAnswer(g: Shared, a: TakePc, c: Choice)
    ensures ReadyByAnswer(Take(a), c, ActTake(g, a))
  {
  }

  lemma ActByAnswer(g: Shared, pc: Pc, c: Choice)
    ensures ReadyByAnswer(pc, c, Act(g, pc, c))
  {
    match pc
    case Done =>
    case Runnable(r) => RunnableByAnswer(g, r, c);
    case Poll(p) => PollByAnswer(g, p, c);
    case Ref(f) => RefByAnswer(g, f, c);
    case Waker(v) => WakerByAnswer(g, v, c);
    case Task(t) => TaskByAnswer(g, t, c);
    case Register(e) => RegisterByAnswer(g, e, c);
    case Take(a) => TakeByAnswer(g, a, c);
  }

  lemma ReadyNext(states: seq<State>, moves: seq<Move>, n: nat, i: nat)
    requires Run(states, moves) && n < |moves| && i < |states[n + 1].actors| && AnswersReady(states[n + 1].actors[i])
    ensures i < |states[n].actors| && (AnswersReady(states[n].actors[i]) || CallsAt(states, moves, Completes, n, i))
  {
    ActByAnswer(states[n].g, states[n].actors[moves[n].actor], moves[n].choice);
  }

  lemma {:induction false} AnsweredBefore(states: seq<State>, moves: seq<Move>, n: nat, i: nat) returns (m: nat)
    requires Run(states, moves) && n < |states| && i < |states[n].actors| && AnswersReady(states[n].actors[i])
    ensures m < n && CallsAt(states, moves, Completes, m, i)
  {
    ReadyNext(states, moves, n - 1, i);
    if AnswersReady(states[n - 1].actors[i]) { m := AnsweredBefore(states, moves, n - 1, i); } else { m := n - 1; }
  }

  lemma CompletedNext(states: seq<State>, moves: seq<Move>, n: nat)
    requires Run(states, moves) && n < |moves| && states[n + 1].g.word.completed
    ensures moves[n].actor < |states[n].actors|
    ensures states[n].g.word.completed || AnswersReady(states[n].actors[moves[n].actor])
  {
    ActIsOrderly(states[n].g, states[n].actors[moves[n].actor], moves[n].choice);
  }

  /** A task is completed only after its future returned `Ready`. */
  lemma {:induction false} CompletedAfterReady(states: seq<State>, moves: seq<Move>, n: nat) returns (m: nat, i: nat)
    requires Run(states, moves) && n < |states| && states[n].g.word.completed
    ensures m < n && CallsAt(states, moves, Completes, m, i)
  {
    CompletedNext(states, moves, n - 1);
    if states[n - 1].g.word.completed {
      m, i := CompletedAfterReady(states, moves, n - 1);
    } else {
      i := moves[n - 1].actor;
      m := AnsweredBefore(states, moves, n - 1, i);
    }
  }

  // ----- Waking -----

  /** A `wake` or `wake_by_ref` that is over its loop has taken effect, unless the task is finished. */
  lemma WakeCallWakes(states: seq<State>, moves: seq<Move>, m: nat, n: nat, i: nat) returns (k: nat)
    requires Run(states, moves) && m < n < |states| && CallsAt(states, moves, Wakes, m, i) && !EarlyAt(states, Wakes, n, i)
    ensures || states[n].g.word.closed || states[n].g.word.completed
            || (m < k < n && moves[k].actor == i && WakesAt(states, moves, k))
  {
    CallTakesEffect(states, moves, Wakes, m, n, i);
    if x :| m < x < n && TakesAt(states, moves, Wakes, x, i) { k := x; } else { k := 0; }
  }

  /** After a call of `wake` or `wake_by_ref`, until the future is polled again, the task is finished, or it
      is SCHEDULED: while it is RUNNING the run has yet to hand a Runnable over, and otherwise there is a
      live Runnable or somebody about to hand one out. */
  lemma NoLostWake(states: seq<State>, moves: seq<Move>, m: nat, n: nat, i: nat)
    requires Run(states, moves) && m < n < |states| && CallsAt(states, moves, Wakes, m, i) && !EarlyAt(states, Wakes, n, i)
    requires forall k :: m < k < n ==> !PollsAt(states, moves, k)
    ensures var s := states[n];
            || s.g.word.completed || s.g.word.closed
            || (s.g.word.scheduled && s.g.word.running)
            || (s.g.word.scheduled && !s.g.word.running && exists j :: 0 <= j < |s.actors| && HandsOut(s.actors[j]))
  {
    var k := WakeCallWakes(states, moves, m, n, i);
    if !states[n].g.word.closed && !states[n].g.word.completed { EffectiveWakeIsKept(states, moves, k, n); }
  }

  /** Once every call has returned, a task on which `wake` was called since its last poll is finished or
      has a Runnable. */
  lemma WokenTaskHasRunnable(states: seq<State>, moves: seq<Move>, m: nat, n: nat, i: nat)
    requires Run(states, moves) && m < n < |states| && CallsAt(states, moves, Wakes, m, i)
    requires forall k :: m < k < n ==> !PollsAt(states, moves, k)
    requires forall j :: 0 <= j < |states[n].actors| ==> AtRest(states[n].actors[j])
    ensures var s := states[n];
            || s.g.word.completed || s.g.word.closed
            || (s.g.word.scheduled && !s.g.word.running && Runnable(RunnableIdle) in s.actors)
  {
    var s := states[n];
    assert i < |s.actors| ==> AtRest(s.actors[i]);
    NoLostWake(states, moves, m, n, i);
    if !s.g.word.completed && !s.g.word.closed { RestHasRunnable(states, moves, n); }
  }

  lemma RestHasRunnable(states: seq<State>, moves: seq<Move>, n: nat)
    requires Run(states, moves) && n < |states| && (states[n].g.word.scheduled || states[n].g.word.running)
    requires forall j :: 0 <= j < |states[n].actors| ==> AtRest(states[n].actors[j])
    ensures states[n].g.word.scheduled && !states[n].g.word.running && Runnable(RunnableIdle) in states[n].actors
  {
    var x := RunKeepsInv(states, moves, n);
    var s := states[n];
    assert Sum(s.actors, KHolds(FToken, Get(x, FToken))) == 1;
    var j := SumWitness(s.actors, KHolds(FToken, x.token));
    assert AtRest(s.actors[j]);
    assert s.actors[j] == Runnable(RunnableIdle);
  }

  // ----- Running, dropping, canceling -----

  /** A `run` polls the future, unless the task is closed. */
  lemma RunCallPolls(states: seq<State>, moves: seq<Move>, m: nat, n: nat, i: nat) returns (k: nat)
    requires Run(states, moves) && m < n < |states| && CallsAt(states, moves, Runs, m, i) && !EarlyAt(states, Runs, n, i)
    ensures states[n].g.word.closed || (m < k < n && moves[k].actor == i && PollsAt(states, moves, k))
  {
    CallTakesEffect(states, moves, Runs, m, n, i);
    if x :| m < x < n && TakesAt(states, moves, Runs, x, i) { k := x; } else { k := 0; }
  }

  /** A run whose future returned `Pending` ends by clearing RUNNING. */
  lemma PendingEndsRun(states: seq<State>, moves: seq<Move>, m: nat, n: nat, i: nat) returns (k: nat)
    requires Run(states, moves) && m < n < |states| && CallsAt(states, moves, Suspends, m, i) && !EarlyAt(states, Suspends, n, i)
    ensures m < k < n && TakesAt(states, moves, Suspends, k, i) && !states[k + 1].g.word.running
  {
    CallTakesEffect(states, moves, Suspends, m, n, i);
    k :| m < k < n && TakesAt(states, moves, Suspends, k, i);
    StepOfRun(states, moves, k);
  }

  lemma TakenCloses(states: seq<State>, moves: seq<Move>, call: Call, k: nat, i: nat)
    requires Run(states, moves) && (call == Drops || call == Cancels) && TakesAt(states, moves, call, k, i)
    ensures states[k + 1].g.word.closed
  {
    assert states[k + 1] == Step(states[k], moves[k].actor, moves[k].choice);
  }

  /** A dropped Runnable, and a `cancel`, leave the task closed, if it is not completed. */
  lemma ClosingCallCloses(states: seq<State>, moves: seq<Move>, call: Call, m: nat, n: nat, i: nat)
    requires Run(states, moves) && m < n < |states| && (call == Drops || call == Cancels)
    requires CallsAt(states, moves, call, m, i) && !EarlyAt(states, call, n, i)
    ensures states[n].g.word.closed || states[n].g.word.completed
  {
    CallTakesEffect(states, moves, call, m, n, i);
    if k :| m < k < n && TakesAt(states, moves, call, k, i) {
      TakenCloses(states, moves, call, k, i);
      FlagsStay(states, moves, k + 1, n);
    }
  }

  /** A closed task that nobody may run any more has no future left. */
  lemma ClosedIsDropped(states: seq<State>, moves: seq<Move>, n: nat)
    requires Run(states, moves) && n < |states|
    requires var w := states[n].g.word; (w.closed || w.completed) && !w.scheduled && !w.running
    ensures states[n].g.future == Dropped
  {
    var x := RunKeepsInv(states, moves, n);
  }
}
