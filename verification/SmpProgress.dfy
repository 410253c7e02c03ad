/** The work-splitting copy gets done: a helper that steps alone copies the next cell, and as long as there
    is one helper every job can be finished. */
module SmpProgress {
  import opened Basics
  import opened SmpCopy

  // ----- Runs that go on -----

  function Final(states: seq<State>): State
    requires |states| > 0
  {
    states[|states| - 1]
  }

  ghost predicate Extends(states: seq<State>, events: seq<Event>, states': seq<State>, events': seq<Event>) {
    Run(states', events') && states <= states' && events <= events'
  }

  lemma RunGoesOn(states: seq<State>, events: seq<Event>, e: Event) returns (states': seq<State>, events': seq<Event>)
    requires Run(states, events) && Enabled(Final(states), e)
    ensures Extends(states, events, states', events') && events' == events + [e]
    ensures Final(states') == Step(Final(states), e)
  {
    states', events' := states + [Step(Final(states), e)], events + [e];
    forall n | 0 <= n < |events'|
      ensures Enabled(states'[n], events'[n]) && states'[n + 1] == Step(states'[n], events'[n])
    {
      if n < |events| { assert events'[n] == events[n]; }
    }
  }

  // ----- One cell -----

  /** The helper has claimed a cell. */
  predicate Holding(h: Helper) {
    !h.Rest? && !h.Loaded?
  }

  /** Steps up to the end of the cell, for a helper that holds one of `cell` words. */
  function CellLeft(h: Helper, cell: nat): nat
    requires Holding(h)
  {
    match h
    case Claimed(_) => cell + 4
    case HasCell(_, _) => cell + 3
    case HasSrc(_, _, _) => cell + 2
    case Copying(_, _, _, _, k) => if k <= cell then cell - k + 1 else 1
  }

  /** Memory differs at most inside the destination of the job. */
  ghost predicate OnlyDestination(w: Job, mem: seq<int>, mem': seq<int>) {
    |mem'| == |mem| && forall a :: 0 <= a < |mem| && !(w.dst <= a < w.dst + w.Len()) ==> mem'[a] == mem[a]
  }

  /** Helper `i` went on with its cell: nothing else changed. */
  ghost predicate Worked(s: State, s': State, i: nat) {
    && i < |s.helpers| && i < |s'.helpers| && OnlyDestination(s.job, s.mem, s'.mem)
    && s' == s.(mem := s'.mem, helpers := s.helpers[i := s'.helpers[i]])
  }

  /** And now it has finished cell `j`. */
  ghost predicate Finished(s: State, s': State, i: nat, j: nat) {
    && i < |s.helpers| && s.wait >= 1 && OnlyDestination(s.job, s.mem, s'.mem) && j !in s.done
    && s' == s.(mem := s'.mem, helpers := s.helpers[i := Rest], wait := s.wait - 1, done := s.done + {j})
  }

  lemma HolderWorks(s: State, i: nat)
    requires Working(s) && s.owner == Waiting && i < |s.helpers| && Holding(s.helpers[i])
    ensures var (h, s') := (s.helpers[i], Step(s, HelperStep(i)));
            if CellLeft(h, s.job.cell) == 1 then Finished(s, s', i, h.cur)
            else Worked(s, s', i) && Holding(s'.helpers[i]) && s'.helpers[i].cur == h.cur
                 && CellLeft(s'.helpers[i], s.job.cell) == CellLeft(h, s.job.cell) - 1
  {
    var h := s.helpers[i];
    assert HelperOk(s.job, s.data, s.mem, h);
    if h.Copying? {
      if h.k < h.cell {
        WordIsCopied(s, i);
      } else {
        FinishKeeps(s, i);
        CountAt(s.helpers, i, h.cur);
      }
    }
  }

  lemma WordIsCopied(s: State, i: nat)
    requires Working(s) && s.owner == Waiting && i < |s.helpers|
    requires s.helpers[i].Copying? && s.helpers[i].k < s.helpers[i].cell
    ensures var (h, s') := (s.helpers[i], Step(s, HelperStep(i)));
            Worked(s, s', i) && s'.helpers[i] == h.(k := h.k + 1)
  {
    var h := s.helpers[i];
    assert HelperOk(s.job, s.data, s.mem, h);
    var (a, b) := (s.job.src + Times(h.cur, s.job.cell) + h.k, s.job.dst + Times(h.cur, s.job.cell) + h.k);
    CopiedKeeps(s, i, a, b);
    TimesBelow(h.cur, s.job.n, s.job.cell);
    assert Step(s, HelperStep(i)) == OneWord(s, i, a, b);
  }

  /** A helper that holds a cell, stepping alone, finishes just that cell. */
  lemma {:induction false} HolderFinishes(states: seq<State>, events: seq<Event>, i: nat)
    returns (states': seq<State>, events': seq<Event>)
    requires Run(states, events) && Final(states).owner == Waiting
    requires i < |Final(states).helpers| && Holding(Final(states).helpers[i])
    ensures Extends(states, events, states', events')
    ensures var s := Final(states); |events'| == |events| + CellLeft(s.helpers[i], s.job.cell)
    ensures forall n :: |events| <= n < |events'| ==> events'[n] == HelperStep(i)
    ensures var s := Final(states); Finished(s, Final(states'), i, s.helpers[i].cur)
    decreases CellLeft(Final(states).helpers[i], Final(states).job.cell)
  {
    var s := Final(states);
    RunKeepsInv(states, events, |events|);
    HolderWorks(s, i);
    states', events' := RunGoesOn(states, events, HelperStep(i));
    if CellLeft(s.helpers[i], s.job.cell) > 1 { states', events' := HolderFinishes(states', events', i); }
  }

  /** While cells are left, a helper that steps alone copies the next one, in a number of steps that the
      length of a cell tells: the cursor moves by one, the cell is done, `wait` falls by one, and the words
      of the cell are those of the source. */
  lemma NextCellIsCopied(states: seq<State>, events: seq<Event>, i: nat)
    returns (states': seq<State>, events': seq<Event>)
    requires Run(states, events) && Final(states).owner == Waiting
    requires i < |Final(states).helpers| && Final(states).helpers[i] == Rest
    requires Unpack(Final(states).curEnd).0 < Unpack(Final(states).curEnd).1
    ensures Extends(states, events, states', events') && |events'| == |events| + Final(states).job.cell + 6
    ensures forall n :: |events| <= n < |events'| ==> events'[n] == HelperStep(i)
    ensures var (s, s', cur) := (Final(states), Final(states'), Unpack(Final(states).curEnd).0);
            && Finished(Advanced(s), s', i, cur)
            && cur < s.job.n && JobOk(s.job, s.data, s'.mem) && Arrived(s.job, s.data, s'.mem, cur, s.job.cell)
  {
    var s := Final(states);
    var cur := Unpack(s.curEnd).0;
    RunKeepsInv(states, events, |events|);
    states', events' := RunGoesOn(states, events, HelperStep(i));
    states', events' := RunGoesOn(states', events', HelperStep(i));
    assert Final(states') == Advanced(s).(helpers := s.helpers[i := Claimed(cur)]);
    states', events' := HolderFinishes(states', events', i);
    RunKeepsInv(states', events', |events'|);
    assert cur in Final(states').done;
  }

  /** The cursor has moved past one more cell. */
  function Advanced(s: State): State {
    var (cur, end) := Unpack(s.curEnd);
    s.(curEnd := Pack(cur + 1, end), log := s.log + [cur])
  }

  // ----- The whole job -----

  /** If nobody holds a cell, cells are left to claim, or all are done. */
  lemma NobodyHolds(s: State)
    requires Working(s) && s.wait > 0 && forall i :: 0 <= i < |s.helpers| ==> !Holding(s.helpers[i])
    ensures Unpack(s.curEnd).0 < Unpack(s.curEnd).1
  {
    var cur := Unpack(s.curEnd).0;
    if cur == s.job.n {
      forall j: nat | j < cur ensures j in s.done { NoneCounted(s.helpers, j); }
      SetOfAll(s.done, cur);
    }
  }

  lemma {:induction false} NoneCounted(hs: seq<Helper>, j: nat)
    requires forall i :: 0 <= i < |hs| ==> !Holding(hs[i])
    ensures Count(hs, j) == 0
  {
    if hs != [] { NoneCounted(hs[1..], j); }
  }

  lemma {:induction false} SetOfAll(s: set<nat>, n: nat)
    requires forall j: nat :: j in s <==> j < n
    ensures |s| == n
  {
    if n > 0 {
      assert n - 1 in s;
      SetOfAll(s - {n - 1}, n - 1);
    } else {
      assert s == {};
    }
  }

  /** From every state of a running job with a helper, the helpers can go on until `wait` is zero. */
  lemma {:induction false} JobCanFinish(states: seq<State>, events: seq<Event>)
    returns (states': seq<State>, events': seq<Event>)
    requires Run(states, events) && Final(states).owner == Waiting && |Final(states).helpers| > 0
    ensures Extends(states, events, states', events')
    ensures forall n :: |events| <= n < |events'| ==> events'[n].HelperStep?
    ensures var (s, s') := (Final(states), Final(states'));
            && s'.owner == Waiting && s'.wait == 0 && s'.job == s.job && s'.data == s.data
            && OnlyDestination(s.job, s.mem, s'.mem)
    decreases Final(states).wait
  {
    var s := Final(states);
    RunKeepsInv(states, events, |events|);
    states', events' := states, events;
    if s.wait > 0 {
      states', events' := OneCellMore(states, events);
      states', events' := JobCanFinish(states', events');
    }
  }

  /** One cell more is finished. */
  lemma OneCellMore(states: seq<State>, events: seq<Event>) returns (states': seq<State>, events': seq<Event>)
    requires Run(states, events) && Final(states).owner == Waiting
    requires |Final(states).helpers| > 0 && Final(states).wait > 0
    ensures Extends(states, events, states', events')
    ensures forall n :: |events| <= n < |events'| ==> events'[n].HelperStep?
    ensures var (s, s') := (Final(states), Final(states'));
            && s'.owner == Waiting && s'.wait == s.wait - 1 && s'.job == s.job && s'.data == s.data
            && |s'.helpers| == |s.helpers| && OnlyDestination(s.job, s.mem, s'.mem)
  {
    var s := Final(states);
    RunKeepsInv(states, events, |events|);
    if i :| 0 <= i < |s.helpers| && Holding(s.helpers[i]) {
      states', events' := HolderFinishes(states, events, i);
    } else {
      NobodyHolds(s);
      states', events' := states, events;
      if s.helpers[0].Loaded? { states', events' := RunGoesOn(states, events, HelperStep(0)); }
      if Final(states').helpers[0] == Rest {
        states', events' := NextCellIsCopied(states', events', 0);
      } else {
        states', events' := HolderFinishes(states', events', 0);
      }
    }
  }

  // ----- From the call of `init` to the return of `wait` -----

  /** `init` publishes the job. */
  lemma JobIsPublished(states: seq<State>, events: seq<Event>, w: Job)
    returns (states': seq<State>, events': seq<Event>)
    requires Run(states, events) && Final(states).owner == Free && ValidJob(w, Final(states).mem)
    ensures Extends(states, events, states', events')
    ensures events' == events + [StartInit(w), InitStore, InitStore, InitStore, InitStore, InitStore]
    ensures var (s, s') := (Final(states), Final(states'));
            && s'.owner == Waiting && s'.job == w && Unpack(s'.curEnd) == (0, w.n) && s'.wait == w.n
            && s'.cell == w.cell && s'.src == w.src && s'.dst == w.dst
            && s'.data == s.mem[w.src..w.src + w.Len()] && s'.mem == s.mem && s'.helpers == s.helpers
  {
    states', events' := RunGoesOn(states, events, StartInit(w));
    states', events' := RunGoesOn(states', events', InitStore);
    states', events' := RunGoesOn(states', events', InitStore);
    states', events' := RunGoesOn(states', events', InitStore);
    states', events' := RunGoesOn(states', events', InitStore);
    states', events' := RunGoesOn(states', events', InitStore);
  }

  lemma HelperComes(states: seq<State>, events: seq<Event>) returns (states': seq<State>, events': seq<Event>)
    requires Run(states, events)
    ensures Extends(states, events, states', events') && |Final(states').helpers| > 0
    ensures var (s, s') := (Final(states), Final(states')); s'.owner == s.owner && s'.mem == s.mem
  {
    states', events' := states, events;
    if Final(states).helpers == [] { states', events' := RunGoesOn(states, events, NewHelper); }
  }

  /** Whenever no job runs, a copy can be made: in the end the owner is free again, the destination holds
      what the source held at the call, and the rest of memory is as it was. */
  lemma CopyCanBeDone(states: seq<State>, events: seq<Event>, w: Job)
    returns (states': seq<State>, events': seq<Event>)
    requires Run(states, events) && Final(states).owner == Free && ValidJob(w, Final(states).mem)
    ensures Extends(states, events, states', events')
    ensures var (s, s') := (Final(states), Final(states'));
            && s'.owner == Free && OnlyDestination(w, s.mem, s'.mem)
            && s'.mem[w.dst..w.dst + w.Len()] == s.mem[w.src..w.src + w.Len()]
  {
    states', events' := HelperComes(states, events);
    states', events' := JobIsPublished(states', events', w);
    states', events' := JobCanFinish(states', events');
    var n := |events'|;
    states', events' := RunGoesOn(states', events', WaitLoad);
    CopyIsComplete(states', events', n);
  }
}
