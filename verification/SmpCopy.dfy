/**
 The work-splitting copy of ftl-util: the owner publishes a job of `n` cells, any number of helper
 CPUs claim cells by compare-exchange on a packed cursor, copy them and count down `wait`; the owner
 waits for zero before it may publish the next job.

 State machine over single loads, stores and read-modify-writes.  Helpers live across jobs, so a
 cursor loaded during one job may be used in a later one.
 */
module SmpCopy {
  import opened Basics

  const U16: nat := 0x1_0000
  const U32: nat := 0x1_0000_0000

  /** `cur_end_fn` */
  function Unpack(ce: nat): (nat, nat) {
    (ce / U16, ce % U16)
  }

  /** `cur << 16 | end` as a 32-bit value, for an `end` of at most 16 bits */
  function Pack(cur: nat, end: nat): nat {
    (cur * U16) % U32 + end
  }

  datatype Job = Job(cell: nat, src: nat, dst: nat, n: nat) {
    function Len(): nat { Times(n, cell) }
  }

  datatype Helper =
    | Rest
    | Loaded(seen: nat)                        // cur_end() returned `seen`, with cur != end
    | Claimed(cur: nat)                        // compare_exchange succeeded
    | HasCell(cur: nat, cell: nat)
    | HasSrc(cur: nat, cell: nat, src: nat)
    | Copying(cur: nat, cell: nat, src: nat, dst: nat, k: nat)

  datatype Owner = Free | Init(stage: nat) | Waiting

  /** `job`, `data`, `log` and `done` are history: the job last given to `init`, the source words at
      that time, the cells claimed since, in order, and the cells counted down. */
  datatype State = State(
    curEnd: nat, wait: nat, cell: nat, src: nat, dst: nat,
    mem: seq<int>, helpers: seq<Helper>, owner: Owner,
    job: Job, data: seq<int>, log: seq<nat>, done: set<nat>)

  datatype Event =
    | StartInit(job: Job)
    | InitStore
    | WaitLoad
    | HelperStep(i: nat)
    | NewHelper
    | Outside(addr: nat, value: int)

  /** What `init` asks of its caller: slices of equal length in memory that do not overlap (Rust's
      `&mut` and `&`), a length divisible by `n`, and `n` fitting the 16-bit cursor. */
  predicate ValidJob(j: Job, mem: seq<int>) {
    && 1 <= j.n < U16
    && j.src + j.Len() <= |mem| && j.dst + j.Len() <= |mem|
    && (j.src + j.Len() <= j.dst || j.dst + j.Len() <= j.src)
  }

  predicate Inside(j: Job, addr: nat) {
    j.src <= addr < j.src + j.Len() || j.dst <= addr < j.dst + j.Len()
  }

  predicate Enabled(s: State, e: Event) {
    match e
    case StartInit(j) => s.owner == Free && ValidJob(j, s.mem)
    case InitStore => s.owner.Init?
    case WaitLoad => s.owner == Waiting
    case HelperStep(i) => i < |s.helpers|
    case NewHelper => true
    case Outside(addr, _) => addr < |s.mem| && (s.owner != Free ==> !Inside(s.job, addr))
  }

  function Helped(s: State, h: Helper): (State, Helper) {
    match h
    case Rest =>
      var (cur, end) := Unpack(s.curEnd);
      (s, if cur == end then Rest else Loaded(s.curEnd))
    case Loaded(seen) =>
      var (cur, end) := Unpack(seen);
      if s.curEnd == seen then (s.(curEnd := Pack(cur + 1, end), log := s.log + [cur]), Claimed(cur)) else (s, Rest)
    case Claimed(cur) => (s, HasCell(cur, s.cell))
    case HasCell(cur, cell) => (s, HasSrc(cur, cell, s.src))
    case HasSrc(cur, cell, src) => (s, Copying(cur, cell, src, s.dst, 0))
    case Copying(cur, cell, src, dst, k) =>
      if k < cell then
        var (a, b) := (src + Times(cur, cell) + k, dst + Times(cur, cell) + k);
        if a < |s.mem| && b < |s.mem| then
          (s.(mem := s.mem[b := s.mem[a]]), Copying(cur, cell, src, dst, k + 1))
        else (s, h)
      else (s.(wait := (s.wait + U32 - 1) % U32, done := s.done + {cur}), Rest)
  }

  function Stored(s: State, stage: nat): State {
    match stage
    case 0 => s.(cell := s.job.cell, owner := Init(1))
    case 1 => s.(wait := s.job.n % U32, owner := Init(2))
    case 2 => s.(src := s.job.src, owner := Init(3))
    case 3 => s.(dst := s.job.dst, owner := Init(4))
    case _ => s.(curEnd := s.job.n % U32, owner := Waiting)
  }

  function Step(s: State, e: Event): State
    requires Enabled(s, e)
  {
    match e
    case StartInit(j) =>
      assert ValidJob(j, s.mem);
      s.(owner := Init(0), job := j, data := s.mem[j.src..j.src + j.Len()], log := [], done := {})
    case InitStore => Stored(s, s.owner.stage)
    case WaitLoad => if s.wait == 0 then s.(owner := Free) else s
    case HelperStep(i) =>
      var (s', h') := Helped(s, s.helpers[i]);
      s'.(helpers := s'.helpers[i := h'])
    case NewHelper => s.(helpers := s.helpers + [Rest])
    case Outside(addr, v) => s.(mem := s.mem[addr := v])
  }

  /** `SmpCopy::new` on a machine with the given memory. */
  predicate Initial(s: State) {
    s.curEnd == 0 && s.wait == 0 && s.owner == Free && s.helpers == []
  }

  ghost predicate Run(states: seq<State>, events: seq<Event>) {
    && |states| == |events| + 1
    && Initial(states[0])
    && forall n :: 0 <= n < |events| ==>
         Enabled(states[n], events[n]) && states[n + 1] == Step(states[n], events[n])
  }

  // ----- Counting claims -----

  predicate Holds(h: Helper, j: nat) {
    !h.Rest? && !h.Loaded? && h.cur == j
  }

  function Count(hs: seq<Helper>, j: nat): nat {
    if hs == [] then 0 else (if Holds(hs[0], j) then 1 else 0) + Count(hs[1..], j)
  }

  lemma {:induction false} CountUpdate(hs: seq<Helper>, i: nat, h: Helper, j: nat)
    requires i < |hs|
    ensures Count(hs[i := h], j)
            == Count(hs, j) - (if Holds(hs[i], j) then 1 else 0) + (if Holds(h, j) then 1 else 0)
  {
    if i == 0 {
      assert hs[i := h][1..] == hs[1..];
    } else {
      assert hs[i := h][1..] == hs[1..][i - 1 := h];
      CountUpdate(hs[1..], i - 1, h, j);
    }
  }

  lemma {:induction false} CountRest(hs: seq<Helper>, j: nat)
    ensures Count(hs + [Rest], j) == Count(hs, j)
  {
    if hs == [] {
      assert hs + [Rest] == [Rest];
    } else {
      assert (hs + [Rest])[1..] == hs[1..] + [Rest];
      CountRest(hs[1..], j);
    }
  }

  lemma {:induction false} CountAt(hs: seq<Helper>, i: nat, j: nat)
    requires i < |hs|
    ensures Holds(hs[i], j) ==> Count(hs, j) >= 1
  {
    if i > 0 { CountAt(hs[1..], i - 1, j); }
  }

  lemma {:induction false} CountTwo(hs: seq<Helper>, i: nat, k: nat, j: nat)
    requires i < k < |hs| && Holds(hs[i], j) && Holds(hs[k], j)
    ensures Count(hs, j) >= 2
  {
    if i == 0 { CountAt(hs[1..], k - 1, j); } else { CountTwo(hs[1..], i - 1, k - 1, j); }
  }

  // ----- The invariant -----

  /** A job, its source words and the memory it runs in. */
  predicate JobOk(w: Job, data: seq<int>, mem: seq<int>) {
    && ValidJob(w, mem) && |data| == w.Len()
    && forall a :: w.src <= a < w.src + w.Len() ==> mem[a] == data[a - w.src]
  }

  /** The first `k` words of cell `j` have arrived. */
  predicate Arrived(w: Job, data: seq<int>, mem: seq<int>, j: nat, k: nat)
    requires j < w.n && k <= w.cell && JobOk(w, data, mem)
  {
    TimesBelow(j, w.n, w.cell);
    var lo := Times(j, w.cell);
    forall a :: w.dst + lo <= a < w.dst + lo + k ==> mem[a] == data[a - w.dst]
  }

  predicate HelperOk(w: Job, data: seq<int>, mem: seq<int>, h: Helper)
    requires JobOk(w, data, mem)
  {
    match h
    case Rest => true
    case Loaded(seen) => seen < U32 && Unpack(seen).0 < Unpack(seen).1
    case Claimed(cur) => cur < w.n
    case HasCell(cur, cell) => cur < w.n && cell == w.cell
    case HasSrc(cur, cell, src) => cur < w.n && cell == w.cell && src == w.src
    case Copying(cur, cell, src, dst, k) =>
      && cur < w.n && cell == w.cell && src == w.src && dst == w.dst
      && k <= cell && Arrived(w, data, mem, cur, k)
  }

  predicate StaleOk(h: Helper) {
    h.Rest? || (h.Loaded? && h.seen < U32 && Unpack(h.seen).0 < Unpack(h.seen).1)
  }

  /** Nobody can claim: the cursor is at its end and no helper holds a cell. */
  predicate Quiet(s: State) {
    && s.curEnd < U32 && Unpack(s.curEnd).0 == Unpack(s.curEnd).1
    && forall i :: 0 <= i < |s.helpers| ==> StaleOk(s.helpers[i])
  }

  predicate Stages(s: State, stage: nat) {
    && stage <= 4
    && (stage >= 1 ==> s.cell == s.job.cell)
    && (stage >= 2 ==> s.wait == s.job.n)
    && (stage >= 3 ==> s.src == s.job.src)
    && (stage >= 4 ==> s.dst == s.job.dst)
  }

  ghost predicate Working(s: State) {
    var (cur, end) := Unpack(s.curEnd);
    && JobOk(s.job, s.data, s.mem)
    && s.curEnd < U32 && cur <= end == s.job.n
    && s.cell == s.job.cell && s.src == s.job.src && s.dst == s.job.dst
    && |s.log| == cur && (forall i :: 0 <= i < cur ==> s.log[i] == i)
    && (forall j :: j in s.done ==> j < cur && Arrived(s.job, s.data, s.mem, j, s.job.cell))
    && s.wait == s.job.n - |s.done|
    && (forall j: nat :: Count(s.helpers, j) == if j < cur && j !in s.done then 1 else 0)
    && (forall i :: 0 <= i < |s.helpers| ==> HelperOk(s.job, s.data, s.mem, s.helpers[i]))
  }

  ghost predicate Inv(s: State) {
    match s.owner
    case Free => Quiet(s) && s.wait == 0
    case Init(stage) => Quiet(s) && JobOk(s.job, s.data, s.mem) && Stages(s, stage) && s.log == [] && s.done == {}
    case Waiting => Working(s)
  }

  // ----- Steps -----

  /** A write outside the source and outside the part of cell `j` that has arrived. */
  lemma ArrivedFrame(w: Job, data: seq<int>, mem: seq<int>, b: nat, v: int, j: nat, k: nat)
    requires JobOk(w, data, mem) && b < |mem| && JobOk(w, data, mem[b := v])
    requires j < w.n && k <= w.cell && Arrived(w, data, mem, j, k)
    requires b < w.dst + Times(j, w.cell) || w.dst + Times(j, w.cell) + k <= b
    ensures Arrived(w, data, mem[b := v], j, k)
  {
    TimesBelow(j, w.n, w.cell);
  }

  lemma SourceFrame(w: Job, data: seq<int>, mem: seq<int>, b: nat, v: int)
    requires JobOk(w, data, mem) && b < |mem| && !(w.src <= b < w.src + w.Len())
    ensures JobOk(w, data, mem[b := v])
  {
  }

  lemma OutsideKeeps(s: State, addr: nat, v: int)
    requires Inv(s) && Enabled(s, Outside(addr, v))
    ensures Inv(Step(s, Outside(addr, v)))
  {
    if s.owner != Free { SourceFrame(s.job, s.data, s.mem, addr, v); }
    if s.owner == Waiting {
      forall j | j in s.done ensures Arrived(s.job, s.data, s.mem[addr := v], j, s.job.cell) {
        TimesBelow(j, s.job.n, s.job.cell);
        ArrivedFrame(s.job, s.data, s.mem, addr, v, j, s.job.cell);
      }
      forall i | 0 <= i < |s.helpers| ensures HelperOk(s.job, s.data, s.mem[addr := v], s.helpers[i]) {
        var h := s.helpers[i];
        if h.Copying? {
          TimesBelow(h.cur, s.job.n, s.job.cell);
          ArrivedFrame(s.job, s.data, s.mem, addr, v, h.cur, h.k);
        }
      }
    }
  }

  lemma {:induction false} CountNone(hs: seq<Helper>, j: nat)
    requires forall i :: 0 <= i < |hs| ==> StaleOk(hs[i])
    ensures Count(hs, j) == 0
  {
    if hs != [] { CountNone(hs[1..], j); }
  }

  lemma InitStoreKeeps(s: State)
    requires Inv(s) && Enabled(s, InitStore)
    ensures Inv(Step(s, InitStore))
  {
    if s.owner.stage == 4 {
      var s' := Step(s, InitStore);
      forall j: nat ensures Count(s'.helpers, j) == 0 { CountNone(s'.helpers, j); }
      forall i | 0 <= i < |s'.helpers| ensures HelperOk(s.job, s.data, s.mem, s'.helpers[i]) {
        assert StaleOk(s.helpers[i]);
      }
    }
  }

  lemma NewHelperKeeps(s: State)
    requires Inv(s)
    ensures Inv(Step(s, NewHelper))
  {
    var s' := Step(s, NewHelper);
    forall j: nat ensures Count(s'.helpers, j) == Count(s.helpers, j) { CountRest(s.helpers, j); }
  }

  /** Helpers that hold nothing can only load the cursor or fail their exchange. */
  lemma StaleKeeps(s: State, i: nat)
    requires Inv(s) && s.owner != Waiting && i < |s.helpers|
    ensures Inv(Step(s, HelperStep(i)))
  {
    assert StaleOk(s.helpers[i]);
  }

  // ----- Helper steps during a job -----

  lemma ClaimPacks(seen: nat)
    requires seen < U32 && Unpack(seen).0 < Unpack(seen).1
    ensures var (cur, end) := Unpack(seen);
            Pack(cur + 1, end) < U32 && Unpack(Pack(cur + 1, end)) == (cur + 1, end)
  {
  }

  lemma ClaimKeeps(s: State, i: nat)
    requires Working(s) && s.owner == Waiting && i < |s.helpers| && s.helpers[i].Loaded?
    ensures Working(Step(s, HelperStep(i)))
  {
    var (h, s') := (s.helpers[i], Step(s, HelperStep(i)));
    assert HelperOk(s.job, s.data, s.mem, h);
    if s.curEnd == h.seen {
      var cur := Unpack(h.seen).0;
      ClaimPacks(h.seen);
      forall j: nat ensures Count(s'.helpers, j) == if j < cur + 1 && j !in s.done then 1 else 0 {
        CountUpdate(s.helpers, i, Claimed(cur), j);
      }
    } else {
      forall j: nat ensures Count(s'.helpers, j) == Count(s.helpers, j) {
        CountUpdate(s.helpers, i, Rest, j);
      }
    }
  }

  /** Loads: no change besides the helper itself. */
  lemma LoadKeeps(s: State, i: nat)
    requires Working(s) && s.owner == Waiting && i < |s.helpers|
    requires var h := s.helpers[i]; h.Rest? || h.Claimed? || h.HasCell? || h.HasSrc?
    ensures Working(Step(s, HelperStep(i)))
  {
    var (h, s') := (s.helpers[i], Step(s, HelperStep(i)));
    assert HelperOk(s.job, s.data, s.mem, h);
    if h.HasSrc? {
      TimesBelow(h.cur, s.job.n, s.job.cell);
      assert Arrived(s.job, s.data, s.mem, h.cur, 0);
    }
    assert HelperOk(s.job, s.data, s.mem, s'.helpers[i]);
    forall j: nat ensures Count(s'.helpers, j) == Count(s.helpers, j) {
      CountUpdate(s.helpers, i, s'.helpers[i], j);
    }
  }

  lemma OnlyHolder(s: State, i: nat, k: nat)
    requires Working(s) && i < |s.helpers| && k < |s.helpers| && i != k
    requires s.helpers[i].Copying? && s.helpers[k].Copying?
    ensures s.helpers[i].cur != s.helpers[k].cur
  {
    var j := s.helpers[i].cur;
    if s.helpers[k].cur == j {
      if i < k { CountTwo(s.helpers, i, k, j); } else { CountTwo(s.helpers, k, i, j); }
      assert false;
    }
  }

  lemma CopyWordArrives(w: Job, data: seq<int>, mem: seq<int>, j: nat, k: nat)
    requires JobOk(w, data, mem) && j < w.n && k < w.cell && Arrived(w, data, mem, j, k)
    ensures var (a, b) := (w.src + Times(j, w.cell) + k, w.dst + Times(j, w.cell) + k);
            && a < |mem| && b < |mem| && JobOk(w, data, mem[b := mem[a]])
            && Arrived(w, data, mem[b := mem[a]], j, k + 1)
  {
    TimesBelow(j, w.n, w.cell);
  }

  lemma OthersKeep(s: State, i: nat, v: int)
    requires Working(s) && i < |s.helpers|
    requires s.helpers[i].Copying? && s.helpers[i].k < s.helpers[i].cell
    requires var b := s.job.dst + Times(s.helpers[i].cur, s.job.cell) + s.helpers[i].k;
             b < |s.mem| && JobOk(s.job, s.data, s.mem[b := v])
    ensures var b := s.job.dst + Times(s.helpers[i].cur, s.job.cell) + s.helpers[i].k;
            && (forall j :: j in s.done ==> Arrived(s.job, s.data, s.mem[b := v], j, s.job.cell))
            && (forall k :: 0 <= k < |s.helpers| && k != i ==> HelperOk(s.job, s.data, s.mem[b := v], s.helpers[k]))
  {
    var h := s.helpers[i];
    var b := s.job.dst + Times(h.cur, s.job.cell) + h.k;
    assert HelperOk(s.job, s.data, s.mem, h);
    CountAt(s.helpers, i, h.cur);
    forall j | j in s.done ensures Arrived(s.job, s.data, s.mem[b := v], j, s.job.cell) {
      TimesApart(h.cur, j, s.job.cell);
      ArrivedFrame(s.job, s.data, s.mem, b, v, j, s.job.cell);
    }
    forall k: nat | k < |s.helpers| && k != i ensures HelperOk(s.job, s.data, s.mem[b := v], s.helpers[k]) {
      if s.helpers[k].Copying? {
        OnlyHolder(s, i, k);
        TimesApart(h.cur, s.helpers[k].cur, s.job.cell);
        ArrivedFrame(s.job, s.data, s.mem, b, v, s.helpers[k].cur, s.helpers[k].k);
      }
    }
  }

  /** The state after one more word. */
  function OneWord(s: State, i: nat, a: nat, b: nat): State
    requires i < |s.helpers| && s.helpers[i].Copying? && a < |s.mem| && b < |s.mem|
  {
    s.(mem := s.mem[b := s.mem[a]], helpers := s.helpers[i := s.helpers[i].(k := s.helpers[i].k + 1)])
  }

  lemma OneWordKeeps(s: State, i: nat, a: nat, b: nat)
    requires Working(s) && i < |s.helpers| && s.helpers[i].Copying? && a < |s.mem| && b < |s.mem|
    requires var (h, mem') := (s.helpers[i], s.mem[b := s.mem[a]]);
             && h.k < h.cell && h.cur < s.job.n && h.cell == s.job.cell
             && JobOk(s.job, s.data, mem') && Arrived(s.job, s.data, mem', h.cur, h.k + 1)
             && (forall j :: j in s.done ==> Arrived(s.job, s.data, mem', j, s.job.cell))
             && (forall k :: 0 <= k < |s.helpers| && k != i ==> HelperOk(s.job, s.data, mem', s.helpers[k]))
    ensures Working(OneWord(s, i, a, b))
  {
    var h' := s.helpers[i].(k := s.helpers[i].k + 1);
    assert HelperOk(s.job, s.data, s.mem, s.helpers[i]);
    forall j: nat ensures Count(s.helpers[i := h'], j) == Count(s.helpers, j) {
      CountUpdate(s.helpers, i, h', j);
    }
  }

  lemma CopiedKeeps(s: State, i: nat, a: nat, b: nat)
    requires Working(s) && i < |s.helpers| && s.helpers[i].Copying? && s.helpers[i].k < s.helpers[i].cell
    requires a == s.job.src + Times(s.helpers[i].cur, s.job.cell) + s.helpers[i].k
    requires b == s.job.dst + Times(s.helpers[i].cur, s.job.cell) + s.helpers[i].k
    ensures a < |s.mem| && b < |s.mem| && Working(OneWord(s, i, a, b))
  {
    var h := s.helpers[i];
    assert HelperOk(s.job, s.data, s.mem, h);
    CopyWordArrives(s.job, s.data, s.mem, h.cur, h.k);
    OthersKeep(s, i, s.mem[a]);
    OneWordKeeps(s, i, a, b);
  }

  lemma CopyKeeps(s: State, i: nat)
    requires Working(s) && s.owner == Waiting && i < |s.helpers|
    requires s.helpers[i].Copying? && s.helpers[i].k < s.helpers[i].cell
    ensures Working(Step(s, HelperStep(i)))
  {
    var h := s.helpers[i];
    assert HelperOk(s.job, s.data, s.mem, h);
    var (a, b) := (s.job.src + Times(h.cur, s.job.cell) + h.k, s.job.dst + Times(h.cur, s.job.cell) + h.k);
    CopiedKeeps(s, i, a, b);
    assert Step(s, HelperStep(i)) == OneWord(s, i, a, b);
  }

  lemma FinishKeeps(s: State, i: nat)
    requires Working(s) && s.owner == Waiting && i < |s.helpers|
    requires s.helpers[i].Copying? && s.helpers[i].k >= s.helpers[i].cell
    ensures s.wait >= 1
    ensures Working(Step(s, HelperStep(i)))
  {
    var (h, s') := (s.helpers[i], Step(s, HelperStep(i)));
    assert HelperOk(s.job, s.data, s.mem, h);
    CountAt(s.helpers, i, h.cur);
    FullSet(s'.done, s.job.n);
    forall j: nat ensures Count(s'.helpers, j) == if j < Unpack(s.curEnd).0 && j !in s'.done then 1 else 0 {
      CountUpdate(s.helpers, i, Rest, j);
    }
  }

  lemma {:induction false} FullSet(s: set<nat>, n: nat)
    requires forall j :: j in s ==> j < n
    ensures |s| <= n
    ensures |s| == n ==> forall j :: 0 <= j < n ==> j in s
  {
    if n > 0 {
      var s' := s - {n - 1};
      FullSet(s', n - 1);
    }
  }

  lemma WaitLoadKeeps(s: State)
    requires Inv(s) && Enabled(s, WaitLoad)
    ensures Inv(Step(s, WaitLoad))
  {
    if s.wait == 0 {
      FullSet(s.done, s.job.n);
      assert Unpack(s.curEnd).0 == s.job.n by {
        if Unpack(s.curEnd).0 < s.job.n { FullSet(s.done, Unpack(s.curEnd).0); }
      }
      forall i | 0 <= i < |s.helpers| ensures StaleOk(s.helpers[i]) {
        var h := s.helpers[i];
        if !h.Rest? && !h.Loaded? {
          CountAt(s.helpers, i, h.cur);
          assert false;
        }
      }
    }
  }

  lemma StepKeepsInv(s: State, e: Event)
    requires Inv(s) && Enabled(s, e)
    ensures Inv(Step(s, e))
  {
    match e
    case StartInit(j) =>
    case InitStore => InitStoreKeeps(s);
    case WaitLoad => WaitLoadKeeps(s);
    case NewHelper => NewHelperKeeps(s);
    case Outside(addr, v) => OutsideKeeps(s, addr, v);
    case HelperStep(i) =>
      if s.owner != Waiting {
        StaleKeeps(s, i);
      } else {
        var h := s.helpers[i];
        if h.Loaded? {
          ClaimKeeps(s, i);
        } else if !h.Copying? {
          LoadKeeps(s, i);
        } else if h.k < h.cell {
          CopyKeeps(s, i);
        } else {
          FinishKeeps(s, i);
        }
      }
  }

  lemma {:induction false} RunKeepsInv(states: seq<State>, events: seq<Event>, n: nat)
    requires Run(states, events) && n < |states|
    ensures Inv(states[n])
  {
    if n > 0 {
      RunKeepsInv(states, events, n - 1);
      StepKeepsInv(states[n - 1], events[n - 1]);
    }
  }

  // ----- What every run guarantees -----

  lemma {:induction false} AllArrived(s: State, n: nat)
    requires Working(s) && s.wait == 0 && n <= s.job.n
    ensures Times(n, s.job.cell) <= s.job.Len()
    ensures forall a :: s.job.dst <= a < s.job.dst + Times(n, s.job.cell) ==> s.mem[a] == s.data[a - s.job.dst]
  {
    FullSet(s.done, s.job.n);
    if n > 0 {
      AllArrived(s, n - 1);
      TimesBelow(n - 1, s.job.n, s.job.cell);
      assert n - 1 in s.done && Arrived(s.job, s.data, s.mem, n - 1, s.job.cell);
    }
  }

  /** When `wait` sees zero, the destination equals the source as it was when the job was published,
      the source is unchanged, and the claims since were exactly the cells, each once, in order. */
  lemma CopyIsComplete(states: seq<State>, events: seq<Event>, n: nat)
    requires Run(states, events) && n < |events|
    requires events[n] == WaitLoad && states[n].wait == 0
    ensures var s := states[n];
            && ValidJob(s.job, s.mem)
            && s.mem[s.job.dst..s.job.dst + s.job.Len()] == s.data == s.mem[s.job.src..s.job.src + s.job.Len()]
            && s.log == seq(s.job.n, i requires 0 <= i < s.job.n => i)
  {
    RunKeepsInv(states, events, n);
    var s := states[n];
    AllArrived(s, s.job.n);
    FullSet(s.done, s.job.n);
    if Unpack(s.curEnd).0 < s.job.n { FullSet(s.done, Unpack(s.curEnd).0); }
  }

  /** While a job runs, `wait` is the number of cells not yet finished: those not claimed plus those
      in the hands of exactly one helper; and `run`'s own assertions hold. */
  lemma WaitCountsUnfinished(states: seq<State>, events: seq<Event>, n: nat)
    requires Run(states, events) && n < |states| && states[n].owner == Waiting
    ensures var s := states[n]; var (cur, end) := Unpack(s.curEnd);
            && cur <= end == s.job.n
            && s.wait == s.job.n - |s.done|
            && (forall j :: j in s.done ==> j < cur)
            && (forall j :: 0 <= j < cur && j !in s.done ==> Count(s.helpers, j) == 1)
            && (forall j: nat :: j >= cur || j in s.done ==> Count(s.helpers, j) == 0)
            && (forall i :: 0 <= i < |s.helpers| && !s.helpers[i].Rest? && !s.helpers[i].Loaded? ==> s.wait >= 1)
  {
    RunKeepsInv(states, events, n);
    var s := states[n];
    forall i | 0 <= i < |s.helpers| && !s.helpers[i].Rest? && !s.helpers[i].Loaded? ensures s.wait >= 1 {
      var j := s.helpers[i].cur;
      CountAt(s.helpers, i, j);
      FullSet(s.done + {j}, s.job.n);
    }
  }

  /** Outside a job nobody can claim a cell, even with a cursor loaded during an earlier job. */
  lemma NoClaimBetweenJobs(states: seq<State>, events: seq<Event>, n: nat, i: nat)
    requires Run(states, events) && n < |events| && events[n] == HelperStep(i)
    requires states[n].owner != Waiting
    ensures states[n + 1] == states[n].(helpers := states[n + 1].helpers)
    ensures StaleOk(states[n + 1].helpers[i])
  {
    RunKeepsInv(states, events, n);
    RunKeepsInv(states, events, n + 1);
    assert StaleOk(states[n].helpers[i]);
  }

  /** A helper step changes memory only inside the destination of the running job. */
  lemma HelpersWriteOnlyDestination(states: seq<State>, events: seq<Event>, n: nat, i: nat, a: nat)
    requires Run(states, events) && n < |events| && events[n] == HelperStep(i)
    requires a < |states[n].mem|
    ensures |states[n + 1].mem| == |states[n].mem|
    ensures states[n + 1].mem[a] != states[n].mem[a] ==>
              var j := states[n].job; states[n].owner == Waiting && j.dst <= a < j.dst + j.Len()
  {
    RunKeepsInv(states, events, n);
    var s := states[n];
    var h := s.helpers[i];
    if s.owner == Waiting {
      assert HelperOk(s.job, s.data, s.mem, h);
      if h.Copying? { TimesBelow(h.cur, s.job.n, s.job.cell); }
    } else {
      assert StaleOk(h);
    }
  }

  /** The 16-bit limit is exact: `init` publishes an empty cursor and the full end if and only if the
      cell count fits in 16 bits (its own assertion only asks for less than 32 bits). */
  lemma PublishesIffSixteenBits(n: nat)
    requires n < U32
    ensures Unpack(n % U32) == (0, n) <==> n < U16
  {
  }
}
