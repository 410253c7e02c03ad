/**
 The replacement scan that the FAT unit cache and the data block cache share.  A cached block has two
 access numbers: the one it is filed under in `clean`, and the one of its last use, which the users of
 the block renew without touching the maps.
 */
module Eviction {
  import opened Basics

  type Block = seq<nat>

  /** A cached block: the number it is filed under, that of its last use, and its contents. */
  datatype Unit = Unit(aid: nat, used: nat, content: Block)

  /** `search` is the disjoint union of `clean` and `dirty`, with matching access numbers. */
  ghost predicate Matched(search: map<nat, Unit>, clean: map<nat, nat>, dirty: set<nat>) {
    && (forall u :: u in dirty ==> u in search)
    && (forall a :: a in clean ==> clean[a] in search && search[clean[a]].aid == a && clean[a] !in dirty)
    && (forall u :: u in search && u !in dirty ==> search[u].aid in clean && clean[search[u].aid] == u)
  }

  /** Access numbers are drawn in order, each for one block: `drawn[a]` had the number `a`. */
  ghost predicate Numbered(search: map<nat, Unit>, drawn: seq<nat>) {
    forall u :: u in search ==>
      && search[u].aid < |drawn| && drawn[search[u].aid] == u
      && search[u].used < |drawn| && drawn[search[u].used] == u
  }

  /** Nothing but access numbers of clean blocks differs. */
  ghost predicate SameBlocks(search: map<nat, Unit>, search': map<nat, Unit>, dirty: set<nat>) {
    && (forall u :: u in search <==> u in search')
    && (forall u :: u in search ==> search'[u].content == search[u].content)
    && (forall u :: u in search && u in dirty ==> search'[u] == search[u])
  }

  function CleanBlocks(search: map<nat, Unit>, dirty: set<nat>): set<nat> {
    set u | u in search && u !in dirty
  }

  /** Blocks not in use keep the number of their last use, and are filed under it or as before. */
  ghost predicate KeepsNumbers(search: map<nat, Unit>, search': map<nat, Unit>, dirty: set<nat>, pins: multiset<nat>) {
    forall u :: u in search' && u in search && u !in dirty && u !in pins ==>
      && search'[u].used == search[u].used
      && (search'[u].aid == search[u].aid || search'[u].aid == search[u].used)
  }

  /** The outcome of a successful scan: the unpinned clean block `v` left, and it was filed first. */
  ghost predicate Evicted(search: map<nat, Unit>, dirty: set<nat>, pins: multiset<nat>, drawn: seq<nat>,
                          v: nat, search': map<nat, Unit>, clean': map<nat, nat>, drawn': seq<nat>) {
    && v in search && v !in dirty && v !in pins
    && SameBlocks(search - {v}, search', dirty) && KeepsNumbers(search, search', dirty, pins)
    && Matched(search', clean', dirty) && Numbered(search', drawn') && |drawn| <= |drawn'|
    && (forall a :: a in clean' ==> search[v].used < a)
  }

  /** The outcome of a failed scan: all is in place but for one block, lost from `clean`, so that marking
      it dirty would not find it there. */
  ghost predicate Lost(search: map<nat, Unit>, dirty: set<nat>, w: nat, search': map<nat, Unit>, clean': map<nat, nat>) {
    && w in search && w !in dirty
    && SameBlocks(search, search', dirty)
    && search'[w].aid !in clean' && Matched(search' - {w}, clean', dirty)
  }

  ghost predicate AllPinned(search: map<nat, Unit>, dirty: set<nat>, pins: multiset<nat>) {
    forall u :: u in search && u !in dirty ==> u in pins
  }

  /** After a failed scan the partition no longer holds. */
  lemma LostBreaksPartition(search: map<nat, Unit>, dirty: set<nat>, w: nat, search': map<nat, Unit>, clean': map<nat, nat>)
    requires Lost(search, dirty, w, search', clean')
    ensures !Matched(search', clean', dirty)
  {
    assert w in search' && w !in dirty;
  }

  // ----- The scan, pop by pop -----

  /** Pops that may still come for one block: two if its number is outdated, none once renewed. */
  function TurnsOf(search: map<nat, Unit>, dirty: set<nat>, limit: nat, u: nat): nat {
    if u !in search || u in dirty || search[u].aid >= limit then 0
    else if search[u].aid == search[u].used then 1
    else 2
  }

  /** A pop of block `u` has used up one of its turns, and no block got more. */
  ghost predicate TurnUsed(search: map<nat, Unit>, search': map<nat, Unit>, dirty: set<nat>, limit: nat, u: nat) {
    && TurnsOf(search', dirty, limit, u) < TurnsOf(search, dirty, limit, u)
    && forall x :: TurnsOf(search', dirty, limit, x) <= TurnsOf(search, dirty, limit, x)
  }

  /** No block has been popped more often than its turns allow. */
  ghost predicate InTurn(popped: multiset<nat>, search: map<nat, Unit>, dirty: set<nat>, limit: nat) {
    forall u :: popped[u] + TurnsOf(search, dirty, limit, u) <= 2
  }

  lemma PoppedInTurn(popped: multiset<nat>, search: map<nat, Unit>, search': map<nat, Unit>, dirty: set<nat>, limit: nat, u: nat)
    requires InTurn(popped, search, dirty, limit) && TurnUsed(search, search', dirty, limit, u)
    ensures InTurn(popped + multiset{u}, search', dirty, limit)
  {
  }

  lemma PoppedLast(popped: multiset<nat>, search: map<nat, Unit>, dirty: set<nat>, limit: nat, u: nat)
    requires InTurn(popped, search, dirty, limit)
    ensures forall x :: (popped + multiset{u})[x] <= if x == u then 3 - TurnsOf(search, dirty, limit, u) else 2
  {
  }

  /** A clean block is still waiting with its old numbers, or was found pinned and renewed. */
  ghost predicate Progress(search0: map<nat, Unit>, search: map<nat, Unit>, dirty: set<nat>, pins: multiset<nat>, limit: nat) {
    forall u :: u in search && u in search0 && u !in dirty ==>
      || (&& search[u].aid < limit && search[u].used == search0[u].used < limit
          && (search[u].aid == search0[u].aid || search[u].aid == search0[u].used))
      || (limit < search[u].aid == search[u].used && u in pins)
  }

  /** The scan that began with `search0` and drew the number `limit`. */
  ghost predicate Scanning(search0: map<nat, Unit>, search: map<nat, Unit>, clean: map<nat, nat>, drawn: seq<nat>,
                           dirty: set<nat>, pins: multiset<nat>, limit: nat) {
    && Matched(search, clean, dirty) && Numbered(search, drawn) && limit < |drawn|
    && SameBlocks(search0, search, dirty) && Progress(search0, search, dirty, pins, limit)
  }

  /** Blocks whose turn may still come. */
  function Waiting(search: map<nat, Unit>, dirty: set<nat>, limit: nat): set<nat> {
    set u | u in search && u !in dirty && search[u].aid < limit
  }

  /** Those of them that are filed under their last use. */
  function Settled(search: map<nat, Unit>, dirty: set<nat>, limit: nat): set<nat> {
    set u | u in search && u !in dirty && search[u].aid < limit && search[u].aid == search[u].used
  }

  /** Pops still possible: two for a block with an outdated number, one for the others. */
  function Turns(search: map<nat, Unit>, dirty: set<nat>, limit: nat): nat {
    CardinalityBelow(Settled(search, dirty, limit), Waiting(search, dirty, limit));
    2 * |Waiting(search, dirty, limit)| - |Settled(search, dirty, limit)|
  }

  lemma {:induction false} CardinalityBelow<T>(a: set<T>, b: set<T>)
    requires a <= b
    ensures |a| <= |b|
  {
    if x :| x in a { CardinalityBelow(a - {x}, b - {x}); }
  }

  function Without(clean: map<nat, nat>, aid: nat): map<nat, nat> {
    clean - {aid}
  }

  function Moved(clean: map<nat, nat>, aid: nat, aid': nat, u: nat): map<nat, nat> {
    (clean - {aid})[aid' := u]
  }

  /** A popped block with an outdated number goes back under that of its last use. */
  function Refiled(search: map<nat, Unit>, u: nat): map<nat, Unit>
    requires u in search
  {
    search[u := search[u].(aid := search[u].used)]
  }

  /** A popped block in use goes back under a new number. */
  function Renewed(search: map<nat, Unit>, u: nat, aid: nat): map<nat, Unit>
    requires u in search
  {
    search[u := search[u].(aid := aid, used := aid)]
  }

  lemma RefiledTurns(search: map<nat, Unit>, dirty: set<nat>, limit: nat, u: nat)
    requires u in search && u !in dirty && search[u].aid < limit && search[u].used < limit && search[u].aid != search[u].used
    ensures Turns(Refiled(search, u), dirty, limit) == Turns(search, dirty, limit) - 1
    ensures TurnUsed(search, Refiled(search, u), dirty, limit, u)
  {
    assert Waiting(Refiled(search, u), dirty, limit) == Waiting(search, dirty, limit);
    assert Settled(Refiled(search, u), dirty, limit) == Settled(search, dirty, limit) + {u};
    assert u !in Settled(search, dirty, limit);
  }

  lemma RenewedTurns(search: map<nat, Unit>, dirty: set<nat>, limit: nat, u: nat, aid: nat)
    requires u in search && u !in dirty && search[u].aid == search[u].used < limit < aid
    ensures Turns(Renewed(search, u, aid), dirty, limit) == Turns(search, dirty, limit) - 1
    ensures TurnUsed(search, Renewed(search, u, aid), dirty, limit, u)
  {
    assert Waiting(Renewed(search, u, aid), dirty, limit) == Waiting(search, dirty, limit) - {u};
    assert Settled(Renewed(search, u, aid), dirty, limit) == Settled(search, dirty, limit) - {u};
    assert u in Settled(search, dirty, limit) && u in Waiting(search, dirty, limit);
  }

  /** Filing a block under a number of its own keeps the maps in step. */
  lemma Rekeyed(search: map<nat, Unit>, clean: map<nat, nat>, dirty: set<nat>, drawn: seq<nat>, u: nat, aid: nat, used: nat)
    requires Matched(search, clean, dirty) && Numbered(search, drawn) && u in search && u !in dirty
    requires aid < |drawn| && drawn[aid] == u && used < |drawn| && drawn[used] == u
    ensures search[u].aid in clean && (aid in clean ==> aid == search[u].aid)
    ensures Matched(search[u := search[u].(aid := aid, used := used)], Moved(clean, search[u].aid, aid, u), dirty)
    ensures Numbered(search[u := search[u].(aid := aid, used := used)], drawn)
  {
    if aid in clean { assert drawn[search[clean[aid]].aid] == clean[aid]; }
  }

  lemma RefileStep(search0: map<nat, Unit>, search: map<nat, Unit>, clean: map<nat, nat>, drawn: seq<nat>,
                   dirty: set<nat>, pins: multiset<nat>, limit: nat, u: nat)
    requires Scanning(search0, search, clean, drawn, dirty, pins, limit) && u in search && u !in dirty
    requires search[u].aid < limit && search[u].used != search[u].aid
    ensures search[u].used !in clean
    ensures Scanning(search0, Refiled(search, u), Moved(clean, search[u].aid, search[u].used, u), drawn, dirty, pins, limit)
    ensures Turns(Refiled(search, u), dirty, limit) == Turns(search, dirty, limit) - 1
    ensures TurnUsed(search, Refiled(search, u), dirty, limit, u)
  {
    assert u in search0;
    Rekeyed(search, clean, dirty, drawn, u, search[u].used, search[u].used);
    RefiledTurns(search, dirty, limit, u);
  }

  lemma RenewStep(search0: map<nat, Unit>, search: map<nat, Unit>, clean: map<nat, nat>, drawn: seq<nat>,
                  dirty: set<nat>, pins: multiset<nat>, limit: nat, u: nat)
    requires Scanning(search0, search, clean, drawn, dirty, pins, limit) && u in search && u !in dirty && u in pins
    requires search[u].aid < limit && search[u].used == search[u].aid
    ensures |drawn| !in clean
    ensures Scanning(search0, Renewed(search, u, |drawn|), Moved(clean, search[u].aid, |drawn|, u), drawn + [u], dirty, pins, limit)
    ensures Turns(Renewed(search, u, |drawn|), dirty, limit) == Turns(search, dirty, limit) - 1
    ensures TurnUsed(search, Renewed(search, u, |drawn|), dirty, limit, u)
  {
    var drawn' := drawn + [u];
    assert Numbered(search, drawn');
    Rekeyed(search, clean, dirty, drawn', u, |drawn|, |drawn|);
    RenewedTurns(search, dirty, limit, u, |drawn|);
  }

  lemma EvictStep(search0: map<nat, Unit>, search: map<nat, Unit>, clean: map<nat, nat>, drawn0: seq<nat>, drawn: seq<nat>,
                  dirty: set<nat>, pins: multiset<nat>, u: nat)
    requires Scanning(search0, search, clean, drawn, dirty, pins, |drawn0|) && u in search && u !in dirty && u !in pins
    requires search[u].used == search[u].aid < |drawn0| <= |drawn|
    requires forall a :: a in clean && a != search[u].aid ==> search[u].aid < a
    ensures Evicted(search0, dirty, pins, drawn0, u, search - {u}, Without(clean, search[u].aid), drawn)
  {
    assert u in search0;
  }

  /** The first number left is past the limit: every clean block was found in use. */
  lemma FailStep(search0: map<nat, Unit>, search: map<nat, Unit>, clean: map<nat, nat>, drawn: seq<nat>,
                 dirty: set<nat>, pins: multiset<nat>, limit: nat, aid: nat)
    requires Scanning(search0, search, clean, drawn, dirty, pins, limit) && aid in clean
    requires limit < aid && forall a :: a in clean ==> aid <= a
    ensures Lost(search0, dirty, clean[aid], search, Without(clean, aid))
    ensures AllPinned(search0, dirty, pins)
  {
  }

  lemma {:induction false} LeastExists(s: set<nat>)
    requires s != {}
    ensures exists a :: a in s && forall b :: b in s ==> a <= b
  {
    var x :| x in s;
    if y :| y in s && y < x {
      LeastBelow(s, x);
    } else {
      assert forall b :: b in s ==> x <= b;
    }
  }

  lemma {:induction false} LeastBelow(s: set<nat>, x: nat)
    requires exists y :: y in s && y < x
    ensures exists a :: a in s && forall b :: b in s ==> a <= b
    decreases x
  {
    var y :| y in s && y < x;
    if z :| z in s && z < y {
      LeastBelow(s, y);
    } else {
      assert forall b :: b in s ==> y <= b;
    }
  }

  datatype NoBuffers = ENOBUFS

  datatype Popped = Again(u: nat) | Victim(u: nat) | Full(u: nat)

  /** The first key of a map. */
  method First(m: map<nat, nat>) returns (k: nat)
    requires m != map[]
    ensures k in m && forall a :: a in m ==> k <= a
  {
    LeastExists(m.Keys);
    k :| k in m.Keys && forall a :: a in m.Keys ==> k <= a;
  }

  class Replacer {
    var search: map<nat, Unit>
    var clean: map<nat, nat>
    const dirty: set<nat>
    const pins: multiset<nat> // strong references beyond those of `search` and `clean`
    var drawn: seq<nat>       // the next access number is its length

    constructor (search: map<nat, Unit>, clean: map<nat, nat>, dirty: set<nat>, pins: multiset<nat>, drawn: seq<nat>)
      ensures this.search == search && this.clean == clean && this.dirty == dirty && this.pins == pins
      ensures this.drawn == drawn
    {
      this.search, this.clean, this.dirty, this.pins, this.drawn := search, clean, dirty, pins, drawn;
    }

    /** One pop of a scan that began with `search0` and `drawn0`. */
    method Pop(ghost search0: map<nat, Unit>, ghost drawn0: seq<nat>, limit: nat) returns (r: Popped)
      requires Scanning(search0, search, clean, drawn, dirty, pins, limit) && clean != map[]
      requires limit == |drawn0| <= |drawn|
      modifies this
      ensures |drawn0| <= |drawn|
      ensures r.Again? ==>
                && Scanning(search0, search, clean, drawn, dirty, pins, limit) && clean != map[]
                && Turns(search, dirty, limit) < Turns(old(search), dirty, limit)
                && TurnUsed(old(search), search, dirty, limit, r.u)
      ensures r.Victim? ==> TurnsOf(old(search), dirty, limit, r.u) > 0
      ensures r.Victim? ==> Evicted(search0, dirty, pins, drawn0, r.u, search, clean, drawn)
      ensures r.Full? ==> Lost(search0, dirty, r.u, search, clean) && AllPinned(search0, dirty, pins)
    {
      var aid := First(clean);
      var u := clean[aid];
      if aid > limit {
        FailStep(search0, search, clean, drawn, dirty, pins, limit, aid);
        clean := Without(clean, aid);
        return Full(u);
      }
      if search[u].used != aid {
        RefileStep(search0, search, clean, drawn, dirty, pins, limit, u);
        clean, search := Moved(clean, aid, search[u].used, u), Refiled(search, u);
        return Again(u);
      }
      if u in pins {
        RenewStep(search0, search, clean, drawn, dirty, pins, limit, u);
        clean, search, drawn := Moved(clean, aid, |drawn|, u), Renewed(search, u, |drawn|), drawn + [u];
        return Again(u);
      }
      EvictStep(search0, search, clean, drawn0, drawn, dirty, pins, u);
      search, clean := search - {u}, Without(clean, aid);
      return Victim(u);
    }

    /** The scan of a full cache (`get_new_uninit_unit`, `get_new_uninit_block`).  It fails just when
        every clean block is pinned, and just then breaks the partition.  No block is popped more than
        twice, but for the one that a failed scan pops last and loses. */
    method MakeRoom() returns (r: Result<nat, NoBuffers>, ghost lost: nat, ghost popped: multiset<nat>)
      requires Matched(search, clean, dirty) && Numbered(search, drawn) && clean != map[]
      modifies this
      ensures r.Failure? <==> AllPinned(old(search), dirty, pins)
      ensures Matched(search, clean, dirty) <==> !AllPinned(old(search), dirty, pins)
      ensures r.Success? ==> Evicted(old(search), dirty, pins, old(drawn), r.value, search, clean, drawn)
      ensures r.Failure? ==> Lost(old(search), dirty, lost, search, clean)
      ensures forall u :: popped[u] <= if r.Failure? && u == lost then 3 else 2
      ensures |popped| <= 2 * |CleanBlocks(old(search), dirty)| + 1
    {
      var limit := |drawn|;
      drawn := drawn + [0];
      popped, lost := multiset{}, 0;
      assert Waiting(search, dirty, limit) == CleanBlocks(search, dirty);
      while true
        invariant Scanning(old(search), search, clean, drawn, dirty, pins, limit) && clean != map[]
        invariant |old(drawn)| <= |drawn|
        invariant InTurn(popped, search, dirty, limit)
        invariant |popped| + Turns(search, dirty, limit) <= 2 * |CleanBlocks(old(search), dirty)|
        decreases Turns(search, dirty, limit)
      {
        ghost var before := search;
        var p := Pop(old(search), old(drawn), limit);
        PoppedLast(popped, before, dirty, limit, p.u);
        ghost var popped' := popped + multiset{p.u};
        match p
        case Again(u) =>
          PoppedInTurn(popped, before, search, dirty, limit, u);
          popped := popped';
        case Victim(u) => return Success(u), lost, popped';
        case Full(u) =>
          LostBreaksPartition(old(search), dirty, u, search, clean);
          return Failure(ENOBUFS), u, popped';
      }
    }
  }
}
