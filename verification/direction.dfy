/** One direction of an I/O source: its tick, the waker of the poll slot, the slab of wakers of
    `Ready` futures, and what polling, dropping and delivering do to them. */
module Directions {
  import opened Environment

  datatype Way = Read | Write

  /** What the poller should report for a source. */
  datatype Interest = Interest(readable: bool, writable: bool) {
    predicate Wants(way: Way) {
      if way.Read? then readable else writable
    }
  }

  const NOTHING := Interest(false, false)

  type Wakers = seq<Slot<Option<Waker>>>

  datatype Dir = Dir(tick: nat, ticks: Option<(nat, nat)>, waker: Option<Waker>, wakers: Wakers) {
    predicate Empty() {
      waker.None? && forall i | 0 <= i < |wakers| :: wakers[i].Occupied? ==> wakers[i].value.None?
    }
  }

  const FRESH_DIR := Dir(0, None, None, [])

  /** The wakers stored in a slab from a key on, in the order of their keys. */
  function StoredFrom(slots: Wakers, i: nat): seq<Waker>
    requires i <= |slots|
    decreases |slots| - i
  {
    if i == |slots| then []
    else (if slots[i].Occupied? && slots[i].value.Some? then [slots[i].value.value] else []) + StoredFrom(slots, i + 1)
  }

  function Stored(slots: Wakers): seq<Waker> {
    StoredFrom(slots, 0)
  }

  /** The slab after every stored waker has been taken; its entries stay occupied. */
  function Taken(slots: Wakers): (r: Wakers)
    ensures |r| == |slots|
    ensures forall i | 0 <= i < |r| :: r[i] == if slots[i].Occupied? then Occupied(None) else Vacant
  {
    seq(|slots|, i requires 0 <= i < |slots| => if slots[i].Occupied? then Occupied(None) else Vacant)
  }

  /** The wakers that draining a direction hands over: the poll slot's first. */
  function Drained(d: Dir): seq<Waker> {
    (if d.waker.Some? then [d.waker.value] else []) + Stored(d.wakers)
  }

  function AfterDrain(d: Dir): Dir {
    d.(waker := None, wakers := Taken(d.wakers))
  }

  /** An event of round `tick` reaches the direction. */
  function Deliver(d: Dir, tick: nat): Dir {
    AfterDrain(d).(tick := tick)
  }

  /** A tick other than the two remembered ones means that a newer round has delivered an event. */
  predicate Fresh(tick: nat, ticks: Option<(nat, nat)>) {
    ticks.Some? && tick != ticks.value.0 && tick != ticks.value.1
  }

  /** `arm` asks for the poller's interest to be renewed; `replaced` is the waker to wake. */
  datatype SlotPoll = SlotPoll(dir: Dir, ready: bool, replaced: Option<Waker>, arm: bool)

  /** `Source::poll_ready` for one direction. */
  function PollSlot(d: Dir, waker: Waker, ticker: nat): SlotPoll {
    if Fresh(d.tick, d.ticks) then SlotPoll(d.(ticks := None), true, None, false)
    else if d.waker == Some(waker) then SlotPoll(d, false, None, false)
    else SlotPoll(d.(waker := Some(waker), ticks := Some((ticker, d.tick))), false, d.waker, d.Empty())
  }

  /** The fields of a `Ready` future that polling changes. */
  datatype Future = Future(ticks: Option<(nat, nat)>, index: Option<nat>)

  datatype FuturePoll = FuturePoll(dir: Dir, future: Future, ready: bool, arm: bool)

  predicate Indexed(d: Dir, f: Future) {
    f.index.Some? ==> Holds(d.wakers, f.index.value)
  }

  /** `Ready::poll`; `key` is the one the slab would hand out. */
  function PollFuture(d: Dir, f: Future, waker: Waker, ticker: nat, key: nat): FuturePoll
    requires Indexed(d, f) && Available(d.wakers, key)
  {
    if Fresh(d.tick, f.ticks) then FuturePoll(d, f, true, false)
    else
      match f.index
      case Some(i) => FuturePoll(d.(wakers := d.wakers[i := Occupied(Some(waker))]), f, false, d.Empty())
      case None =>
        FuturePoll(d.(wakers := Put(d.wakers, key, Some(waker))),
                   Future(Some((ticker, d.tick)), Some(key)), false, d.Empty())
  }

  /** `Ready::drop`: the entry goes if the future has one. */
  function DropFuture(d: Dir, f: Future): Dir {
    if f.index.Some? && Holds(d.wakers, f.index.value) then d.(wakers := d.wakers[f.index.value := Vacant]) else d
  }

  /** Both directions of a source. */
  datatype Pair = Pair(read: Dir, write: Dir) {
    function At(way: Way): Dir {
      if way.Read? then read else write
    }

    function With(way: Way, d: Dir): Pair {
      if way.Read? then this.(read := d) else this.(write := d)
    }

    function Wanted(): Interest {
      Interest(!read.Empty(), !write.Empty())
    }
  }

  /** An event as the poller reports it: the source's key and handle and what it is ready for. */
  datatype Event = Event(key: nat, raw: nat, readable: bool, writable: bool) {
    predicate Ready(way: Way) {
      if way.Read? then readable else writable
    }
  }

  function OnEvent(p: Pair, ev: Event, tick: nat): Pair {
    Pair(if ev.readable then Deliver(p.read, tick) else p.read,
         if ev.writable then Deliver(p.write, tick) else p.write)
  }

  /** The writers' wakers are collected before the readers'. */
  function WokenBy(p: Pair, ev: Event): seq<Waker> {
    (if ev.writable then Drained(p.write) else []) + (if ev.readable then Drained(p.read) else [])
  }

  lemma {:induction false} NothingStored(slots: Wakers, i: nat)
    requires i <= |slots|
    ensures StoredFrom(slots, i) == []
       <==> forall j | i <= j < |slots| :: slots[j].Occupied? ==> slots[j].value.None?
    decreases |slots| - i
  {
    if i < |slots| {
      NothingStored(slots, i + 1);
      StoredStep(slots, i);
    }
  }

  lemma StoredEnd(slots: Wakers)
    ensures StoredFrom(slots, |slots|) == []
  {
  }

  lemma StoredStep(slots: Wakers, i: nat)
    requires i < |slots|
    ensures StoredFrom(slots, i)
         == if slots[i].Occupied? && slots[i].value.Some? then [slots[i].value.value] + StoredFrom(slots, i + 1)
            else StoredFrom(slots, i + 1)
  {
  }

  /** A drained direction is empty, and an empty one has nothing to drain. */
  lemma EmptyIffNothingDrained(d: Dir)
    ensures d.Empty() <==> Drained(d) == []
    ensures AfterDrain(d).Empty() && Drained(AfterDrain(d)) == []
  {
    NothingStored(d.wakers, 0);
    NothingStored(Taken(d.wakers), 0);
  }

  /** Delivering an event moves every waker of its directions out, once, and touches no other. */
  lemma EventConservesWakers(p: Pair, ev: Event, tick: nat)
    ensures multiset(WokenBy(p, ev)) + multiset(Drained(OnEvent(p, ev, tick).read))
            + multiset(Drained(OnEvent(p, ev, tick).write))
         == multiset(Drained(p.read)) + multiset(Drained(p.write))
  {
    EmptyIffNothingDrained(p.read);
    EmptyIffNothingDrained(p.write);
    assert Drained(Deliver(p.read, tick)) == Drained(AfterDrain(p.read));
    assert Drained(Deliver(p.write, tick)) == Drained(AfterDrain(p.write));
  }

  // In which order the wakers of a slab leave it, and how many copies of each there are.

  predicate Keeps(slots: Wakers, key: nat) {
    Holds(slots, key) && slots[key].value.Some?
  }

  lemma {:induction false} StoredSuffix(slots: Wakers, i: nat, j: nat)
    requires i <= j <= |slots|
    ensures |StoredFrom(slots, j)| <= |StoredFrom(slots, i)|
    ensures StoredFrom(slots, i)[|StoredFrom(slots, i)| - |StoredFrom(slots, j)|..] == StoredFrom(slots, j)
    decreases j - i
  {
    hide StoredFrom;
    if i < j {
      StoredStep(slots, i);
      StoredSuffix(slots, i + 1, j);
    }
  }

  /** A drained direction hands over the poll slot's waker first and then those of the slab in the order
      of their keys. */
  lemma DrainedInOrder(d: Dir, i: nat, j: nat) returns (m: nat, n: nat)
    requires Keeps(d.wakers, i) && Keeps(d.wakers, j) && i < j
    ensures m < n < |Drained(d)|
    ensures Drained(d)[m] == d.wakers[i].value.value && Drained(d)[n] == d.wakers[j].value.value
    ensures d.waker.Some? ==> 0 < m && Drained(d)[0] == d.waker.value
  {
    hide StoredFrom, Stored, Drained;
    StoredStep(d.wakers, i);
    StoredSuffix(d.wakers, i + 1, j);
    StoredAt(d, i);
    StoredAt(d, j);
    m := |Drained(d)| - |StoredFrom(d.wakers, i)|;
    n := |Drained(d)| - |StoredFrom(d.wakers, j)|;
  }

  lemma StoredAt(d: Dir, key: nat)
    requires Keeps(d.wakers, key)
    ensures 0 < |StoredFrom(d.wakers, key)| <= |Stored(d.wakers)| <= |Drained(d)|
    ensures Drained(d)[|Drained(d)| - |StoredFrom(d.wakers, key)|] == d.wakers[key].value.value
    ensures d.waker.Some? ==> |StoredFrom(d.wakers, key)| < |Drained(d)| && Drained(d)[0] == d.waker.value
  {
    hide StoredFrom;
    StoredStep(d.wakers, key);
    StoredSuffix(d.wakers, 0, key);
    var all, rest := Stored(d.wakers), StoredFrom(d.wakers, key);
    assert all[|all| - |rest|..][0] == rest[0];
  }

  /** Of the wakers that an event collects, the writers' come first. */
  lemma WritersAreCollectedFirst(p: Pair, ev: Event)
    ensures ev.writable ==> Drained(p.write) <= WokenBy(p, ev)
    ensures ev.readable ==> |Drained(p.read)| <= |WokenBy(p, ev)|
                            && WokenBy(p, ev)[|WokenBy(p, ev)| - |Drained(p.read)|..] == Drained(p.read)
    ensures |WokenBy(p, ev)| == (if ev.writable then |Drained(p.write)| else 0)
                                + (if ev.readable then |Drained(p.read)| else 0)
  {
  }

  lemma {:induction false} StoredUnchanged(a: Wakers, b: Wakers, i: nat)
    requires |a| == |b| && i <= |a| && forall j | i <= j < |a| :: a[j] == b[j]
    ensures StoredFrom(a, i) == StoredFrom(b, i)
    decreases |a| - i
  {
    if i < |a| {
      StoredUnchanged(a, b, i + 1);
      StoredStep(a, i);
      StoredStep(b, i);
    }
  }

  function InSlot(slot: Slot<Option<Waker>>): multiset<Waker> {
    if slot.Occupied? && slot.value.Some? then multiset{slot.value.value} else multiset{}
  }

  /** How many copies of `w` the slab stores from a key on. */
  function SlabCopies(slots: Wakers, i: nat, w: Waker): nat
    requires i <= |slots|
  {
    multiset(StoredFrom(slots, i))[w]
  }

  lemma CopiesNext(slots: Wakers, i: nat, w: Waker)
    requires i < |slots|
    ensures SlabCopies(slots, i, w) == InSlot(slots[i])[w] + SlabCopies(slots, i + 1, w)
  {
    StoredStep(slots, i);
  }

  lemma CopiesEnd(slots: Wakers, w: Waker)
    ensures SlabCopies(slots, |slots|, w) == 0
  {
  }

  lemma {:induction false} CopiesUpdate(slots: Wakers, i: nat, key: nat, slot: Slot<Option<Waker>>, w: Waker)
    requires i <= key < |slots|
    ensures SlabCopies(slots[key := slot], i, w) + InSlot(slots[key])[w] == SlabCopies(slots, i, w) + InSlot(slot)[w]
    decreases key - i
  {
    hide StoredFrom, InSlot;
    var slots' := slots[key := slot];
    CopiesNext(slots, i, w);
    CopiesNext(slots', i, w);
    if i < key {
      CopiesUpdate(slots, i + 1, key, slot, w);
    } else {
      StoredUnchanged(slots, slots', i + 1);
    }
  }

  lemma {:induction false} CopiesAppend(slots: Wakers, i: nat, slot: Slot<Option<Waker>>, w: Waker)
    requires i <= |slots|
    ensures SlabCopies(slots + [slot], i, w) == SlabCopies(slots, i, w) + InSlot(slot)[w]
    decreases |slots| - i
  {
    hide StoredFrom, InSlot;
    var slots' := slots + [slot];
    CopiesNext(slots', i, w);
    if i < |slots| {
      CopiesAppend(slots, i + 1, slot, w);
      CopiesNext(slots, i, w);
    } else {
      CopiesEnd(slots, w);
      CopiesEnd(slots', w);
    }
  }

  lemma CopiesPut(slots: Wakers, key: nat, waker: Waker, w: Waker)
    requires Available(slots, key)
    ensures SlabCopies(Put(slots, key, Some(waker)), 0, w) == SlabCopies(slots, 0, w) + multiset{waker}[w]
  {
    if key == |slots| {
      CopiesAppend(slots, 0, Occupied(Some(waker)), w);
    } else {
      CopiesUpdate(slots, 0, key, Occupied(Some(waker)), w);
    }
  }

  /** How many copies of `w` a direction stores. */
  function CopiesOf(d: Dir, w: Waker): nat {
    multiset(Drained(d))[w]
  }

  lemma CopiesParts(d: Dir, w: Waker)
    ensures CopiesOf(d, w) == SlabCopies(d.wakers, 0, w) + if d.waker == Some(w) then 1 else 0
  {
    hide StoredFrom;
  }

  // What polls and drops do to the stored wakers.

  function One(waker: Option<Waker>, w: Waker): nat {
    if waker == Some(w) then 1 else 0
  }

  /** A poll of the slot that is not ready leaves its task's waker in the slot. If that waker is new
      there, it is the only one added, and the one it displaces is answered to be woken: no waker is
      lost and none is doubled. Otherwise nothing moves. The interest changes exactly if the direction
      had no waiter. */
  lemma SlotPollConservesWakers(d: Dir, waker: Waker, ticker: nat)
    ensures var o := PollSlot(d, waker, ticker);
            && (!o.ready ==> o.dir.waker == Some(waker))
            && (if !o.ready && d.waker != Some(waker) then
                  o.replaced == d.waker
                  && forall w :: CopiesOf(o.dir, w) + One(o.replaced, w) == CopiesOf(d, w) + One(Some(waker), w)
                else o.replaced.None? && forall w :: CopiesOf(o.dir, w) == CopiesOf(d, w))
            && (o.arm <==> d.Empty() && !o.dir.Empty())
  {
    hide StoredFrom;
    var o := PollSlot(d, waker, ticker);
    forall w
      ensures CopiesOf(o.dir, w) == SlabCopies(d.wakers, 0, w) + One(o.dir.waker, w)
      ensures CopiesOf(d, w) == SlabCopies(d.wakers, 0, w) + One(d.waker, w)
    {
      CopiesParts(d, w);
      CopiesParts(o.dir, w);
    }
  }

  /** A ready answer is given once: polling again without storing a waker first is not ready. */
  lemma SlotAnswersOnce(d: Dir, waker: Waker, ticker: nat, waker': Waker, ticker': nat)
    requires PollSlot(d, waker, ticker).ready
    ensures !PollSlot(PollSlot(d, waker, ticker).dir, waker', ticker').ready
  {
  }

  /** The waker that a future's own entry keeps. */
  function OwnWaker(d: Dir, f: Future): Option<Waker> {
    if f.index.Some? && Keeps(d.wakers, f.index.value) then d.wakers[f.index.value].value else None
  }

  /** A poll of a future that is not ready leaves its task's waker in the future's own entry, in place
      of the one before, and moves no other. One that is ready moves nothing. */
  lemma FuturePollConservesWakers(d: Dir, f: Future, waker: Waker, ticker: nat, key: nat)
    requires Indexed(d, f) && Available(d.wakers, key)
    ensures var o := PollFuture(d, f, waker, ticker, key);
            if o.ready then o == FuturePoll(d, f, true, false)
            else
              && o.future.index == Some(if f.index.Some? then f.index.value else key)
              && OwnWaker(o.dir, o.future) == Some(waker)
              && o.dir.waker == d.waker && (o.arm <==> d.Empty())
              && forall w :: CopiesOf(o.dir, w) + One(OwnWaker(d, f), w) == CopiesOf(d, w) + One(Some(waker), w)
  {
    hide StoredFrom, CopiesOf;
    var o := PollFuture(d, f, waker, ticker, key);
    if !o.ready {
      forall w
        ensures CopiesOf(o.dir, w) + One(OwnWaker(d, f), w) == CopiesOf(d, w) + One(Some(waker), w)
      {
        PendingPollCopies(d, f, waker, ticker, key, w);
      }
    }
  }

  lemma PendingPollCopies(d: Dir, f: Future, waker: Waker, ticker: nat, key: nat, w: Waker)
    requires Indexed(d, f) && Available(d.wakers, key) && !PollFuture(d, f, waker, ticker, key).ready
    ensures CopiesOf(PollFuture(d, f, waker, ticker, key).dir, w) + One(OwnWaker(d, f), w)
         == CopiesOf(d, w) + One(Some(waker), w)
  {
    hide StoredFrom, CopiesOf, SlabCopies;
    var after := PollFuture(d, f, waker, ticker, key).dir;
    CopiesParts(d, w);
    CopiesParts(after, w);
    if f.index.Some? {
      CopiesUpdate(d.wakers, 0, f.index.value, Occupied(Some(waker)), w);
    } else {
      CopiesPut(d.wakers, key, waker, w);
    }
  }

  /** A drop takes the future's own waker away, if it is still stored, and no other. */
  lemma FutureDropConservesWakers(d: Dir, f: Future)
    ensures forall w :: CopiesOf(DropFuture(d, f), w) + One(OwnWaker(d, f), w) == CopiesOf(d, w)
    ensures f.index.Some? ==> !Holds(DropFuture(d, f).wakers, f.index.value)
  {
    hide StoredFrom;
    forall w
      ensures CopiesOf(DropFuture(d, f), w) + One(OwnWaker(d, f), w) == CopiesOf(d, w)
    {
      CopiesParts(d, w);
      CopiesParts(DropFuture(d, f), w);
      if f.index.Some? && Holds(d.wakers, f.index.value) {
        CopiesUpdate(d.wakers, 0, f.index.value, Vacant, w);
      }
    }
  }

  // The objects themselves.

  /** The abstract poller: the interest in every added handle. */
  class Poller {
    var interest: map<nat, Interest>

    constructor ()
      ensures interest == map[]
    {
      interest := map[];
    }

    /** `ok` is the system's answer. */
    method Modify(raw: nat, wanted: Interest, ok: bool)
      modifies this
      ensures interest == if ok then old(interest)[raw := wanted] else old(interest)
    {
      if ok {
        interest := interest[raw := wanted];
      }
    }
  }

  class Direction {
    var tick: nat
    var ticks: Option<(nat, nat)>
    var waker: Option<Waker>
    var wakers: Wakers

    function View(): Dir
      reads this
    {
      Dir(tick, ticks, waker, wakers)
    }

    constructor ()
      ensures View() == FRESH_DIR
    {
      tick, ticks, waker, wakers := 0, None, None, [];
    }

    method IsEmpty() returns (empty: bool)
      ensures empty == View().Empty()
    {
      empty := waker.None?;
      var i := 0;
      while empty && i < |wakers|
        invariant 0 <= i <= |wakers|
        invariant empty ==> waker.None? && forall j | 0 <= j < i :: wakers[j].Occupied? ==> wakers[j].value.None?
        invariant !empty ==> !View().Empty()
      {
        empty := !(wakers[i].Occupied? && wakers[i].value.Some?);
        i := i + 1;
      }
    }

    /** Moves all wakers to the end of `dst`. */
    method DrainInto(dst: seq<Waker>) returns (dst': seq<Waker>)
      modifies this`waker, this`wakers
      ensures dst' == dst + Drained(old(View()))
      ensures View() == AfterDrain(old(View()))
    {
      hide StoredFrom;
      ghost var slots, all := wakers, dst + Drained(View());
      dst' := dst;
      if waker.Some? {
        dst' := dst' + [waker.value];
        waker := None;
      }
      var i := 0;
      while i < |wakers|
        invariant 0 <= i <= |wakers| == |slots|
        invariant waker == None && tick == old(tick) && ticks == old(ticks)
        invariant forall j | 0 <= j < |wakers| :: wakers[j] == if j < i then Taken(slots)[j] else slots[j]
        invariant dst' + StoredFrom(slots, i) == all
      {
        StoredStep(slots, i);
        if wakers[i].Occupied? && wakers[i].value.Some? {
          ghost var w, rest := wakers[i].value.value, StoredFrom(slots, i + 1);
          assert dst' + ([w] + rest) == (dst' + [w]) + rest;
          dst' := dst' + [wakers[i].value.value];
          wakers := wakers[i := Occupied(None)];
        }
        i := i + 1;
      }
      StoredEnd(slots);
      assert wakers == Taken(slots);
    }

    /** An event of round `round` arrives. */
    method Receive(round: nat, dst: seq<Waker>) returns (dst': seq<Waker>)
      modifies this
      ensures dst' == dst + Drained(old(View()))
      ensures View() == Deliver(old(View()), round)
    {
      tick := round;
      dst' := DrainInto(dst);
    }
  }

  class Source {
    const key: nat
    const raw: nat
    const read: Direction
    const write: Direction

    predicate Valid() {
      read != write
    }

    function View(): Pair
      reads read, write
    {
      Pair(read.View(), write.View())
    }

    constructor (raw: nat, key: nat)
      ensures Valid() && this.raw == raw && this.key == key && fresh(read) && fresh(write)
      ensures View() == Pair(FRESH_DIR, FRESH_DIR)
    {
      this.raw, this.key := raw, key;
      read := new Direction();
      write := new Direction();
    }

    function At(way: Way): Direction {
      if way.Read? then read else write
    }

    method Wanted() returns (wanted: Interest)
      ensures wanted == View().Wanted()
    {
      var noReaders := read.IsEmpty();
      var noWriters := write.IsEmpty();
      wanted := Interest(!noReaders, !noWriters);
    }

    /** `Source::poll_ready`. A replaced waker is answered in `woken`; a failed `modify` is the
        error that the caller receives. */
    method PollReady(way: Way, waker: Waker, ticker: nat, poller: Poller, modifyOk: bool)
      returns (ready: bool, failed: bool, woken: Option<Waker>)
      requires Valid()
      modifies At(way), poller
      ensures var o := PollSlot(old(View().At(way)), waker, ticker);
              && View() == old(View()).With(way, o.dir)
              && ready == o.ready && woken == o.replaced && failed == (o.arm && !modifyOk)
              && poller.interest == if o.arm && modifyOk then old(poller.interest)[raw := View().Wanted()]
                                    else old(poller.interest)
    {
      ready, failed, woken := false, false, None;
      var d := At(way);
      // A delivery since the ticks were remembered answers the poll.
      if d.ticks.Some? && d.tick != d.ticks.value.0 && d.tick != d.ticks.value.1 {
        d.ticks := None;
        return true, false, None;
      }
      var wasEmpty := d.IsEmpty();
      // The slot keeps a single waker; another task's makes room and is woken.
      if d.waker.Some? {
        if d.waker.value == waker {
          return;
        }
        woken := d.waker;
      }
      d.waker := Some(waker);
      d.ticks := Some((ticker, d.tick));
      // The first waiter of the direction changes what the poller has to report.
      if wasEmpty {
        var wanted := Wanted();
        poller.Modify(raw, wanted, modifyOk);
        failed := !modifyOk;
      }
    }

    /** What `react` does with one event under the lock of the source. */
    method HandleEvent(ev: Event, tick: nat, poller: Poller, modifyOk: bool, wakers: seq<Waker>)
      returns (wakers': seq<Waker>, failed: bool)
      requires Valid()
      modifies read, write, poller
      ensures View() == OnEvent(old(View()), ev, tick)
      ensures wakers' == wakers + WokenBy(old(View()), ev)
      ensures failed == (View().Wanted() != NOTHING && !modifyOk)
      ensures poller.interest == if View().Wanted() != NOTHING && modifyOk
                                 then old(poller.interest)[raw := View().Wanted()] else old(poller.interest)
    {
      wakers' := wakers;
      if ev.writable {
        wakers' := write.Receive(tick, wakers');
      }
      if ev.readable {
        wakers' := read.Receive(tick, wakers');
      }
      // The fetch has disarmed the source; whoever still waits needs it armed.
      var wanted := Wanted();
      failed := false;
      if wanted.readable || wanted.writable {
        poller.Modify(raw, wanted, modifyOk);
        failed := !modifyOk;
      }
    }
  }

  class Ready {
    const source: Source
    const way: Way
    var ticks: Option<(nat, nat)>
    var index: Option<nat>

    function View(): Future
      reads this
    {
      Future(ticks, index)
    }

    predicate Valid()
      reads this, source.At(way)
    {
      source.Valid() && Indexed(source.At(way).View(), View())
    }

    constructor (source: Source, way: Way)
      requires source.Valid()
      ensures Valid() && this.source == source && this.way == way && View() == Future(None, None)
    {
      this.source, this.way, ticks, index := source, way, None, None;
    }

    /** Stores the waker in the future's entry of the slab, which the first poll inserts. */
    method Register(waker: Waker, ticker: nat, key: nat)
      requires Valid() && Available(source.At(way).wakers, key)
      requires !Fresh(source.At(way).tick, ticks)
      modifies this, source.At(way)
      ensures Valid()
      ensures var o := PollFuture(old(source.At(way).View()), old(View()), waker, ticker, key);
              source.At(way).View() == o.dir && View() == o.future
    {
      var d := source.At(way);
      if index.Some? {
        d.wakers := d.wakers[index.value := Occupied(Some(waker))];
      } else {
        var empty := Put(d.wakers, key, None);
        assert empty[key := Occupied(Some(waker))] == Put(d.wakers, key, Some(waker));
        d.wakers := empty[key := Occupied(Some(waker))];
        index := Some(key);
        ticks := Some((ticker, d.tick));
      }
    }

    /** `Ready::poll`. */
    method Poll(waker: Waker, ticker: nat, key: nat, poller: Poller, modifyOk: bool)
      returns (ready: bool, failed: bool)
      requires Valid() && Available(source.At(way).wakers, key)
      modifies this, source.At(way), poller
      ensures Valid()
      ensures var o := PollFuture(old(source.View().At(way)), old(View()), waker, ticker, key);
              && source.View() == old(source.View()).With(way, o.dir)
              && View() == o.future
              && ready == o.ready && failed == (o.arm && !modifyOk)
              && poller.interest == if o.arm && modifyOk
                                    then old(poller.interest)[source.raw := source.View().Wanted()]
                                    else old(poller.interest)
    {
      ready, failed := false, false;
      var d := source.At(way);
      if ticks.Some? && d.tick != ticks.value.0 && d.tick != ticks.value.1 {
        return true, false;
      }
      var wasEmpty := d.IsEmpty();
      Register(waker, ticker, key);
      if wasEmpty {
        var wanted := source.Wanted();
        poller.Modify(source.raw, wanted, modifyOk);
        failed := !modifyOk;
      }
    }

    method Drop()
      requires Valid()
      modifies source.At(way)
      ensures source.View() == old(source.View()).With(way, DropFuture(old(source.View().At(way)), View()))
    {
      if index.Some? {
        var d := source.At(way);
        if index.value < |d.wakers| && d.wakers[index.value].Occupied? {
          d.wakers := d.wakers[index.value := Vacant];
        }
      }
    }
  }
}
