/** The reactor's I/O side: the slab of sources, one call of `react`, and the handles that insert and
    remove sources. */
module IoReactor {
  import opened Environment
  import opened TimerOps
  import opened TimerStore
  import opened Directions

  /** A source in the slab as a value. */
  datatype Entry = Entry(raw: nat, pair: Pair)

  type Table = seq<Slot<Entry>>

  /** How the poller's wait ends. No events at all means that it timed out or was notified. */
  datatype WaitOutcome = Events(events: seq<Event>) | Interrupted | Broken

  /** No event, and not because the wait was told to return at once. */
  predicate TimedOut(timeout: Option<nat>, outcome: WaitOutcome) {
    outcome.Events? && outcome.events == [] && timeout != Some(0)
  }

  /** Fetching an event disarms its source in both directions. */
  function Disarm(interest: map<nat, Interest>, events: seq<Event>): map<nat, Interest> {
    map raw | raw in interest :: if exists ev :: ev in events && ev.raw == raw then NOTHING else interest[raw]
  }

  // The loop over the events, as a function of the number of events handled.

  datatype Progress = Progress(table: Table, interest: map<nat, Interest>, wakers: seq<Waker>, failed: bool)

  function HandleOne(p: Progress, ev: Event, tick: nat, ok: bool): Progress {
    if !Holds(p.table, ev.key) then p
    else
      var e := p.table[ev.key].value;
      var pair := OnEvent(e.pair, ev, tick);
      var renew := pair.Wanted() != NOTHING;
      Progress(p.table[ev.key := Occupied(Entry(e.raw, pair))],
               if renew && ok then p.interest[e.raw := pair.Wanted()] else p.interest,
               p.wakers + WokenBy(e.pair, ev),
               renew && !ok)
  }

  /** The first `n` events handled; the first failure to renew interest ends the loop. */
  function HandleFirst(p: Progress, events: seq<Event>, n: nat, tick: nat, oks: nat -> bool): Progress
    requires n <= |events|
  {
    if n == 0 then p
    else
      var q := HandleFirst(p, events, n - 1, tick, oks);
      if q.failed then q else HandleOne(q, events[n - 1], tick, oks(n - 1))
  }

  lemma HandleNext(p: Progress, events: seq<Event>, n: nat, tick: nat, oks: nat -> bool)
    requires n < |events|
    ensures var q := HandleFirst(p, events, n, tick, oks);
            HandleFirst(p, events, n + 1, tick, oks) == if q.failed then q else HandleOne(q, events[n], tick, oks(n))
  {
  }

  lemma FailureStaysOnce(p: Progress, events: seq<Event>, n: nat, tick: nat, oks: nat -> bool)
    requires n < |events| && HandleFirst(p, events, n, tick, oks).failed
    ensures HandleFirst(p, events, n + 1, tick, oks) == HandleFirst(p, events, n, tick, oks)
  {
  }

  lemma {:induction false} FailureStays(p: Progress, events: seq<Event>, n: nat, m: nat, tick: nat, oks: nat -> bool)
    requires n <= m <= |events| && HandleFirst(p, events, n, tick, oks).failed
    ensures HandleFirst(p, events, m, tick, oks) == HandleFirst(p, events, n, tick, oks)
    decreases m
  {
    if n < m {
      FailureStays(p, events, n, m - 1, tick, oks);
      FailureStaysOnce(p, events, m - 1, tick, oks);
    }
  }

  // When renewing fails, told from what the loop starts with.

  /** None of the first `n` events is for the direction. */
  predicate Unreached(events: seq<Event>, n: nat, key: nat, way: Way)
    requires n <= |events|
  {
    forall j | 0 <= j < n && events[j].key == key :: !events[j].Ready(way)
  }

  lemma UnreachedNext(events: seq<Event>, n: nat, key: nat, way: Way)
    requires n < |events|
    ensures Unreached(events, n + 1, key, way)
       <==> Unreached(events, n, key, way) && !(events[n].key == key && events[n].Ready(way))
  {
  }

  predicate HasWaiter(table: Table, key: nat, way: Way) {
    Holds(table, key) && !table[key].value.pair.At(way).Empty()
  }

  /** The i-th event is for a source that has a waiter whom no event up to this one wakes. */
  ghost predicate LeavesWaiter(table: Table, events: seq<Event>, i: nat)
    requires i < |events|
  {
    exists way: Way :: HasWaiter(table, events[i].key, way) && Unreached(events, i + 1, events[i].key, way)
  }

  /** The poller rejects the renewal for one of the first `n` events, and that one leaves a waiter. */
  ghost predicate Rejected(table: Table, events: seq<Event>, n: nat, oks: nat -> bool)
    requires n <= |events|
  {
    exists i :: 0 <= i < n && LeavesWaiter(table, events, i) && !oks(i)
  }

  lemma EventLeaves(p: Progress, ev: Event, tick: nat, ok: bool, key: nat, way: Way)
    ensures HasWaiter(HandleOne(p, ev, tick, ok).table, key, way)
       <==> HasWaiter(p.table, key, way) && !(ev.key == key && ev.Ready(way))
  {
    if Holds(p.table, ev.key) {
      EmptyIffNothingDrained(p.table[ev.key].value.pair.At(way));
    }
  }

  /** While nothing fails, a direction still has waiters if it had some and no event was for it. */
  lemma {:induction false} WaitersLeft(p: Progress, events: seq<Event>, n: nat, tick: nat, oks: nat -> bool,
                                       key: nat, way: Way)
    requires n <= |events| && !HandleFirst(p, events, n, tick, oks).failed
    ensures HasWaiter(HandleFirst(p, events, n, tick, oks).table, key, way)
       <==> HasWaiter(p.table, key, way) && Unreached(events, n, key, way)
    decreases n
  {
    if n > 0 {
      var last := n - 1;
      var q := HandleFirst(p, events, last, tick, oks);
      HandleNext(p, events, last, tick, oks);
      WaitersLeft(p, events, last, tick, oks, key, way);
      EventLeaves(q, events[last], tick, oks(last), key, way);
      UnreachedNext(events, last, key, way);
    }
  }

  lemma OneFailsIff(p: Progress, ev: Event, tick: nat, ok: bool)
    requires !p.failed
    ensures HandleOne(p, ev, tick, ok).failed
       <==> !ok && exists way: Way :: HasWaiter(p.table, ev.key, way) && !ev.Ready(way)
  {
    EventLeaves(p, ev, tick, ok, ev.key, Read);
    EventLeaves(p, ev, tick, ok, ev.key, Write);
    if Holds(p.table, ev.key) {
      var after := OnEvent(p.table[ev.key].value.pair, ev, tick);
      assert after.Wanted() == NOTHING <==> after.At(Read).Empty() && after.At(Write).Empty();
    }
  }

  lemma LastLeavesWaiterIff(before: Table, table: Table, events: seq<Event>, n: nat)
    requires n < |events|
    requires forall way: Way ::
               HasWaiter(table, events[n].key, way) <==>
                 HasWaiter(before, events[n].key, way) && Unreached(events, n, events[n].key, way)
    ensures LeavesWaiter(before, events, n)
       <==> exists way: Way :: HasWaiter(table, events[n].key, way) && !events[n].Ready(way)
  {
    forall way: Way {
      UnreachedNext(events, n, events[n].key, way);
    }
  }

  /** The loop fails exactly if the poller rejects the renewal for an event that leaves a waiter. */
  lemma {:induction false} LoopFailsIffRejected(p: Progress, events: seq<Event>, n: nat, tick: nat, oks: nat -> bool)
    requires n <= |events| && !p.failed
    ensures HandleFirst(p, events, n, tick, oks).failed <==> Rejected(p.table, events, n, oks)
    decreases n
  {
    if n > 0 {
      var last := n - 1;
      var q := HandleFirst(p, events, last, tick, oks);
      HandleNext(p, events, last, tick, oks);
      LoopFailsIffRejected(p, events, last, tick, oks);
      RejectedNext(p.table, events, last, oks);
      if !q.failed {
        forall way: Way {
          WaitersLeft(p, events, last, tick, oks, events[last].key, way);
        }
        LastLeavesWaiterIff(p.table, q.table, events, last);
        OneFailsIff(q, events[last], tick, oks(last));
      }
    }
  }

  lemma RejectedNext(table: Table, events: seq<Event>, n: nat, oks: nat -> bool)
    requires n < |events|
    ensures Rejected(table, events, n + 1, oks)
       <==> Rejected(table, events, n, oks) || (LeavesWaiter(table, events, n) && !oks(n))
  {
  }

  // Conservation of wakers.

  /** How many copies of `w` a source stores. */
  function CopiesIn(slot: Slot<Entry>, w: Waker): nat {
    match slot
    case Vacant => 0
    case Occupied(e) => multiset(Drained(e.pair.read))[w] + multiset(Drained(e.pair.write))[w]
  }

  function Sum(s: seq<nat>): nat {
    if s == [] then 0 else Sum(s[..|s| - 1]) + s[|s| - 1]
  }

  lemma {:induction false} SumUpdate(s: seq<nat>, i: nat, n: nat)
    requires i < |s|
    ensures Sum(s[i := n]) + s[i] == Sum(s) + n
  {
    var last := |s| - 1;
    if i < last {
      assert s[i := n][..last] == s[..last][i := n];
      SumUpdate(s[..last], i, n);
    } else {
      assert s[i := n][..last] == s[..last];
    }
  }

  /** How many copies of `w` all sources store. */
  function StoredCopies(table: Table, w: Waker): nat {
    Sum(seq(|table|, i requires 0 <= i < |table| => CopiesIn(table[i], w)))
  }

  lemma StoredUpdate(table: Table, i: nat, slot: Slot<Entry>, w: Waker)
    requires i < |table|
    ensures StoredCopies(table[i := slot], w) + CopiesIn(table[i], w) == StoredCopies(table, w) + CopiesIn(slot, w)
  {
    var counts := seq(|table|, j requires 0 <= j < |table| => CopiesIn(table[j], w));
    var table' := table[i := slot];
    assert seq(|table'|, j requires 0 <= j < |table'| => CopiesIn(table'[j], w)) == counts[i := CopiesIn(slot, w)];
    SumUpdate(counts, i, CopiesIn(slot, w));
  }

  /** The copies of a waker, collected or still stored. */
  function Copies(p: Progress, w: Waker): nat {
    multiset(p.wakers)[w] + StoredCopies(p.table, w)
  }

  lemma EntryConserves(e: Entry, ev: Event, tick: nat, w: Waker)
    ensures CopiesIn(Occupied(Entry(e.raw, OnEvent(e.pair, ev, tick))), w) + multiset(WokenBy(e.pair, ev))[w]
         == CopiesIn(Occupied(e), w)
  {
    EventConservesWakers(e.pair, ev, tick);
    var p := OnEvent(e.pair, ev, tick);
    assert (multiset(WokenBy(e.pair, ev)) + multiset(Drained(p.read)) + multiset(Drained(p.write)))[w]
        == (multiset(Drained(e.pair.read)) + multiset(Drained(e.pair.write)))[w];
  }

  lemma OneConserves(p: Progress, ev: Event, tick: nat, ok: bool, w: Waker)
    ensures Copies(HandleOne(p, ev, tick, ok), w) == Copies(p, w)
  {
    if Holds(p.table, ev.key) {
      var e := p.table[ev.key].value;
      EntryConserves(e, ev, tick, w);
      StoredUpdate(p.table, ev.key, Occupied(Entry(e.raw, OnEvent(e.pair, ev, tick))), w);
      assert multiset(p.wakers + WokenBy(e.pair, ev)) == multiset(p.wakers) + multiset(WokenBy(e.pair, ev));
    }
  }

  /** Whatever is removed from the sources is collected: no waker is lost or doubled. */
  lemma {:induction false} EventsConserveWakers(p: Progress, events: seq<Event>, n: nat, tick: nat,
                                                oks: nat -> bool, w: Waker)
    requires n <= |events|
    ensures Copies(HandleFirst(p, events, n, tick, oks), w) == Copies(p, w)
    decreases n
  {
    hide HandleOne;
    if n > 0 {
      HandleNext(p, events, n - 1, tick, oks);
      EventsConserveWakers(p, events, n - 1, tick, oks, w);
      OneConserves(HandleFirst(p, events, n - 1, tick, oks), events[n - 1], tick, oks(n - 1), w);
    }
  }

  /** As many copies of every waker in one list and table as in the other. */
  ghost predicate SameCopies(wakers: seq<Waker>, table: Table, wakers': seq<Waker>, table': Table) {
    forall w :: multiset(wakers)[w] + StoredCopies(table, w) == multiset(wakers')[w] + StoredCopies(table', w)
  }

  lemma EventsKeepCopies(p: Progress, events: seq<Event>, tick: nat, oks: nat -> bool)
    ensures var q := HandleFirst(p, events, |events|, tick, oks); SameCopies(q.wakers, q.table, p.wakers, p.table)
  {
    var q := HandleFirst(p, events, |events|, tick, oks);
    forall w
      ensures multiset(q.wakers)[w] + StoredCopies(q.table, w) == multiset(p.wakers)[w] + StoredCopies(p.table, w)
    {
      EventsConserveWakers(p, events, |events|, tick, oks, w);
    }
  }

  /** What `react` reads and changes, apart from the ticker. */
  datatype World = World(effective: TimerMap, table: Table, interest: map<nat, Interest>)

  /** The part of `react` from the return of the wait on, from `w` with the wakers `early`. */
  ghost predicate Finished(w: World, w': World, early: seq<Waker>, timeout: Option<nat>, outcome: WaitOutcome,
                           later: Instant, tick: nat, oks: nat -> bool,
                           laterKeys: seq<Key>, woken: seq<Waker>, failed: bool) {
    if outcome.Events? && outcome.events != [] then
      var p := HandleFirst(Progress(w.table, Disarm(w.interest, outcome.events), early, false),
                           outcome.events, |outcome.events|, tick, oks);
      && w' == World(w.effective, p.table, p.interest) && failed == p.failed
      && woken == (if failed then [] else p.wakers)
    else if TimedOut(timeout, outcome) then
      && Lists(laterKeys, Due(w.effective, later))
      && woken == early + WakersAt(w.effective, laterKeys) && !failed
      && w' == w.(effective := w.effective - Due(w.effective, later))
    else
      w' == w && woken == early && failed == outcome.Broken?
  }

  /** What the loop over the events has collected when it ends, early or not. */
  function Collected(w: World, early: seq<Waker>, events: seq<Event>, tick: nat, oks: nat -> bool): seq<Waker> {
    HandleFirst(Progress(w.table, Disarm(w.interest, events), early, false), events, |events|, tick, oks).wakers
  }

  /** Unless the poller rejects the renewal for an event that leaves a waiter, exactly the wakers that
      left the timers and the sources are woken, each once. If it does, nobody is woken, and whatever
      had been collected by then, the timers' wakers first, is gone. */
  lemma ReactConservesWakers(w: World, w': World, early: seq<Waker>, timeout: Option<nat>, outcome: WaitOutcome,
                             later: Instant, tick: nat, oks: nat -> bool,
                             laterKeys: seq<Key>, woken: seq<Waker>, failed: bool)
    requires Finished(w, w', early, timeout, outcome, later, tick, oks, laterKeys, woken, failed)
    ensures outcome.Events? ==> (failed <==> Rejected(w.table, outcome.events, |outcome.events|, oks))
    ensures !(outcome.Events? && Rejected(w.table, outcome.events, |outcome.events|, oks)) ==>
              var fired := early + if TimedOut(timeout, outcome) then WakersAt(w.effective, laterKeys) else [];
              SameCopies(woken, w'.table, fired, w.table)
    ensures outcome.Events? && Rejected(w.table, outcome.events, |outcome.events|, oks) ==>
              var collected := Collected(w, early, outcome.events, tick, oks);
              && woken == [] && early <= collected
              && SameCopies(collected, w'.table, early, w.table)
  {
    assert early + [] == early;
    if outcome.Events? && outcome.events != [] {
      var start := Progress(w.table, Disarm(w.interest, outcome.events), early, false);
      LoopFailsIffRejected(start, outcome.events, |outcome.events|, tick, oks);
      EventsKeepCopies(start, outcome.events, tick, oks);
      WakersOnlyGrow(start, outcome.events, |outcome.events|, tick, oks);
    }
  }

  /** A call loses a waker exactly if it collected one before a renewal was rejected. */
  lemma LosesWakersIff(w: World, w': World, early: seq<Waker>, timeout: Option<nat>, outcome: WaitOutcome,
                       later: Instant, tick: nat, oks: nat -> bool,
                       laterKeys: seq<Key>, woken: seq<Waker>, failed: bool)
    requires Finished(w, w', early, timeout, outcome, later, tick, oks, laterKeys, woken, failed)
    ensures var fired := early + if TimedOut(timeout, outcome) then WakersAt(w.effective, laterKeys) else [];
            !SameCopies(woken, w'.table, fired, w.table) <==>
              && outcome.Events? && Rejected(w.table, outcome.events, |outcome.events|, oks)
              && Collected(w, early, outcome.events, tick, oks) != []
  {
    ReactConservesWakers(w, w', early, timeout, outcome, later, tick, oks, laterKeys, woken, failed);
    if outcome.Events? && Rejected(w.table, outcome.events, |outcome.events|, oks) {
      var collected := Collected(w, early, outcome.events, tick, oks);
      assert early + [] == early;
      if collected != [] {
        var waker := collected[0];
        assert multiset(collected)[waker] > 0;
        assert multiset(woken)[waker] == 0;
      }
    }
  }

  lemma OneOnlyGrows(p: Progress, ev: Event, tick: nat, ok: bool)
    ensures p.wakers <= HandleOne(p, ev, tick, ok).wakers
  {
  }

  lemma {:induction false} WakersOnlyGrow(p: Progress, events: seq<Event>, n: nat, tick: nat, oks: nat -> bool)
    requires n <= |events|
    ensures p.wakers <= HandleFirst(p, events, n, tick, oks).wakers
    decreases n
  {
    hide HandleOne;
    if n > 0 {
      HandleNext(p, events, n - 1, tick, oks);
      WakersOnlyGrow(p, events, n - 1, tick, oks);
      OneOnlyGrows(HandleFirst(p, events, n - 1, tick, oks), events[n - 1], tick, oks(n - 1));
    }
  }

  /** After an event has been handled, its source's interest is exactly the directions that still
      have waiters, provided the poller accepted it. */
  lemma HandledSourceIsCovered(p: Progress, ev: Event, tick: nat, ok: bool)
    requires Holds(p.table, ev.key) && !HandleOne(p, ev, tick, ok).failed
    ensures var q := HandleOne(p, ev, tick, ok);
            var e := q.table[ev.key].value;
            forall way: Way | !e.pair.At(way).Empty() ::
              e.raw in q.interest && q.interest[e.raw].Wants(way) && !ev.Ready(way)
  {
    var e := p.table[ev.key].value;
    EmptyIffNothingDrained(e.pair.read);
    EmptyIffNothingDrained(e.pair.write);
  }

  // What a delivery leaves behind, told from the list of events.

  /** One event gives its directions the tick of this round and no other tick, and moves no entry, no
      remembered tick and no handle. */
  lemma EventGivesItsTick(p: Progress, ev: Event, tick: nat, ok: bool, key: nat, way: Way)
    requires Holds(p.table, key)
    ensures var q := HandleOne(p, ev, tick, ok);
            && Holds(q.table, key) && q.table[key].value.raw == p.table[key].value.raw
            && var d, d' := p.table[key].value.pair.At(way), q.table[key].value.pair.At(way);
               && d'.tick == (if ev.key == key && ev.Ready(way) then tick else d.tick)
               && d'.ticks == d.ticks
               && |d'.wakers| == |d.wakers| && forall i :: Holds(d'.wakers, i) <==> Holds(d.wakers, i)
  {
  }

  /** After the loop, a direction carries this round's tick if some event was for it, and its old tick
      otherwise. */
  lemma {:induction false} LoopGivesItsTick(p: Progress, events: seq<Event>, n: nat, tick: nat, oks: nat -> bool,
                                            key: nat, way: Way)
    requires n <= |events| && Holds(p.table, key) && !HandleFirst(p, events, n, tick, oks).failed
    ensures var q := HandleFirst(p, events, n, tick, oks);
            && Holds(q.table, key) && q.table[key].value.raw == p.table[key].value.raw
            && q.table[key].value.pair.At(way).tick
                 == if Unreached(events, n, key, way) then p.table[key].value.pair.At(way).tick else tick
    decreases n
  {
    hide HandleOne;
    if n > 0 {
      var last := n - 1;
      HandleNext(p, events, last, tick, oks);
      LoopGivesItsTick(p, events, last, tick, oks, key, way);
      EventGivesItsTick(HandleFirst(p, events, last, tick, oks), events[last], tick, oks(last), key, way);
      UnreachedNext(events, last, key, way);
    }
  }

  /** The sources of a table have different handles, and the poller knows them all. */
  ghost predicate KnownHandles(table: Table, interest: map<nat, Interest>) {
    && (forall i: nat | Holds(table, i) :: table[i].value.raw in interest)
    && (forall i: nat, j: nat | Holds(table, i) && Holds(table, j) && i != j :: table[i].value.raw != table[j].value.raw)
  }

  predicate Seen(events: seq<Event>, n: nat, key: nat)
    requires n <= |events|
  {
    exists i :: 0 <= i < n && events[i].key == key
  }

  /** The interest of the source at `key` after some events: untouched, or wide enough for its waiters. */
  predicate RightlyArmed(p: Progress, q: Progress, key: nat, seen: bool)
    requires Holds(p.table, key)
  {
    && Holds(q.table, key) && q.table[key].value.raw == p.table[key].value.raw
    && p.table[key].value.raw in p.interest && p.table[key].value.raw in q.interest
    && (!seen ==> q.interest[p.table[key].value.raw] == p.interest[p.table[key].value.raw])
    && (seen ==> forall way: Way | HasWaiter(q.table, key, way) :: q.interest[p.table[key].value.raw].Wants(way))
  }

  lemma EventArmsItsSource(p: Progress, ev: Event, tick: nat, ok: bool, key: nat)
    requires KnownHandles(p.table, p.interest) && Holds(p.table, key) && !HandleOne(p, ev, tick, ok).failed
    ensures KnownHandles(HandleOne(p, ev, tick, ok).table, HandleOne(p, ev, tick, ok).interest)
    ensures RightlyArmed(p, HandleOne(p, ev, tick, ok), key, ev.key == key)
  {
    var q := HandleOne(p, ev, tick, ok);
    forall i: nat | Holds(q.table, i)
      ensures Holds(p.table, i) && q.table[i].value.raw == p.table[i].value.raw
    {
    }
    if ev.key == key {
      HandledSourceIsCovered(p, ev, tick, ok);
    }
  }

  lemma EventLeavesOthersWaiters(p: Progress, ev: Event, tick: nat, ok: bool, key: nat)
    requires Holds(p.table, key) && ev.key != key
    ensures Holds(HandleOne(p, ev, tick, ok).table, key) && HandleOne(p, ev, tick, ok).table[key] == p.table[key]
  {
  }

  /** After a loop without failure, every source that had an event has its interest armed for all that
      still wait, and every other source's interest is as it was. */
  lemma {:induction false} LoopArmsItsSources(p: Progress, events: seq<Event>, n: nat, tick: nat, oks: nat -> bool,
                                              key: nat)
    requires n <= |events| && KnownHandles(p.table, p.interest) && Holds(p.table, key)
    requires !HandleFirst(p, events, n, tick, oks).failed
    ensures KnownHandles(HandleFirst(p, events, n, tick, oks).table, HandleFirst(p, events, n, tick, oks).interest)
    ensures RightlyArmed(p, HandleFirst(p, events, n, tick, oks), key, Seen(events, n, key))
    decreases n
  {
    hide HandleOne, KnownHandles;
    if n > 0 {
      var last := n - 1;
      var q := HandleFirst(p, events, last, tick, oks);
      HandleNext(p, events, last, tick, oks);
      LoopArmsItsSources(p, events, last, tick, oks, key);
      EventArmsItsSource(q, events[last], tick, oks(last), key);
      if events[last].key != key {
        EventLeavesOthersWaiters(q, events[last], tick, oks(last), key);
      }
      SeenNext(events, last, key);
    } else {
      AllKnown(p, key);
    }
  }

  lemma AllKnown(p: Progress, key: nat)
    requires KnownHandles(p.table, p.interest) && Holds(p.table, key)
    ensures p.table[key].value.raw in p.interest
  {
  }

  lemma SeenNext(events: seq<Event>, n: nat, key: nat)
    requires n < |events|
    ensures Seen(events, n + 1, key) <==> Seen(events, n, key) || events[n].key == key
  {
  }

  /** The second pass over the timers: if the wait ended without events although it was not told to
      return at once, every timer due by then has left the map and its waker is woken, once, and every
      other stays. However else the wait ends, no timer is touched, and only the sources add wakers. */
  lemma TimedOutWaitFiresWhatIsDue(w: World, w': World, early: seq<Waker>, timeout: Option<nat>, outcome: WaitOutcome,
                                   later: Instant, tick: nat, oks: nat -> bool,
                                   laterKeys: seq<Key>, woken: seq<Waker>, failed: bool)
    requires Finished(w, w', early, timeout, outcome, later, tick, oks, laterKeys, woken, failed)
    ensures outcome == Events([]) && timeout != Some(0) ==>
              && (forall key :: key in w'.effective <==> key in w.effective && later < key.when)
              && (forall key | key in w'.effective :: w'.effective[key] == w.effective[key])
              && early <= woken && |woken| == |early| + |laterKeys| && !failed
              && (forall key | key in w.effective && key.when <= later ::
                    exists i :: 0 <= i < |laterKeys| && laterKeys[i] == key && woken[|early| + i] == w.effective[key])
              && (forall i | 0 <= i < |laterKeys| :: laterKeys[i] in w.effective && laterKeys[i].when <= later)
              && (forall i, j | 0 <= i < j < |laterKeys| :: laterKeys[i] != laterKeys[j])
    ensures !(outcome == Events([]) && timeout != Some(0)) ==>
              && w'.effective == w.effective
              && (!(outcome.Events? && outcome.events != []) ==> woken == early && w' == w)
              && (!outcome.Events? ==> (failed <==> outcome.Broken?))
              && (forall waker :: multiset(woken)[waker] <= multiset(early)[waker] + StoredCopies(w.table, waker))
  {
    if outcome == Events([]) && timeout != Some(0) {
      SecondPassTakesAllDue(w.effective, early, later, laterKeys, woken);
    } else if outcome.Events? && outcome.events != [] {
      ReactConservesWakers(w, w', early, timeout, outcome, later, tick, oks, laterKeys, woken, failed);
      forall waker
        ensures multiset(woken)[waker] <= multiset(early)[waker] + StoredCopies(w.table, waker)
      {
        if !failed {
          assert early + [] == early;
          assert SameCopies(woken, w'.table, early, w.table);
        }
      }
    }
  }

  lemma SecondPassTakesAllDue(m: TimerMap, early: seq<Waker>, later: Instant, keys: seq<Key>, woken: seq<Waker>)
    requires Lists(keys, Due(m, later)) && woken == early + WakersAt(m, keys)
    ensures forall key | key in m && key.when <= later ::
              exists i :: 0 <= i < |keys| && keys[i] == key && woken[|early| + i] == m[key]
    ensures forall i | 0 <= i < |keys| :: keys[i] in m && keys[i].when <= later
    ensures forall i, j | 0 <= i < j < |keys| :: keys[i] != keys[j]
  {
    forall key | key in m && key.when <= later
      ensures exists i :: 0 <= i < |keys| && keys[i] == key && woken[|early| + i] == m[key]
    {
      assert key in Due(m, later);
      var i :| 0 <= i < |keys| && keys[i] == key;
      assert woken[|early| + i] == WakersAt(m, keys)[i];
    }
    forall i | 0 <= i < |keys|
      ensures keys[i] in m && keys[i].when <= later
    {
      assert keys[i] in keys;
    }
  }

  class Reactor {
    const store: Store
    const poller: Poller
    var ticker: nat
    var sources: seq<Slot<Source>>
    /** The sources taken out of the slab so far. */
    ghost var removed: seq<Source>

    constructor ()
      ensures Valid() && Table() == [] && ticker == 0
    {
      store := new Store(1000);
      poller := new Poller();
      ticker, sources, removed := 0, [], [];
    }

    function Dirs(): set<Direction>
      reads this
    {
      (set i | 0 <= i < |sources| && sources[i].Occupied? :: sources[i].value.read)
      + (set i | 0 <= i < |sources| && sources[i].Occupied? :: sources[i].value.write)
    }

    ghost predicate Valid()
      reads this, store
    {
      && store.Valid() && ticker < WORDS
      && (forall i | 0 <= i < |sources| && sources[i].Occupied? ::
            sources[i].value.key == i && sources[i].value.Valid())
      && (forall i, j | 0 <= i < |sources| && 0 <= j < |sources| && i != j
                        && sources[i].Occupied? && sources[j].Occupied? ::
            Apart(sources[i].value, sources[j].value))
    }

    ghost function EntryAt(i: nat): Slot<Entry>
      requires i < |sources|
      reads this, Dirs()
    {
      if sources[i].Vacant? then Vacant else Occupied(Entry(sources[i].value.raw, sources[i].value.View()))
    }

    /** The slab with everything in it. */
    ghost function Table(): (t: Table)
      reads this, Dirs()
      ensures |t| == |sources| && forall i | 0 <= i < |t| :: t[i] == EntryAt(i)
    {
      seq(|sources|, i requires 0 <= i < |sources| reads this, Dirs() => EntryAt(i))
    }

    /** One event of the list, under the lock of the sources. */
    method Handle(ev: Event, tick: nat, ok: bool, wakers: seq<Waker>) returns (wakers': seq<Waker>, failed: bool)
      requires Valid()
      modifies Dirs(), poller
      ensures Valid() && Dirs() == old(Dirs())
      ensures Progress(Table(), poller.interest, wakers', failed)
           == HandleOne(Progress(old(Table()), old(poller.interest), wakers, false), ev, tick, ok)
    {
      wakers', failed := wakers, false;
      if ev.key < |sources| && sources[ev.key].Occupied? {
        var source := sources[ev.key].value;
        label before:
        wakers', failed := source.HandleEvent(ev, tick, poller, ok, wakers);
        forall i | 0 <= i < |sources| && i != ev.key
          ensures EntryAt(i) == old@before(EntryAt(i))
        {
          assert sources[i].Occupied? ==> Apart(sources[i].value, source);
        }
        assert Table() == old(Table())[ev.key := EntryAt(ev.key)];
      } else {
        assert Table() == old(Table());
      }
    }

    method HandleEvents(events: seq<Event>, tick: nat, oks: nat -> bool, wakers: seq<Waker>)
      returns (wakers': seq<Waker>, failed: bool)
      requires Valid()
      modifies Dirs(), poller
      ensures Valid() && Dirs() == old(Dirs())
      ensures Progress(Table(), poller.interest, wakers', failed)
           == HandleFirst(Progress(old(Table()), old(poller.interest), wakers, false), events, |events|, tick, oks)
    {
      ghost var start := Progress(Table(), poller.interest, wakers, false);
      wakers', failed := wakers, false;
      var i := 0;
      while i < |events| && !failed
        invariant 0 <= i <= |events| && Valid() && Dirs() == old(Dirs())
        invariant Progress(Table(), poller.interest, wakers', failed) == HandleFirst(start, events, i, tick, oks)
      {
        HandleNext(start, events, i, tick, oks);
        wakers', failed := Handle(events[i], tick, oks(i), wakers');
        i := i + 1;
      }
      if failed {
        FailureStays(start, events, i, |events|, tick, oks);
      }
    }

    ghost function View(): World
      reads this, store, poller, Dirs()
    {
      World(store.Effective(), Table(), poller.interest)
    }

    /** `react` from the return of the wait to the wake loop; `timeout` is what the wait was given. */
    method AfterWait(timeout: Option<nat>, outcome: WaitOutcome, later: Instant, oks: nat -> bool, wakers: seq<Waker>)
      returns (woken: seq<Waker>, failed: bool, ghost laterKeys: seq<Key>)
      requires Valid()
      modifies store`timers, store`queue, store`fired, poller, Dirs()
      ensures Valid() && Dirs() == old(Dirs())
      ensures Finished(old(View()), View(), wakers, timeout, outcome, later, ticker, oks, laterKeys, woken, failed)
    {
      failed, laterKeys := false, [];
      woken := wakers;
      match outcome {
        case Events(events) =>
          poller.interest := Disarm(poller.interest, events);
          assert Table() == old(Table());
          if events == [] {
            assert poller.interest == old(poller.interest);
            if timeout != Some(0) {
              // Time has passed, so a second pass may find timers due.
              var delay;
              woken, delay, laterKeys := store.Pass(later, woken);
              assert Table() == old(Table());
            }
          } else {
            woken, failed := HandleEvents(events, ticker, oks, woken);
            if failed {
              // The error leaves before anybody is woken.
              woken := [];
            }
          }
        case Interrupted =>
        case Broken =>
          failed := true;
      }
    }

    /** `ReactorLock::react`: `now` and `later` are the readings of the clock in the passes before and
        after the wait, `oks(i)` is the poller's answer to renewing interest for the i-th event. */
    method React(limit: Option<nat>, now: Instant, outcome: WaitOutcome, later: Instant, oks: nat -> bool)
      returns (woken: seq<Waker>, failed: bool, ghost timeout: Option<nat>,
               ghost keys: seq<Key>, ghost laterKeys: seq<Key>)
      requires Valid() && now <= later
      modifies this`ticker, store`timers, store`queue, store`fired, poller, Dirs()
      ensures Valid() && Dirs() == old(Dirs())
      ensures ticker == (old(ticker) + 1) % WORDS
      ensures Lists(keys, Due(old(store.Effective()), now))
      ensures exists delay :: IsDelay(old(store.Effective()), now, delay) && timeout == MinTimeout(delay, limit)
      ensures var effective := old(store.Effective());
              Finished(old(View()).(effective := effective - Due(effective, now)), View(), WakersAt(effective, keys),
                       timeout, outcome, later, ticker, oks, laterKeys, woken, failed)
    {
      var wakers, delay;
      wakers, delay, keys := store.Pass(now, []);
      assert wakers == WakersAt(old(store.Effective()), keys);
      timeout := MinTimeout(delay, limit);
      // A new round begins before the wait, so that polls during the wait belong to it.
      ticker := (ticker + 1) % WORDS;
      assert Table() == old(Table());
      woken, failed, laterKeys := AfterWait(MinTimeout(delay, limit), outcome, later, oks, wakers);
    }

    /** `Reactor::insert_io`: `key` is the slab's choice, `addOk` the poller's answer. */
    method InsertIo(raw: nat, key: nat, addOk: bool) returns (source: Source?)
      requires Valid() && Available(sources, key)
      modifies this`sources, this`removed, poller
      ensures Valid()
      ensures (source != null) == addOk
      ensures addOk ==>
                && fresh(source) && fresh(source.read) && fresh(source.write)
                && source.key == key && source.raw == raw
                && sources == Put(old(sources), key, source as Source)
                && poller.interest == old(poller.interest)[raw := NOTHING]
                && removed == old(removed)
      ensures !addOk ==>
                && sources == (if key == |old(sources)| then old(sources) + [Vacant] else old(sources))
                && poller.interest == old(poller.interest)
                && |removed| == |old(removed)| + 1 && removed[..|old(removed)|] == old(removed)
                && fresh(removed[|old(removed)|])
    {
      var inserted := new Source(raw, key);
      sources := Put(sources, key, inserted);
      if addOk {
        poller.interest := poller.interest[raw := NOTHING];
        return inserted;
      }
      sources := sources[key := Vacant];
      removed := removed + [inserted];
      return null;
    }

    /** `Reactor::remove_io`: `deleteOk` is the poller's answer. The entry goes in either case. */
    method RemoveIo(source: Source, deleteOk: bool) returns (ok: bool)
      requires Valid() && Holds(sources, source.key) && sources[source.key].value == source
      modifies this`sources, this`removed, poller
      ensures Valid()
      ensures sources == old(sources)[source.key := Vacant] && removed == old(removed) + [source]
      ensures poller.interest == old(poller.interest) - {source.raw}
      ensures ok == deleteOk
    {
      sources := sources[source.key := Vacant];
      removed := removed + [source];
      poller.interest := poller.interest - {source.raw};
      ok := deleteOk;
    }
  }

  /** An I/O handle. It owns its source for as long as it owns the inner object. */
  class Async {
    const reactor: Reactor
    const source: Source
    var io: Option<nat>

    ghost predicate Valid()
      reads this, reactor, reactor.store
    {
      && reactor.Valid()
      && (io.Some? ==> Holds(reactor.sources, source.key) && reactor.sources[source.key].value == source)
    }

    constructor (reactor: Reactor, source: Source, io: nat)
      requires reactor.Valid() && Holds(reactor.sources, source.key) && reactor.sources[source.key].value == source
      ensures Valid() && this.reactor == reactor && this.source == source && this.io == Some(io)
    {
      this.reactor, this.source, this.io := reactor, source, Some(io);
    }

    /** The end of the handle's life: a handle that has given up its inner object does nothing. */
    method Drop(deleteOk: bool)
      requires Valid()
      modifies this, reactor`sources, reactor`removed, reactor.poller
      ensures Valid() && io == None
      ensures reactor.removed == old(reactor.removed) + if old(io).Some? then [source] else []
      ensures reactor.sources == if old(io).Some? then old(reactor.sources)[source.key := Vacant] else old(reactor.sources)
    {
      if io.Some? {
        var ok := reactor.RemoveIo(source, deleteOk);
        io := None;
      }
    }

    /** `into_inner` consumes the handle: whether or not the poller fails, and even though the handle
        is dropped at the end, its source is removed exactly once. */
    method IntoInner(deleteOk: bool) returns (inner: Option<nat>)
      requires Valid() && io.Some?
      modifies this, reactor`sources, reactor`removed, reactor.poller
      ensures Valid() && io == None
      ensures inner == if deleteOk then old(io) else None
      ensures reactor.removed == old(reactor.removed) + [source]
      ensures reactor.sources == old(reactor.sources)[source.key := Vacant]
    {
      var taken := io;
      io := None;
      var ok := reactor.RemoveIo(source, deleteOk);
      inner := if ok then taken else None;
      Drop(deleteOk);
    }
  }

  /** `Async::new_nonblocking`: no handle without a registered source. */
  method NewNonblocking(reactor: Reactor, raw: nat, key: nat, addOk: bool) returns (handle: Async?)
    requires reactor.Valid() && Available(reactor.sources, key)
    modifies reactor`sources, reactor`removed, reactor.poller
    ensures reactor.Valid() && (handle != null) == addOk
    ensures addOk ==>
              && fresh(handle) && handle.Valid() && handle.reactor == reactor && handle.io == Some(raw)
              && fresh(handle.source) && reactor.removed == old(reactor.removed)
              && reactor.sources == Put(old(reactor.sources), key, handle.source)
    ensures addOk ==> reactor.poller.interest == old(reactor.poller.interest)[raw := NOTHING]
    ensures !addOk ==>
              && reactor.sources == (if key == |old(reactor.sources)| then old(reactor.sources) + [Vacant]
                                     else old(reactor.sources))
              && reactor.poller.interest == old(reactor.poller.interest)
              && |reactor.removed| == |old(reactor.removed)| + 1
              && reactor.removed[..|old(reactor.removed)|] == old(reactor.removed)
              && fresh(reactor.removed[|old(reactor.removed)|])
  {
    var source := reactor.InsertIo(raw, key, addOk);
    if source == null {
      return null;
    }
    handle := new Async(reactor, source, raw);
  }

  predicate Apart(a: Source, b: Source) {
    a.read != b.read && a.read != b.write && a.write != b.read && a.write != b.write
  }
}
