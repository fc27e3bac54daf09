/** Any number of sources, futures and poll-slot users, interleaved with the one thread that is
    inside `react`. Three questions: can a waiter be left without armed interest, can a future become
    ready on a stale event, and can an event for a removed source be mistaken for the event of the
    source that took over its key?

    The lock of a source makes everything a poll does to it one step, except that the call of
    `modify` comes later: until then the source is `arming` and nobody else touches its state. The
    lock of the slab keeps insertions and removals out of the loop over the events. */
module IoSystem {
  import opened Environment
  import D = Directions

  type Way = D.Way

  /** `Closing` has given up its inner object and is about to leave the slab. */
  datatype Life = Adding | Live | Closing | Gone

  /** History of a direction: the round of the last delivery, where the log records it, and the
      rounds behind the two ticks that the poll slot remembers. */
  datatype Past = Past(last: nat, index: nat, now: nat, prior: nat)

  datatype Source = Source(key: nat, life: Life, born: nat, pair: D.Pair, read: Past, write: Past, removals: nat) {
    function At(way: Way): Past {
      if way.Read? then read else write
    }
  }

  /** A `Ready` future; `now` and `prior` are the rounds behind its two ticks: the current one and
      that of the last delivery at the time of its first poll. */
  datatype Waiter = Waiter(source: nat, way: Way, future: D.Future, now: nat, prior: nat)

  /** A fetched event. `origin` is the source it was fetched for; the reactor only sees the key. */
  datatype Event = Event(key: nat, origin: nat, readable: bool, writable: bool) {
    function Seen(): D.Event {
      D.Event(key, 0, readable, writable)
    }
  }

  datatype Phase =
    | Idle
    | Bumped
    | Fetched(events: seq<Event>)
    | Delivering(events: seq<Event>)

  datatype Delivery = Delivery(source: nat, way: Way, round: nat, origin: nat)

  /** `round` counts the rounds without wrapping; the machine's ticker is `Word(round)`. `uncovered`
      are the sources for which a `modify` has failed, or an event was dropped because of one. */
  datatype State = State(
    sources: map<nat, Source>,
    slab: map<nat, nat>,
    interest: map<nat, D.Interest>,
    waiters: map<nat, Waiter>,
    arming: set<nat>,
    uncovered: set<nat>,
    round: nat,
    phase: Phase,
    log: seq<Delivery>)

  function Word(round: nat): nat {
    round % WORDS
  }

  datatype Action =
    | Insert(source: nat, key: nat)
    | AddOk(source: nat)
    | AddFail(source: nat)
    | Close(source: nat)
    | Remove(source: nat)
    | NewWaiter(waiter: nat, source: nat, way: Way)
    | PollWaiter(waiter: nat, waker: Waker, slot: nat)
    | DropWaiter(waiter: nat)
    | PollSlot(source: nat, way: Way, waker: Waker)
    | Modify(source: nat, ok: bool)
    | Bump
    | Fetch(events: seq<Event>)
    | LockSources
    | Deliver(ok: bool)
    | Finish

  function InFlight(p: Phase): seq<Event> {
    match p
    case Fetched(events) => events
    case Delivering(events) => events
    case _ => []
  }

  predicate Is(s: State, source: nat, life: Life) {
    source in s.sources && s.sources[source].life == life
  }

  /** A handle can be closed only when nothing borrows it. */
  predicate Borrowed(s: State, source: nat) {
    source in s.arming || exists w :: w in s.waiters && s.waiters[w].source == source
  }

  /** The poller reports an event only for a source whose interest is armed. */
  predicate Fetchable(s: State, e: Event) {
    && e.origin in s.interest && s.interest[e.origin] != D.NOTHING
    && e.origin in s.sources && s.sources[e.origin].key == e.key
  }

  predicate Enabled(s: State, a: Action) {
    match a
    case Insert(x, key) => !s.phase.Delivering? && x !in s.sources && key !in s.slab
    case AddOk(x) => Is(s, x, Adding)
    case AddFail(x) => Is(s, x, Adding) && !s.phase.Delivering?
    case Close(x) => Is(s, x, Live) && !Borrowed(s, x)
    case Remove(x) => Is(s, x, Closing) && !s.phase.Delivering?
    case NewWaiter(w, x, way) => w !in s.waiters && Is(s, x, Live)
    case PollWaiter(w, _, slot) =>
      && w in s.waiters && s.waiters[w].source in s.sources && s.waiters[w].source !in s.arming
      && D.Indexed(s.sources[s.waiters[w].source].pair.At(s.waiters[w].way), s.waiters[w].future)
      && Available(s.sources[s.waiters[w].source].pair.At(s.waiters[w].way).wakers, slot)
    case DropWaiter(w) => w in s.waiters && s.waiters[w].source in s.sources && s.waiters[w].source !in s.arming
    case PollSlot(x, way, _) => Is(s, x, Live) && x !in s.arming
    case Modify(x, ok) => x in s.arming && x in s.sources
    case Bump => s.phase.Idle?
    case Fetch(events) => s.phase.Bumped? && forall i | 0 <= i < |events| :: Fetchable(s, events[i])
    case LockSources => s.phase.Fetched?
    case Deliver(ok) =>
      && s.phase.Delivering? && s.phase.events != []
      && (s.phase.events[0].key in s.slab ==>
            s.slab[s.phase.events[0].key] in s.sources && s.slab[s.phase.events[0].key] !in s.arming)
    case Finish => s.phase.Delivering? && s.phase.events == []
  }

  const NEVER := Past(0, 0, 0, 0)

  function Renew(s: State, x: nat, wanted: D.Interest): map<nat, D.Interest> {
    if x in s.interest then s.interest[x := wanted] else s.interest
  }

  /** The past of a direction after the delivery that the log records at `index`. */
  function After(p: Past, round: nat, index: nat): Past {
    p.(last := round, index := index)
  }

  function Records(x: nat, round: nat, e: Event): seq<Delivery> {
    (if e.writable then [Delivery(x, D.Write, round, e.origin)] else [])
    + (if e.readable then [Delivery(x, D.Read, round, e.origin)] else [])
  }

  function Delivered(src: Source, round: nat, at: nat, e: Event): Source {
    src.(pair := D.OnEvent(src.pair, e.Seen(), Word(round)),
         write := if e.writable then After(src.write, round, at) else src.write,
         read := if e.readable then After(src.read, round, if e.writable then at + 1 else at) else src.read)
  }

  /** The sources that lose an event when the loop is left early. */
  function Stranded(s: State, events: seq<Event>): set<nat> {
    set i | 0 <= i < |events| && events[i].key in s.slab :: s.slab[events[i].key]
  }

  function Next(s: State, a: Action): State
    requires Enabled(s, a)
  {
    match a
    case Insert(x, key) =>
      s.(sources := s.sources[x := Source(key, Adding, s.round, D.Pair(D.FRESH_DIR, D.FRESH_DIR), NEVER, NEVER, 0)],
         slab := s.slab[key := x])
    case AddOk(x) =>
      s.(sources := s.sources[x := s.sources[x].(life := Live)], interest := s.interest[x := D.NOTHING])
    case AddFail(x) =>
      var src := s.sources[x];
      s.(sources := s.sources[x := src.(life := Gone, removals := src.removals + 1)], slab := s.slab - {src.key})
    case Close(x) => s.(sources := s.sources[x := s.sources[x].(life := Closing)])
    case Remove(x) =>
      var src := s.sources[x];
      s.(sources := s.sources[x := src.(life := Gone, removals := src.removals + 1)],
         slab := s.slab - {src.key}, interest := s.interest - {x})
    case NewWaiter(w, x, way) => s.(waiters := s.waiters[w := Waiter(x, way, D.Future(None, None), 0, 0)])
    case PollWaiter(w, waker, slot) =>
      var waiter := s.waiters[w];
      var src := s.sources[waiter.source];
      var o := D.PollFuture(src.pair.At(waiter.way), waiter.future, waker, Word(s.round), slot);
      var first := !o.ready && waiter.future.index.None?;
      s.(sources := s.sources[waiter.source := src.(pair := src.pair.With(waiter.way, o.dir))],
         waiters := s.waiters[w := waiter.(future := o.future,
                                           now := if first then s.round else waiter.now,
                                           prior := if first then src.At(waiter.way).last else waiter.prior)],
         arming := if o.arm then s.arming + {waiter.source} else s.arming)
    case DropWaiter(w) =>
      var waiter := s.waiters[w];
      var src := s.sources[waiter.source];
      s.(sources := s.sources[waiter.source := src.(pair := src.pair.With(waiter.way,
                                D.DropFuture(src.pair.At(waiter.way), waiter.future)))],
         waiters := s.waiters - {w})
    case PollSlot(x, way, waker) =>
      var src := s.sources[x];
      var o := D.PollSlot(src.pair.At(way), waker, Word(s.round));
      var past := src.At(way);
      var seen := if o.ready || src.pair.At(way).waker == Some(waker) then past
                  else past.(now := s.round, prior := past.last);
      var src' := src.(pair := src.pair.With(way, o.dir));
      s.(sources := s.sources[x := if way.Read? then src'.(read := seen) else src'.(write := seen)],
         arming := if o.arm then s.arming + {x} else s.arming)
    case Modify(x, ok) =>
      if ok then s.(interest := Renew(s, x, s.sources[x].pair.Wanted()), arming := s.arming - {x},
                    uncovered := s.uncovered - {x})
      else s.(arming := s.arming - {x}, uncovered := s.uncovered + {x})
    case Bump => s.(round := s.round + 1, phase := Bumped)
    case Fetch(events) =>
      s.(phase := Fetched(events),
         interest := map x | x in s.interest ::
                       if exists i :: 0 <= i < |events| && events[i].origin == x then D.NOTHING else s.interest[x])
    case LockSources => s.(phase := Delivering(s.phase.events))
    case Deliver(ok) =>
      var e := s.phase.events[0];
      var rest := s.phase.events[1..];
      if e.key !in s.slab then s.(phase := Delivering(rest))
      else
        var x := s.slab[e.key];
        var src := Delivered(s.sources[x], s.round, |s.log|, e);
        var s' := s.(sources := s.sources[x := src], log := s.log + Records(x, s.round, e), phase := Delivering(rest));
        if src.pair.Wanted() == D.NOTHING then s'
        else if ok then s'.(interest := Renew(s, x, src.pair.Wanted()), uncovered := s.uncovered - {x})
        // The error leaves the loop: the remaining events are never looked at.
        else s'.(phase := Idle, uncovered := s.uncovered + {x} + Stranded(s, rest))
    case Finish => s.(phase := Idle)
  }

  predicate Init(s: State) {
    && s.sources == map[] && s.slab == map[] && s.interest == map[] && s.waiters == map[]
    && s.arming == {} && s.uncovered == {} && s.round == 0 && s.phase.Idle? && s.log == []
  }

  ghost predicate Behavior(run: seq<State>, steps: seq<Action>) {
    && |run| == |steps| + 1 && Init(run[0])
    && forall i | 0 <= i < |steps| :: Enabled(run[i], steps[i]) && run[i + 1] == Next(run[i], steps[i])
  }

  // The invariant.

  /** The slab holds exactly the sources that are not gone, each at its own key. */
  ghost predicate SlabGood(s: State) {
    && (forall k | k in s.slab ::
          s.slab[k] in s.sources && s.sources[s.slab[k]].key == k && !s.sources[s.slab[k]].life.Gone?)
    && (forall x | x in s.sources && !s.sources[x].life.Gone? ::
          s.sources[x].key in s.slab && s.slab[s.sources[x].key] == x)
  }

  /** The poller knows exactly the sources that have been added. */
  ghost predicate PollerGood(s: State) {
    forall x :: x in s.interest <==> Is(s, x, Live) || Is(s, x, Closing)
  }

  /** Only live sources are waited for or polled. */
  ghost predicate HoldersLive(s: State) {
    && (forall w | w in s.waiters :: Is(s, s.waiters[w].source, Live))
    && (forall x | x in s.arming :: Is(s, x, Live))
  }

  ghost predicate AllSettled(s: State) {
    forall x | x in s.sources :: Settled(s.sources[x], s.round)
  }

  ghost predicate Registered(s: State) {
    SlabGood(s) && PollerGood(s) && HoldersLive(s) && AllSettled(s)
  }

  predicate Settled(src: Source, round: nat) {
    && src.born <= round
    && src.removals == (if src.life.Gone? then 1 else 0)
    && (src.life.Adding? ==> src.pair.Wanted() == D.NOTHING)
  }

  function DirOf(s: State, w: Waiter): D.Dir
    requires w.source in s.sources
  {
    s.sources[w.source].pair.At(w.way)
  }

  predicate SameDir(a: Waiter, b: Waiter) {
    a.source == b.source && a.way == b.way
  }

  /** A future that has been polled holds an entry of its direction's slab. */
  predicate HasSlot(s: State, w: Waiter) {
    && w.source in s.sources
    && (w.future.index.None? <==> w.future.ticks.None?)
    && D.Indexed(DirOf(s, w), w.future)
  }

  ghost predicate Slots(s: State) {
    && (forall w | w in s.waiters :: HasSlot(s, s.waiters[w]))
    && (forall v, w | v in s.waiters && w in s.waiters && v != w && SameDir(s.waiters[v], s.waiters[w])
                      && s.waiters[v].future.index.Some? ::
          s.waiters[v].future.index != s.waiters[w].future.index)
  }

  ghost predicate OwnedSlot(s: State, x: nat, way: Way, i: nat) {
    exists w :: w in s.waiters && s.waiters[w].source == x && s.waiters[w].way == way
                && s.waiters[w].future.index == Some(i)
  }

  ghost predicate NoSpareSlots(s: State) {
    forall x, way, i | x in s.sources && Holds(s.sources[x].pair.At(way).wakers, i) :: OwnedSlot(s, x, way, i)
  }

  /** How the rounds behind two remembered ticks relate to the last delivery: it is the remembered
      one, or it came in the remembered round or later. */
  predicate Remembers(now: nat, prior: nat, last: nat, round: nat) {
    prior <= now <= round && prior <= last <= round && (last == prior || now <= last)
  }

  predicate Words(ticks: Option<(nat, nat)>, now: nat, prior: nat) {
    ticks == Some((Word(now), Word(prior)))
  }

  predicate DirTicks(d: D.Dir, p: Past, born: nat, round: nat) {
    && d.tick == Word(p.last) && p.last <= round
    && (d.ticks.Some? ==> Words(d.ticks, p.now, p.prior) && born <= p.now && Remembers(p.now, p.prior, p.last, round))
    && (d.waker.Some? ==> d.ticks.Some? && d.tick == d.ticks.value.1)
  }

  ghost predicate SlotTicks(s: State) {
    forall x, way: Way | x in s.sources :: DirTicks(s.sources[x].pair.At(way), s.sources[x].At(way), s.sources[x].born, s.round)
  }

  predicate WaiterTicks(s: State, w: Waiter) {
    w.source in s.sources && (w.future.index.Some? ==>
      && Words(w.future.ticks, w.now, w.prior) && s.sources[w.source].born <= w.now
      && Remembers(w.now, w.prior, s.sources[w.source].At(w.way).last, s.round)
      && (Holds(DirOf(s, w).wakers, w.future.index.value)
            && DirOf(s, w).wakers[w.future.index.value].value.Some? ==>
            !D.Fresh(DirOf(s, w).tick, w.future.ticks)))
  }

  ghost predicate AllWaiterTicks(s: State) {
    forall w | w in s.waiters :: WaiterTicks(s, s.waiters[w])
  }

  /** The log against the sources: a delivery for another source's event happened in the round in
      which the receiver was inserted. */
  predicate GoodRecord(s: State, l: Delivery) {
    && l.source in s.sources && 0 < l.round <= s.sources[l.source].At(l.way).last
    && (l.origin == l.source || l.round == s.sources[l.source].born)
  }

  predicate LastRecorded(s: State, x: nat, way: Way)
    requires x in s.sources
  {
    var p := s.sources[x].At(way);
    p.last > 0 ==>
      p.index < |s.log| && s.log[p.index] == Delivery(x, way, p.last, s.log[p.index].origin)
  }

  ghost predicate Logged(s: State) {
    && (forall i | 0 <= i < |s.log| :: GoodRecord(s, s.log[i]))
    && (forall x, way: Way | x in s.sources :: LastRecorded(s, x, way))
  }

  /** An event in flight was fetched for the source at its key, or that source is of this round. */
  predicate GoodEvent(s: State, e: Event) {
    e.key in s.slab && s.slab[e.key] in s.sources ==>
      s.slab[e.key] == e.origin || s.sources[s.slab[e.key]].born == s.round
  }

  ghost predicate GoodEvents(s: State) {
    && (!s.phase.Idle? ==> s.round > 0)
    && forall i | 0 <= i < |InFlight(s.phase)| :: GoodEvent(s, InFlight(s.phase)[i])
  }

  /** Somebody will hear about a direction: its interest is armed, or is about to be, or an event for
      the key has been fetched and not yet handled. */
  ghost predicate Attended(s: State, x: nat, way: Way)
    requires x in s.sources
  {
    || (x in s.interest && s.interest[x].Wants(way))
    || x in s.arming
    || exists i :: 0 <= i < |InFlight(s.phase)| && InFlight(s.phase)[i].key == s.sources[x].key
  }

  ghost predicate Covered(s: State, x: nat, way: Way)
    requires x in s.sources
  {
    !s.sources[x].life.Gone? && x !in s.uncovered && !s.sources[x].pair.At(way).Empty() ==> Attended(s, x, way)
  }

  ghost predicate AllCovered(s: State) {
    forall x, way: Way | x in s.sources :: Covered(s, x, way)
  }

  ghost predicate Inv(s: State) {
    && Registered(s) && Slots(s) && NoSpareSlots(s) && SlotTicks(s) && AllWaiterTicks(s)
    && Logged(s) && GoodEvents(s) && AllCovered(s)
  }

  // Steps that change the life of one source and no direction.

  predicate LifeStep(a: Action) {
    a.Insert? || a.AddOk? || a.AddFail? || a.Close? || a.Remove?
  }

  /** Apart from lives and the table of keys, nothing that the waiters see changes. */
  predicate SameInside(s: State, s': State, x: nat) {
    && s.sources.Keys <= s'.sources.Keys
    && (forall y | y in s.sources ::
          && s'.sources[y].pair == s.sources[y].pair && s'.sources[y].born == s.sources[y].born
          && s'.sources[y].read == s.sources[y].read && s'.sources[y].write == s.sources[y].write
          && s'.sources[y].key == s.sources[y].key)
    && (forall y | y in s'.sources && y !in s.sources ::
          y == x && s'.sources[y].pair == D.Pair(D.FRESH_DIR, D.FRESH_DIR)
          && s'.sources[y].read == NEVER && s'.sources[y].write == NEVER && s'.sources[y].born == s.round)
    && s'.waiters == s.waiters && s'.round == s.round && s'.phase == s.phase && s'.log == s.log
    && s'.arming == s.arming && s'.uncovered == s.uncovered
  }

  lemma LifeKeepsInside(s: State, a: Action)
    requires Enabled(s, a) && LifeStep(a)
    ensures SameInside(s, Next(s, a), a.source)
  {
  }

  lemma LifeKeepsSlab(s: State, a: Action)
    requires SlabGood(s) && Enabled(s, a) && LifeStep(a)
    ensures SlabGood(Next(s, a))
  {
  }

  lemma LifeKeepsPoller(s: State, a: Action)
    requires PollerGood(s) && Enabled(s, a) && LifeStep(a)
    ensures PollerGood(Next(s, a))
  {
    var s' := Next(s, a);
    forall x
      ensures x in s'.interest <==> Is(s', x, Live) || Is(s', x, Closing)
    {
      assert x in s.interest <==> Is(s, x, Live) || Is(s, x, Closing);
    }
  }

  lemma LifeKeepsHolders(s: State, a: Action)
    requires HoldersLive(s) && AllSettled(s) && Enabled(s, a) && LifeStep(a)
    ensures HoldersLive(Next(s, a)) && AllSettled(Next(s, a))
  {
    var s' := Next(s, a);
    forall w | w in s'.waiters
      ensures Is(s', s'.waiters[w].source, Live)
    {
      assert Is(s, s.waiters[w].source, Live);
    }
  }

  lemma LifeKeepsRegistered(s: State, a: Action)
    requires Registered(s) && Enabled(s, a) && LifeStep(a)
    ensures Registered(Next(s, a))
  {
    LifeKeepsSlab(s, a);
    LifeKeepsPoller(s, a);
    LifeKeepsHolders(s, a);
  }

  lemma InsideKeepsSlots(s: State, s': State, x: nat)
    requires SameInside(s, s', x) && Slots(s) && NoSpareSlots(s)
    ensures Slots(s') && NoSpareSlots(s')
  {
    forall w | w in s'.waiters
      ensures HasSlot(s', s'.waiters[w])
    {
      assert HasSlot(s, s.waiters[w]);
    }
    forall y, way, i | y in s'.sources && Holds(s'.sources[y].pair.At(way).wakers, i)
      ensures OwnedSlot(s', y, way, i)
    {
      assert OwnedSlot(s, y, way, i);
    }
  }

  lemma InsideKeepsTicks(s: State, s': State, x: nat)
    requires SameInside(s, s', x) && SlotTicks(s) && AllWaiterTicks(s)
    ensures SlotTicks(s') && AllWaiterTicks(s')
  {
    forall y, way: Way | y in s'.sources
      ensures DirTicks(s'.sources[y].pair.At(way), s'.sources[y].At(way), s'.sources[y].born, s'.round)
    {
      if y in s.sources {
        assert DirTicks(s.sources[y].pair.At(way), s.sources[y].At(way), s.sources[y].born, s.round);
      }
    }
    forall w | w in s'.waiters
      ensures WaiterTicks(s', s'.waiters[w])
    {
      assert WaiterTicks(s, s.waiters[w]);
    }
  }

  lemma InsideKeepsLogged(s: State, s': State, x: nat)
    requires SameInside(s, s', x) && Logged(s)
    ensures Logged(s')
  {
    forall i | 0 <= i < |s'.log|
      ensures GoodRecord(s', s'.log[i])
    {
      assert GoodRecord(s, s.log[i]);
    }
    forall y, way: Way | y in s'.sources
      ensures LastRecorded(s', y, way)
    {
      if y in s.sources {
        assert LastRecorded(s, y, way);
      }
    }
  }

  lemma LifeKeepsEvents(s: State, a: Action)
    requires Registered(s) && GoodEvents(s) && Enabled(s, a) && LifeStep(a)
    ensures GoodEvents(Next(s, a))
  {
    var s' := Next(s, a);
    forall i | 0 <= i < |InFlight(s'.phase)|
      ensures GoodEvent(s', InFlight(s'.phase)[i])
    {
      assert GoodEvent(s, InFlight(s.phase)[i]);
    }
  }

  lemma LifeKeepsCovered(s: State, a: Action)
    requires Registered(s) && AllCovered(s) && Enabled(s, a) && LifeStep(a)
    ensures AllCovered(Next(s, a))
  {
    var s' := Next(s, a);
    LifeKeepsInside(s, a);
    forall y, way: Way | y in s'.sources
      ensures Covered(s', y, way)
    {
      if y in s.sources {
        assert Covered(s, y, way);
        assert Settled(s.sources[y], s.round);
      }
    }
  }

  lemma LifeKeepsInv(s: State, a: Action)
    requires Inv(s) && Enabled(s, a) && LifeStep(a)
    ensures Inv(Next(s, a))
  {
    LifeKeepsInside(s, a);
    LifeKeepsRegistered(s, a);
    InsideKeepsSlots(s, Next(s, a), a.source);
    InsideKeepsTicks(s, Next(s, a), a.source);
    InsideKeepsLogged(s, Next(s, a), a.source);
    LifeKeepsEvents(s, a);
    LifeKeepsCovered(s, a);
  }

  // Steps of the reactor and of a poll's `modify` that change no source.

  predicate OuterStep(a: Action) {
    a.Modify? || a.Bump? || a.Fetch? || a.LockSources? || a.Finish?
  }

  /** The sources, the futures, the slab and the log stay; the round may only grow. */
  predicate SameSources(s: State, s': State) {
    && s'.sources == s.sources && s'.waiters == s.waiters && s'.slab == s.slab && s'.log == s.log
    && s'.interest.Keys == s.interest.Keys && s'.arming <= s.arming && s.round <= s'.round
  }

  lemma OuterKeepsSources(s: State, a: Action)
    requires Enabled(s, a) && OuterStep(a)
    ensures SameSources(s, Next(s, a))
  {
  }

  lemma OuterKeepsRegistered(s: State, s': State)
    requires Registered(s) && SameSources(s, s')
    ensures Registered(s')
  {
    forall x
      ensures x in s'.interest <==> Is(s', x, Live) || Is(s', x, Closing)
    {
      assert x in s.interest <==> Is(s, x, Live) || Is(s, x, Closing);
    }
    forall x | x in s'.sources
      ensures Settled(s'.sources[x], s'.round)
    {
      assert Settled(s.sources[x], s.round);
    }
  }

  lemma OuterKeepsSlots(s: State, s': State)
    requires Slots(s) && NoSpareSlots(s) && SameSources(s, s')
    ensures Slots(s') && NoSpareSlots(s')
  {
    forall w | w in s'.waiters
      ensures HasSlot(s', s'.waiters[w])
    {
      assert HasSlot(s, s.waiters[w]);
    }
    forall y, way, i | y in s'.sources && Holds(s'.sources[y].pair.At(way).wakers, i)
      ensures OwnedSlot(s', y, way, i)
    {
      assert OwnedSlot(s, y, way, i);
    }
  }

  lemma OuterKeepsTicks(s: State, s': State)
    requires SlotTicks(s) && AllWaiterTicks(s) && SameSources(s, s')
    ensures SlotTicks(s') && AllWaiterTicks(s')
  {
    forall w | w in s'.waiters
      ensures WaiterTicks(s', s'.waiters[w])
    {
      assert WaiterTicks(s, s.waiters[w]);
    }
    forall y, way: Way | y in s'.sources
      ensures DirTicks(s'.sources[y].pair.At(way), s'.sources[y].At(way), s'.sources[y].born, s'.round)
    {
      assert DirTicks(s.sources[y].pair.At(way), s.sources[y].At(way), s.sources[y].born, s.round);
    }
  }

  lemma OuterKeepsLogged(s: State, s': State)
    requires Logged(s) && SameSources(s, s')
    ensures Logged(s')
  {
    forall i | 0 <= i < |s'.log|
      ensures GoodRecord(s', s'.log[i])
    {
      assert GoodRecord(s, s.log[i]);
    }
    forall y, way: Way | y in s'.sources
      ensures LastRecorded(s', y, way)
    {
      assert LastRecorded(s, y, way);
    }
  }

  lemma OuterKeepsEvents(s: State, a: Action)
    requires Registered(s) && GoodEvents(s) && Enabled(s, a) && OuterStep(a)
    ensures GoodEvents(Next(s, a))
  {
    var s' := Next(s, a);
    forall i | 0 <= i < |InFlight(s'.phase)|
      ensures GoodEvent(s', InFlight(s'.phase)[i])
    {
      if a.Fetch? {
        assert Fetchable(s, a.events[i]);
      } else {
        assert GoodEvent(s, InFlight(s.phase)[i]);
      }
    }
  }

  lemma ModifyKeepsCovered(s: State, a: Action)
    requires Registered(s) && AllCovered(s) && Enabled(s, a) && a.Modify?
    ensures AllCovered(Next(s, a))
  {
    var s' := Next(s, a);
    assert Is(s, a.source, Live);
    forall y, way: Way | y in s'.sources
      ensures Covered(s', y, way)
    {
      assert Covered(s, y, way);
      if y == a.source && a.ok && !s.sources[y].pair.At(way).Empty() {
        assert s'.interest[y].Wants(way);
      }
    }
  }

  lemma FetchKeepsCovered(s: State, a: Action)
    requires AllCovered(s) && Enabled(s, a) && a.Fetch?
    ensures AllCovered(Next(s, a))
  {
    var s' := Next(s, a);
    forall y, way: Way | y in s'.sources
      ensures Covered(s', y, way)
    {
      assert Covered(s, y, way);
      if y in s.interest && s.interest[y] != s'.interest[y] {
        var i :| 0 <= i < |a.events| && a.events[i].origin == y;
        assert Fetchable(s, a.events[i]);
        assert InFlight(s'.phase)[i].key == s.sources[y].key;
      }
    }
  }

  lemma PhaseKeepsCovered(s: State, a: Action)
    requires AllCovered(s) && Enabled(s, a) && (a.Bump? || a.LockSources? || a.Finish?)
    ensures AllCovered(Next(s, a))
  {
    var s' := Next(s, a);
    assert InFlight(s'.phase) == InFlight(s.phase);
    forall y, way: Way | y in s'.sources
      ensures Covered(s', y, way)
    {
      assert Covered(s, y, way);
    }
  }

  lemma OuterKeepsInv(s: State, a: Action)
    requires Inv(s) && Enabled(s, a) && OuterStep(a)
    ensures Inv(Next(s, a))
  {
    var s' := Next(s, a);
    OuterKeepsSources(s, a);
    OuterKeepsRegistered(s, s');
    OuterKeepsSlots(s, s');
    OuterKeepsTicks(s, s');
    OuterKeepsLogged(s, s');
    OuterKeepsEvents(s, a);
    if a.Modify? {
      ModifyKeepsCovered(s, a);
    } else if a.Fetch? {
      FetchKeepsCovered(s, a);
    } else {
      PhaseKeepsCovered(s, a);
    }
  }

  // Polls and drops: one direction of one source changes under its lock.

  /** What a poll or a drop does to the world outside the direction. */
  predicate PollFrame(s: State, s': State, x: nat, way: Way, d: D.Dir, past: Past) {
    && x in s.sources && x in s'.sources
    && s'.sources == s.sources[x := s'.sources[x]]
    && s'.sources[x].pair == s.sources[x].pair.With(way, d)
    && s'.sources[x].At(way) == past && s'.sources[x].At(Other(way)) == s.sources[x].At(Other(way))
    && s'.sources[x].key == s.sources[x].key && s'.sources[x].life == s.sources[x].life
    && s'.sources[x].born == s.sources[x].born && s'.sources[x].removals == s.sources[x].removals
    && s'.slab == s.slab && s'.interest == s.interest && s'.uncovered == s.uncovered && s'.round == s.round
    && s'.phase == s.phase && s'.log == s.log
    && past.last == s.sources[x].At(way).last && past.index == s.sources[x].At(way).index
    && d.tick == s.sources[x].pair.At(way).tick
    && (s'.arming == s.arming || s'.arming == s.arming + {x})
  }

  function Other(way: Way): Way {
    if way.Read? then D.Write else D.Read
  }

  lemma FrameKeepsRegistered(s: State, s': State, x: nat, way: Way, d: D.Dir, past: Past)
    requires Registered(s) && PollFrame(s, s', x, way, d, past)
    requires s.sources[x].life.Live?
    requires forall w | w in s'.waiters :: w in s.waiters && s'.waiters[w].source == s.waiters[w].source
    ensures Registered(s')
  {
    forall y
      ensures y in s'.interest <==> Is(s', y, Live) || Is(s', y, Closing)
    {
      assert y in s.interest <==> Is(s, y, Live) || Is(s, y, Closing);
    }
    forall y | y in s'.sources
      ensures Settled(s'.sources[y], s'.round)
    {
      assert Settled(s.sources[y], s.round);
    }
    forall w | w in s'.waiters
      ensures Is(s', s'.waiters[w].source, Live)
    {
      assert Is(s, s.waiters[w].source, Live);
    }
    forall y | y in s'.arming
      ensures Is(s', y, Live)
    {
      assert y == x || Is(s, y, Live);
    }
  }

  lemma FrameKeepsLogged(s: State, s': State, x: nat, way: Way, d: D.Dir, past: Past)
    requires Logged(s) && GoodEvents(s) && PollFrame(s, s', x, way, d, past)
    ensures Logged(s') && GoodEvents(s')
  {
    forall y, v: Way | y in s'.sources
      ensures s'.sources[y].At(v).last == s.sources[y].At(v).last
      ensures s'.sources[y].At(v).index == s.sources[y].At(v).index
    {
      assert v == way || v == Other(way);
    }
    forall i | 0 <= i < |s'.log|
      ensures GoodRecord(s', s'.log[i])
    {
      assert GoodRecord(s, s.log[i]);
    }
    forall y, v: Way | y in s'.sources
      ensures LastRecorded(s', y, v)
    {
      assert LastRecorded(s, y, v);
    }
    forall i | 0 <= i < |InFlight(s'.phase)|
      ensures GoodEvent(s', InFlight(s'.phase)[i])
    {
      assert GoodEvent(s, InFlight(s.phase)[i]);
    }
  }

  /** A direction that was empty is being armed; one that was not stays attended. */
  lemma FrameKeepsCovered(s: State, s': State, x: nat, way: Way, d: D.Dir, past: Past)
    requires AllCovered(s) && PollFrame(s, s', x, way, d, past)
    requires !d.Empty() ==> !s.sources[x].pair.At(way).Empty() || x in s'.arming
    ensures AllCovered(s')
  {
    forall y, v: Way | y in s'.sources
      ensures Covered(s', y, v)
    {
      assert Covered(s, y, v);
      assert Attended(s, y, v) ==> Attended(s', y, v);
    }
  }

  // The poll slot.

  function SeenBySlot(s: State, a: Action): Past
    requires Enabled(s, a) && a.PollSlot?
  {
    var src := s.sources[a.source];
    var o := D.PollSlot(src.pair.At(a.way), a.waker, Word(s.round));
    if o.ready || src.pair.At(a.way).waker == Some(a.waker) then src.At(a.way)
    else src.At(a.way).(now := s.round, prior := src.At(a.way).last)
  }

  lemma SlotPollKeepsTicks(d: D.Dir, p: Past, waker: Waker, born: nat, round: nat)
    requires DirTicks(d, p, born, round) && born <= round
    ensures var o := D.PollSlot(d, waker, Word(round));
            var seen := if o.ready || d.waker == Some(waker) then p else p.(now := round, prior := p.last);
            && DirTicks(o.dir, seen, born, round)
            && o.dir.tick == d.tick && o.dir.wakers == d.wakers
            && (!o.dir.Empty() ==> !d.Empty() || o.arm)
  {
  }

  lemma PollSlotKeepsInv(s: State, a: Action)
    requires Inv(s) && Enabled(s, a) && a.PollSlot?
    ensures Inv(Next(s, a))
  {
    var s' := Next(s, a);
    var x, way := a.source, a.way;
    var d := s'.sources[x].pair.At(way);
    var seen := SeenBySlot(s, a);
    assert DirTicks(s.sources[x].pair.At(way), s.sources[x].At(way), s.sources[x].born, s.round);
    assert Settled(s.sources[x], s.round);
    SlotPollKeepsTicks(s.sources[x].pair.At(way), s.sources[x].At(way), a.waker, s.sources[x].born, s.round);
    assert PollFrame(s, s', x, way, d, seen);
    FrameKeepsRegistered(s, s', x, way, d, seen);
    FrameKeepsLogged(s, s', x, way, d, seen);
    FrameKeepsCovered(s, s', x, way, d, seen);
    SameWakersKeepSlots(s, s', x, way, d, seen);
  }

  lemma SameWakersKeepSlots(s: State, s': State, x: nat, way: Way, d: D.Dir, past: Past)
    requires Inv(s) && PollFrame(s, s', x, way, d, past)
    requires d.wakers == s.sources[x].pair.At(way).wakers && s'.waiters == s.waiters
    requires DirTicks(d, past, s.sources[x].born, s.round)
    ensures Slots(s') && NoSpareSlots(s') && SlotTicks(s') && AllWaiterTicks(s')
  {
    forall y, v: Way | y in s'.sources
      ensures DirTicks(s'.sources[y].pair.At(v), s'.sources[y].At(v), s'.sources[y].born, s'.round)
      ensures s'.sources[y].pair.At(v).wakers == s.sources[y].pair.At(v).wakers
      ensures s'.sources[y].pair.At(v).tick == s.sources[y].pair.At(v).tick
      ensures s'.sources[y].At(v).last == s.sources[y].At(v).last
    {
      assert v == way || v == Other(way);
      assert DirTicks(s.sources[y].pair.At(v), s.sources[y].At(v), s.sources[y].born, s.round);
    }
    forall w | w in s'.waiters
      ensures HasSlot(s', s'.waiters[w]) && WaiterTicks(s', s'.waiters[w])
    {
      assert HasSlot(s, s.waiters[w]) && WaiterTicks(s, s.waiters[w]);
    }
    forall y, v, i | y in s'.sources && Holds(s'.sources[y].pair.At(v).wakers, i)
      ensures OwnedSlot(s', y, v, i)
    {
      assert OwnedSlot(s, y, v, i);
    }
  }

  // Futures.

  lemma NewWaiterKeepsInv(s: State, a: Action)
    requires Inv(s) && Enabled(s, a) && a.NewWaiter?
    ensures Inv(Next(s, a))
  {
    var s' := Next(s, a);
    forall w | w in s'.waiters
      ensures HasSlot(s', s'.waiters[w]) && WaiterTicks(s', s'.waiters[w]) && Is(s', s'.waiters[w].source, Live)
    {
      assert w != a.waiter ==> HasSlot(s, s.waiters[w]) && WaiterTicks(s, s.waiters[w]);
    }
    NewWaiterKeepsOwners(s, a);
    SameSourcesKeepRest(s, s');
  }

  lemma NewWaiterKeepsOwners(s: State, a: Action)
    requires NoSpareSlots(s) && Enabled(s, a) && a.NewWaiter?
    ensures NoSpareSlots(Next(s, a))
  {
    var s' := Next(s, a);
    forall y, v: Way, i: nat | y in s'.sources && Holds(s'.sources[y].pair.At(v).wakers, i)
      ensures OwnedSlot(s', y, v, i)
    {
      assert OwnedSlot(s, y, v, i);
      var w :| w in s.waiters && s.waiters[w].source == y && s.waiters[w].way == v
               && s.waiters[w].future.index == Some(i);
      assert s'.waiters[w] == s.waiters[w];
    }
  }

  lemma SameSourcesKeepRest(s: State, s': State)
    requires Inv(s) && s' == s.(waiters := s'.waiters)
    ensures SlabGood(s') && PollerGood(s') && AllSettled(s') && SlotTicks(s')
    ensures Logged(s') && GoodEvents(s') && AllCovered(s')
  {
    forall x
      ensures x in s'.interest <==> Is(s', x, Live) || Is(s', x, Closing)
    {
      assert x in s.interest <==> Is(s, x, Live) || Is(s, x, Closing);
    }
    forall i | 0 <= i < |s'.log|
      ensures GoodRecord(s', s'.log[i])
    {
      assert GoodRecord(s, s.log[i]);
    }
    forall y, v: Way | y in s'.sources
      ensures LastRecorded(s', y, v) && Covered(s', y, v)
    {
      assert LastRecorded(s, y, v) && Covered(s, y, v);
    }
    forall i | 0 <= i < |InFlight(s'.phase)|
      ensures GoodEvent(s', InFlight(s'.phase)[i])
    {
      assert GoodEvent(s, InFlight(s.phase)[i]);
    }
  }

  /** One entry of a direction's slab changes and the rest of the direction stays. */
  predicate SlotChange(d: D.Dir, d': D.Dir, i: nat) {
    && d' == d.(wakers := d'.wakers) && |d.wakers| <= |d'.wakers|
    && (forall j | 0 <= j < |d'.wakers| && j != i :: j < |d.wakers| && d'.wakers[j] == d.wakers[j])
  }

  /** A poll or drop of the future `w` as a change of the slab entry `i`. */
  predicate WaiterFrame(s: State, s': State, w: nat, i: nat) {
    && w in s.waiters && s.waiters[w].source in s.sources
    && s.waiters[w].source in s'.sources
    && PollFrame(s, s', s.waiters[w].source, s.waiters[w].way,
                 s'.sources[s.waiters[w].source].pair.At(s.waiters[w].way),
                 s.sources[s.waiters[w].source].At(s.waiters[w].way))
    && SlotChange(s.sources[s.waiters[w].source].pair.At(s.waiters[w].way),
                  s'.sources[s.waiters[w].source].pair.At(s.waiters[w].way), i)
    && s'.waiters - {w} == s.waiters - {w}
    && (w in s'.waiters ==> s'.waiters[w].source == s.waiters[w].source && s'.waiters[w].way == s.waiters[w].way)
  }

  /** Nobody else's entry is touched. */
  predicate NotOthers(s: State, w: nat, i: nat)
    requires w in s.waiters
  {
    forall v | v in s.waiters && v != w && SameDir(s.waiters[v], s.waiters[w]) :: s.waiters[v].future.index != Some(i)
  }

  lemma OthersStay(s: State, s': State, w: nat, v: nat)
    requires s'.waiters - {w} == s.waiters - {w} && v != w
    ensures v in s.waiters <==> v in s'.waiters
    ensures v in s.waiters ==> s'.waiters[v] == s.waiters[v]
  {
    assert v in s.waiters <==> v in s.waiters - {w};
    assert v in s'.waiters <==> v in s'.waiters - {w};
    assert v in s.waiters ==> (s.waiters - {w})[v] == (s'.waiters - {w})[v];
  }

  lemma WaiterFrameKeepsOthers(s: State, s': State, w: nat, i: nat, v: nat)
    requires Slots(s) && AllWaiterTicks(s) && WaiterFrame(s, s', w, i) && NotOthers(s, w, i)
    requires v in s'.waiters && v != w
    ensures v in s.waiters && s'.waiters[v] == s.waiters[v]
    ensures HasSlot(s', s'.waiters[v]) && WaiterTicks(s', s'.waiters[v])
  {
    OthersStay(s, s', w, v);
    assert HasSlot(s, s.waiters[v]) && WaiterTicks(s, s.waiters[v]);
    var x, way := s.waiters[w].source, s.waiters[w].way;
    assert s.waiters[v].way == way || s.waiters[v].way == Other(way);
  }

  lemma WaiterFrameKeepsTicks(s: State, s': State, w: nat, i: nat)
    requires SlotTicks(s) && WaiterFrame(s, s', w, i)
    ensures SlotTicks(s')
  {
    forall y, v: Way | y in s'.sources
      ensures DirTicks(s'.sources[y].pair.At(v), s'.sources[y].At(v), s'.sources[y].born, s'.round)
    {
      assert v == s.waiters[w].way || v == Other(s.waiters[w].way);
      assert DirTicks(s.sources[y].pair.At(v), s.sources[y].At(v), s.sources[y].born, s.round);
    }
  }

  lemma WaiterFrameKeepsInv(s: State, s': State, w: nat, i: nat)
    requires Inv(s) && WaiterFrame(s, s', w, i) && NotOthers(s, w, i)
    requires w in s'.waiters ==> HasSlot(s', s'.waiters[w]) && WaiterTicks(s', s'.waiters[w])
    requires w in s'.waiters && s'.waiters[w].future.index.Some? ==>
               forall v | v in s.waiters && v != w && SameDir(s.waiters[v], s.waiters[w]) ::
                 s.waiters[v].future.index != s'.waiters[w].future.index
    requires Holds(s'.sources[s.waiters[w].source].pair.At(s.waiters[w].way).wakers, i) ==>
               w in s'.waiters && s'.waiters[w].future.index == Some(i)
    requires s.waiters[w].future.index.Some? ==> s.waiters[w].future.index == Some(i)
    requires var x, way := s.waiters[w].source, s.waiters[w].way;
             !s'.sources[x].pair.At(way).Empty() ==> !s.sources[x].pair.At(way).Empty() || x in s'.arming
    ensures Inv(s')
  {
    var x, way := s.waiters[w].source, s.waiters[w].way;
    var d := s'.sources[x].pair.At(way);
    forall v | v in s'.waiters
      ensures v in s.waiters && s'.waiters[v].source == s.waiters[v].source
      ensures HasSlot(s', s'.waiters[v]) && WaiterTicks(s', s'.waiters[v])
    {
      if v != w {
        WaiterFrameKeepsOthers(s, s', w, i, v);
      }
    }
    assert Is(s, x, Live);
    FrameKeepsRegistered(s, s', x, way, d, s.sources[x].At(way));
    FrameKeepsLogged(s, s', x, way, d, s.sources[x].At(way));
    FrameKeepsCovered(s, s', x, way, d, s.sources[x].At(way));
    WaiterFrameKeepsTicks(s, s', w, i);
    WaiterFrameKeepsSlots(s, s', w, i);
  }

  lemma WaiterFrameKeepsSlots(s: State, s': State, w: nat, i: nat)
    requires Inv(s) && WaiterFrame(s, s', w, i)
    requires forall v | v in s'.waiters :: HasSlot(s', s'.waiters[v])
    requires w in s'.waiters && s'.waiters[w].future.index.Some? ==>
               forall v | v in s.waiters && v != w && SameDir(s.waiters[v], s.waiters[w]) ::
                 s.waiters[v].future.index != s'.waiters[w].future.index
    requires Holds(s'.sources[s.waiters[w].source].pair.At(s.waiters[w].way).wakers, i) ==>
               w in s'.waiters && s'.waiters[w].future.index == Some(i)
    requires s.waiters[w].future.index.Some? ==> s.waiters[w].future.index == Some(i)
    ensures Slots(s') && NoSpareSlots(s')
  {
    forall u, v | u in s'.waiters && v in s'.waiters && u != v && SameDir(s'.waiters[u], s'.waiters[v])
                  && s'.waiters[u].future.index.Some?
      ensures s'.waiters[u].future.index != s'.waiters[v].future.index
    {
      if u != w { OthersStay(s, s', w, u); }
      if v != w { OthersStay(s, s', w, v); }
    }
    forall y, v: Way, j | y in s'.sources && Holds(s'.sources[y].pair.At(v).wakers, j)
      ensures OwnedSlot(s', y, v, j)
    {
      var x, way := s.waiters[w].source, s.waiters[w].way;
      if y == x && v == way && j == i {
        assert s'.waiters[w].source == x;
      } else {
        assert v == way || v == Other(way);
        assert Holds(s.sources[y].pair.At(v).wakers, j);
        assert OwnedSlot(s, y, v, j);
        var u :| u in s.waiters && s.waiters[u].source == y && s.waiters[u].way == v
                 && s.waiters[u].future.index == Some(j);
        OthersStay(s, s', w, u);
      }
    }
  }

  lemma DropWaiterKeepsInv(s: State, a: Action)
    requires Inv(s) && Enabled(s, a) && a.DropWaiter?
    ensures Inv(Next(s, a))
  {
    var s' := Next(s, a);
    var w := s.waiters[a.waiter];
    assert HasSlot(s, w);
    var i := if w.future.index.Some? then w.future.index.value else |DirOf(s, w).wakers|;
    assert s'.waiters - {a.waiter} == s.waiters - {a.waiter};
    assert WaiterFrame(s, s', a.waiter, i);
    WaiterFrameKeepsInv(s, s', a.waiter, i);
  }

  lemma PolledWaiterIsGood(s: State, a: Action)
    requires Inv(s) && Enabled(s, a) && a.PollWaiter?
    ensures var s' := Next(s, a);
            && HasSlot(s', s'.waiters[a.waiter]) && WaiterTicks(s', s'.waiters[a.waiter])
  {
    var w := s.waiters[a.waiter];
    assert HasSlot(s, w) && WaiterTicks(s, w);
    assert DirTicks(DirOf(s, w), s.sources[w.source].At(w.way), s.sources[w.source].born, s.round);
    assert Settled(s.sources[w.source], s.round);
  }

  lemma PolledWaiterHasFrame(s: State, a: Action, i: nat)
    requires Inv(s) && Enabled(s, a) && a.PollWaiter?
    requires var w := s.waiters[a.waiter]; i == if w.future.index.Some? then w.future.index.value else a.slot
    ensures WaiterFrame(s, Next(s, a), a.waiter, i) && NotOthers(s, a.waiter, i)
  {
    var w := s.waiters[a.waiter];
    assert HasSlot(s, w);
    assert Next(s, a).waiters - {a.waiter} == s.waiters - {a.waiter};
    forall v | v in s.waiters && v != a.waiter && SameDir(s.waiters[v], w)
      ensures s.waiters[v].future.index != Some(i)
    {
      assert HasSlot(s, s.waiters[v]);
    }
  }

  lemma PollWaiterKeepsInv(s: State, a: Action)
    requires Inv(s) && Enabled(s, a) && a.PollWaiter?
    ensures Inv(Next(s, a))
  {
    var w := s.waiters[a.waiter];
    assert HasSlot(s, w);
    var i := if w.future.index.Some? then w.future.index.value else a.slot;
    PolledWaiterIsGood(s, a);
    PolledWaiterHasFrame(s, a, i);
    WaiterFrameKeepsInv(s, Next(s, a), a.waiter, i);
  }

  // Deliveries.

  /** Delivering an event to the source `x`, up to the interest and the rest of the loop. */
  predicate DeliverFrame(s: State, s': State, x: nat, e: Event) {
    && e.key in s.slab && s.slab[e.key] == x && x in s.sources
    && s'.sources == s.sources[x := Delivered(s.sources[x], s.round, |s.log|, e)]
    && s'.log == s.log + Records(x, s.round, e)
    && s'.waiters == s.waiters && s'.slab == s.slab && s'.round == s.round && s'.arming == s.arming
    && s'.interest.Keys == s.interest.Keys
  }

  lemma DeliveryOnlyEmpties(p: D.Pair, e: D.Event, tick: nat)
    ensures var p' := D.OnEvent(p, e, tick);
            forall way: Way :: !p'.At(way).Empty() ==> !p.At(way).Empty() && !e.Ready(way)
    ensures p.Wanted() == D.NOTHING ==> D.OnEvent(p, e, tick).Wanted() == D.NOTHING
  {
    D.EmptyIffNothingDrained(p.read);
    D.EmptyIffNothingDrained(p.write);
    assert D.AfterDrain(p.read).Empty() && D.AfterDrain(p.write).Empty();
  }

  lemma DeliverKeepsRegistered(s: State, s': State, x: nat, e: Event)
    requires Registered(s) && DeliverFrame(s, s', x, e)
    ensures Registered(s')
  {
    DeliveryOnlyEmpties(s.sources[x].pair, e.Seen(), Word(s.round));
    forall y
      ensures y in s'.interest <==> Is(s', y, Live) || Is(s', y, Closing)
    {
      assert y in s.interest <==> Is(s, y, Live) || Is(s, y, Closing);
    }
    forall y | y in s'.sources
      ensures Settled(s'.sources[y], s'.round)
    {
      assert Settled(s.sources[y], s.round);
    }
    forall w | w in s'.waiters
      ensures Is(s', s'.waiters[w].source, Live)
    {
      assert Is(s, s.waiters[w].source, Live);
    }
    forall y | y in s'.arming
      ensures Is(s', y, Live)
    {
      assert Is(s, y, Live);
    }
  }

  /** What a delivery does to one direction of one source. */
  lemma DeliveredDir(s: State, s': State, x: nat, e: Event, y: nat, way: Way)
    requires DeliverFrame(s, s', x, e) && y in s.sources
    ensures var d, d' := s.sources[y].pair.At(way), s'.sources[y].pair.At(way);
            if y == x && e.Seen().Ready(way) then
              && d' == D.Deliver(d, Word(s.round)) && s'.sources[y].At(way).last == s.round
              && s'.sources[y].At(way).now == s.sources[y].At(way).now
              && s'.sources[y].At(way).prior == s.sources[y].At(way).prior
            else d' == d && s'.sources[y].At(way) == s.sources[y].At(way)
    ensures forall i :: Holds(s'.sources[y].pair.At(way).wakers, i) <==> Holds(s.sources[y].pair.At(way).wakers, i)
  {
  }

  lemma DeliverKeepsSlots(s: State, s': State, x: nat, e: Event)
    requires Slots(s) && NoSpareSlots(s) && DeliverFrame(s, s', x, e)
    ensures Slots(s') && NoSpareSlots(s')
  {
    forall w | w in s'.waiters
      ensures HasSlot(s', s'.waiters[w])
    {
      assert HasSlot(s, s.waiters[w]);
      DeliveredDir(s, s', x, e, s.waiters[w].source, s.waiters[w].way);
    }
    forall y, way: Way, i: nat | y in s'.sources && Holds(s'.sources[y].pair.At(way).wakers, i)
      ensures OwnedSlot(s', y, way, i)
    {
      DeliveredDir(s, s', x, e, y, way);
      assert OwnedSlot(s, y, way, i);
    }
  }

  lemma DeliverKeepsTicks(s: State, s': State, x: nat, e: Event)
    requires SlotTicks(s) && AllWaiterTicks(s) && DeliverFrame(s, s', x, e)
    ensures SlotTicks(s') && AllWaiterTicks(s')
  {
    forall y, way: Way | y in s'.sources
      ensures DirTicks(s'.sources[y].pair.At(way), s'.sources[y].At(way), s'.sources[y].born, s'.round)
    {
      assert DirTicks(s.sources[y].pair.At(way), s.sources[y].At(way), s.sources[y].born, s.round);
      DeliveredDir(s, s', x, e, y, way);
    }
    forall w | w in s'.waiters
      ensures WaiterTicks(s', s'.waiters[w])
    {
      assert WaiterTicks(s, s.waiters[w]);
      DeliveredDir(s, s', x, e, s.waiters[w].source, s.waiters[w].way);
    }
  }

  lemma DeliverKeepsLogged(s: State, s': State, x: nat, e: Event)
    requires SlotTicks(s) && Logged(s) && DeliverFrame(s, s', x, e)
    requires s.round > 0 && GoodEvent(s, e)
    ensures Logged(s')
  {
    forall y, way: Way | y in s'.sources
      ensures s.sources[y].At(way).last <= s'.sources[y].At(way).last
    {
      assert DirTicks(s.sources[y].pair.At(way), s.sources[y].At(way), s.sources[y].born, s.round);
    }
    forall i | 0 <= i < |s'.log|
      ensures GoodRecord(s', s'.log[i])
    {
      if i < |s.log| {
        assert s'.log[i] == s.log[i] && GoodRecord(s, s.log[i]);
      } else {
        assert s'.log[i] == Records(x, s.round, e)[i - |s.log|];
      }
    }
    forall y, way: Way | y in s'.sources
      ensures LastRecorded(s', y, way)
    {
      assert LastRecorded(s, y, way);
    }
  }

  /** The events left after the first; the source of the first is served, all others keep theirs. */
  lemma DeliverKeepsCovered(s: State, s': State, x: nat, e: Event)
    requires Registered(s) && AllCovered(s) && DeliverFrame(s, s', x, e)
    requires s.phase.Delivering? && s.phase.events != [] && s.phase.events[0] == e
    requires forall y | y in s.interest && y != x :: s'.interest[y] == s.interest[y]
    requires || (s'.phase == Delivering(s.phase.events[1..]) && s.uncovered <= s'.uncovered + {x})
             || (s'.phase == Idle && s'.uncovered == s.uncovered + {x} + Stranded(s, s.phase.events[1..]))
    requires forall way: Way :: Covered(s', x, way)
    ensures AllCovered(s')
  {
    forall y, way: Way | y in s'.sources
      ensures Covered(s', y, way)
    {
      if y != x && !s.sources[y].life.Gone? {
        assert Covered(s, y, way);
        assert s.slab[s.sources[y].key] == y;
        if Attended(s, y, way) && !((y in s.interest && s.interest[y].Wants(way)) || y in s.arming) {
          var i :| 0 <= i < |InFlight(s.phase)| && InFlight(s.phase)[i].key == s.sources[y].key;
          var rest := s.phase.events[1..];
          assert i > 0 && rest[i - 1] == InFlight(s.phase)[i];
          if s'.phase.Idle? {
            assert s.slab[rest[i - 1].key] == y;
            assert y in Stranded(s, rest);
          } else {
            assert InFlight(s'.phase)[i - 1] == rest[i - 1];
          }
        }
      }
    }
  }

  lemma DeliverCoversItsSource(s: State, a: Action)
    requires Registered(s) && Enabled(s, a) && a.Deliver? && s.phase.events[0].key in s.slab
    ensures var x := s.slab[s.phase.events[0].key]; forall way: Way :: Covered(Next(s, a), x, way)
  {
    var e := s.phase.events[0];
    var x := s.slab[e.key];
    var src := s.sources[x];
    DeliveryOnlyEmpties(src.pair, e.Seen(), Word(s.round));
    assert Settled(src, s.round);
    assert x in s.interest <==> Is(s, x, Live) || Is(s, x, Closing);
  }

  lemma SkippedEventKeepsInv(s: State, a: Action)
    requires Inv(s) && Enabled(s, a) && a.Deliver? && s.phase.events[0].key !in s.slab
    ensures Inv(Next(s, a))
  {
    var s' := Next(s, a);
    assert SameSources(s, s');
    OuterKeepsRegistered(s, s');
    OuterKeepsSlots(s, s');
    OuterKeepsTicks(s, s');
    OuterKeepsLogged(s, s');
    forall i | 0 <= i < |InFlight(s'.phase)|
      ensures GoodEvent(s', InFlight(s'.phase)[i])
    {
      assert GoodEvent(s, InFlight(s.phase)[i + 1]);
    }
    forall y, way: Way | y in s'.sources
      ensures Covered(s', y, way)
    {
      assert Covered(s, y, way);
      if !s.sources[y].life.Gone? && exists i :: 0 <= i < |InFlight(s.phase)| && InFlight(s.phase)[i].key == s.sources[y].key {
        var i :| 0 <= i < |InFlight(s.phase)| && InFlight(s.phase)[i].key == s.sources[y].key;
        assert InFlight(s'.phase)[i - 1] == InFlight(s.phase)[i];
      }
    }
  }

  lemma DeliverKeepsInv(s: State, a: Action)
    requires Inv(s) && Enabled(s, a) && a.Deliver?
    ensures Inv(Next(s, a))
  {
    var e := s.phase.events[0];
    if e.key !in s.slab {
      SkippedEventKeepsInv(s, a);
    } else {
      var s' := Next(s, a);
      var x := s.slab[e.key];
      assert GoodEvent(s, InFlight(s.phase)[0]);
      DeliverHasFrame(s, a);
      DeliverKeepsRegistered(s, s', x, e);
      DeliverKeepsSlots(s, s', x, e);
      DeliverKeepsTicks(s, s', x, e);
      DeliverKeepsLogged(s, s', x, e);
      DeliverCoversItsSource(s, a);
      DeliverKeepsCovered(s, s', x, e);
      DeliverKeepsEvents(s, a);
    }
  }

  lemma DeliverHasFrame(s: State, a: Action)
    requires Enabled(s, a) && a.Deliver? && s.phase.events[0].key in s.slab
    ensures var s' := Next(s, a);
            var x := s.slab[s.phase.events[0].key];
            && DeliverFrame(s, s', x, s.phase.events[0])
            && (forall y | y in s.interest && y != x :: s'.interest[y] == s.interest[y])
            && (|| (s'.phase == Delivering(s.phase.events[1..]) && s.uncovered <= s'.uncovered + {x})
                || (s'.phase == Idle && s'.uncovered == s.uncovered + {x} + Stranded(s, s.phase.events[1..])))
  {
  }

  lemma DeliverKeepsEvents(s: State, a: Action)
    requires Inv(s) && Enabled(s, a) && a.Deliver?
    ensures GoodEvents(Next(s, a))
  {
    var s' := Next(s, a);
    forall i | 0 <= i < |InFlight(s'.phase)|
      ensures GoodEvent(s', InFlight(s'.phase)[i])
    {
      assert GoodEvent(s, InFlight(s.phase)[i + 1]);
    }
  }

  lemma {:induction false} InvHolds(run: seq<State>, steps: seq<Action>, i: nat)
    requires Behavior(run, steps) && i < |run|
    ensures Inv(run[i])
    decreases i
  {
    if i > 0 {
      InvHolds(run, steps, i - 1);
      var s, a := run[i - 1], steps[i - 1];
      if LifeStep(a) {
        LifeKeepsInv(s, a);
      } else if OuterStep(a) {
        OuterKeepsInv(s, a);
      } else {
        match a
        case NewWaiter(_, _, _) => NewWaiterKeepsInv(s, a);
        case PollWaiter(_, _, _) => PollWaiterKeepsInv(s, a);
        case DropWaiter(_) => DropWaiterKeepsInv(s, a);
        case PollSlot(_, _, _) => PollSlotKeepsInv(s, a);
        case _ => DeliverKeepsInv(s, a);
      }
    }
  }

  // What every run promises: coverage.

  /** While a source is in the slab and no `modify` has failed on its account, each direction with a
      stored waker is attended: armed, about to be armed, or with an event on its way. */
  lemma WaitersAreCovered(run: seq<State>, steps: seq<Action>, i: nat, key: nat, way: Way)
    requires Behavior(run, steps) && i < |run| && key in run[i].slab && run[i].slab[key] in run[i].sources
    requires run[i].slab[key] !in run[i].uncovered
    requires !run[i].sources[run[i].slab[key]].pair.At(way).Empty()
    ensures Attended(run[i], run[i].slab[key], way)
  {
    InvHolds(run, steps, i);
    assert Covered(run[i], run[i].slab[key], way);
  }

  /** A poll that is not ready leaves its task's waker stored: in the future's own entry, or in the poll
      slot. And unless a `modify` has failed on that source's account, somebody will hear about it. */
  lemma PendingPollIsStoredAndAttended(run: seq<State>, steps: seq<Action>, i: nat)
    requires Behavior(run, steps) && i < |steps|
    ensures steps[i].PollWaiter? && !WaiterReady(run[i], steps[i].waiter, steps[i].waker, steps[i].slot) ==>
              && steps[i].waiter in run[i + 1].waiters
              && var w := run[i + 1].waiters[steps[i].waiter];
                 && EntryOf(run[i + 1], w) == Some(Some(steps[i].waker)) && w.source in run[i + 1].sources
                 && (w.source !in run[i + 1].uncovered ==> Attended(run[i + 1], w.source, w.way))
    ensures steps[i].PollSlot? && !SlotReady(run[i], steps[i].source, steps[i].way, steps[i].waker) ==>
              && steps[i].source in run[i + 1].sources
              && run[i + 1].sources[steps[i].source].pair.At(steps[i].way).waker == Some(steps[i].waker)
              && (steps[i].source !in run[i + 1].uncovered ==> Attended(run[i + 1], steps[i].source, steps[i].way))
  {
    InvHolds(run, steps, i);
    InvHolds(run, steps, i + 1);
    var s', a := run[i + 1], steps[i];
    if a.PollWaiter? && !WaiterReady(run[i], a.waiter, a.waker, a.slot) {
      PendingPollStoresWaker(run[i], a);
      StoredWakerIsAttended(s', s'.waiters[a.waiter].source, s'.waiters[a.waiter].way);
    } else if a.PollSlot? && !SlotReady(run[i], a.source, a.way, a.waker) {
      PendingSlotPollStoresWaker(run[i], a);
      StoredWakerIsAttended(s', a.source, a.way);
    }
  }

  lemma PendingPollStoresWaker(s: State, a: Action)
    requires Inv(s) && Enabled(s, a) && a.PollWaiter? && !WaiterReady(s, a.waiter, a.waker, a.slot)
    ensures var s' := Next(s, a);
            && a.waiter in s'.waiters && Waits(s', s'.waiters[a.waiter].source, s'.waiters[a.waiter].way)
            && EntryOf(s', s'.waiters[a.waiter]) == Some(Some(a.waker))
  {
    var w := s.waiters[a.waiter];
    assert HasSlot(s, w) && Is(s, w.source, Live);
    D.FuturePollConservesWakers(DirOf(s, w), w.future, a.waker, Word(s.round), a.slot);
    var w' := Next(s, a).waiters[a.waiter];
    assert DirOf(Next(s, a), w').wakers[w'.future.index.value] == Occupied(Some(a.waker));
  }

  lemma PendingSlotPollStoresWaker(s: State, a: Action)
    requires Enabled(s, a) && a.PollSlot? && !SlotReady(s, a.source, a.way, a.waker)
    ensures Waits(Next(s, a), a.source, a.way)
    ensures Next(s, a).sources[a.source].pair.At(a.way).waker == Some(a.waker)
  {
    D.SlotPollConservesWakers(s.sources[a.source].pair.At(a.way), a.waker, Word(s.round));
  }

  lemma StoredWakerIsAttended(s: State, x: nat, way: Way)
    requires Inv(s) && Waits(s, x, way)
    ensures x !in s.uncovered ==> Attended(s, x, way)
  {
    assert Covered(s, x, way);
  }

  /** What a future remembers at its first poll stays as it is for the rest of its life. */
  lemma FirstPollIsRemembered(run: seq<State>, steps: seq<Action>, i: nat, w: nat)
    requires Behavior(run, steps) && i < |steps| && w in run[i].waiters && w in run[i + 1].waiters
    requires run[i].waiters[w].future.index.Some?
    ensures run[i + 1].waiters[w] == run[i].waiters[w]
  {
    if steps[i].PollWaiter? && steps[i].waiter == w {
      var s, a := run[i], steps[i];
      D.FuturePollConservesWakers(DirOf(s, s.waiters[w]), s.waiters[w].future, a.waker, Word(s.round), a.slot);
    } else {
      OtherStepsLeaveWaiter(run[i], steps[i], w);
    }
  }

  lemma OtherStepsLeaveWaiter(s: State, a: Action, w: nat)
    requires Enabled(s, a) && w in s.waiters && w in Next(s, a).waiters && !(a.PollWaiter? && a.waiter == w)
    ensures Next(s, a).waiters[w] == s.waiters[w]
  {
    if a.Deliver? && s.phase.events[0].key in s.slab {
      DeliverHasFrame(s, a);
    }
  }

  /** Every answer of the poller to `modify` so far was a success. */
  ghost predicate AllAccepted(steps: seq<Action>, n: nat)
    requires n <= |steps|
  {
    forall i | 0 <= i < n && (steps[i].Modify? || steps[i].Deliver?) :: steps[i].ok
  }

  lemma AcceptanceUncoversNobody(s: State, a: Action)
    requires Enabled(s, a) && (a.Modify? || a.Deliver? ==> a.ok)
    ensures Next(s, a).uncovered <= s.uncovered
  {
  }

  lemma {:induction false} NothingUncovered(run: seq<State>, steps: seq<Action>, i: nat)
    requires Behavior(run, steps) && i < |run| && AllAccepted(steps, i)
    ensures run[i].uncovered == {}
    decreases i
  {
    if i > 0 {
      NothingUncovered(run, steps, i - 1);
      assert steps[i - 1].Modify? || steps[i - 1].Deliver? ==> steps[i - 1].ok;
      AcceptanceUncoversNobody(run[i - 1], steps[i - 1]);
    }
  }

  /** As long as the poller accepts every `modify`, no stored waker is ever without cover. */
  lemma AcceptedModifiesCoverEverybody(run: seq<State>, steps: seq<Action>, i: nat, x: nat, way: Way)
    requires Behavior(run, steps) && i < |run| && AllAccepted(steps, i)
    requires x in run[i].sources && !run[i].sources[x].life.Gone? && !run[i].sources[x].pair.At(way).Empty()
    ensures Attended(run[i], x, way)
  {
    InvHolds(run, steps, i);
    NothingUncovered(run, steps, i);
    assert Covered(run[i], x, way);
  }

  /** The interest in a direction is armed or about to be. */
  predicate Armed(s: State, x: nat, way: Way) {
    (x in s.interest && s.interest[x].Wants(way)) || x in s.arming
  }

  ghost predicate EventFor(s: State, events: seq<Event>, x: nat)
    requires x in s.sources
  {
    exists i :: 0 <= i < |events| && events[i].key == s.sources[x].key
  }

  /** A source still in the slab has a waker stored in the direction. */
  predicate Waits(s: State, x: nat, way: Way) {
    x in s.sources && !s.sources[x].life.Gone? && !s.sources[x].pair.At(way).Empty()
  }

  /** Handling an event asks the poller to renew interest exactly if it leaves a waiter behind, and
      then a rejection ends the loop. */
  lemma RejectionEndsTheLoopIff(run: seq<State>, steps: seq<Action>, i: nat)
    requires Behavior(run, steps) && i < |steps| && steps[i] == Deliver(false)
    ensures run[i + 1].phase.Idle? <==>
              var e := run[i].phase.events[0];
              e.key in run[i].slab
              && exists way: Way :: Waits(run[i], run[i].slab[e.key], way) && !e.Seen().Ready(way)
  {
    InvHolds(run, steps, i);
    var s, e := run[i], run[i].phase.events[0];
    if e.key in s.slab {
      var pair := s.sources[s.slab[e.key]].pair;
      DeliveryOnlyEmpties(pair, e.Seen(), Word(s.round));
      var after := D.OnEvent(pair, e.Seen(), Word(s.round));
      assert after.Wanted() == D.NOTHING <==> after.At(D.Read).Empty() && after.At(D.Write).Empty();
      forall way: Way
        ensures !after.At(way).Empty() <==> Waits(s, s.slab[e.key], way) && !e.Seen().Ready(way)
      {
      }
    }
  }

  /** When renewing interest fails inside `react`, the rest of the events is dropped. A waiter is left
      without cover exactly if the handled event did not wake it and its interest was neither armed
      again nor about to be. That goes for the waiters of the rejected source as for all others. */
  lemma FailedRenewalDropsTheRest(run: seq<State>, steps: seq<Action>, i: nat, y: nat, way: Way)
    requires Behavior(run, steps) && i < |steps| && steps[i] == Deliver(false) && run[i + 1].phase.Idle?
    requires y in run[i].sources
    ensures y in run[i + 1].sources
    ensures Attended(run[i + 1], y, way) <==> Armed(run[i], y, way)
    ensures Waits(run[i + 1], y, way) <==>
              Waits(run[i], y, way)
              && (run[i].slab[run[i].phase.events[0].key] == y ==> !run[i].phase.events[0].Seen().Ready(way))
    ensures run[i].slab[run[i].phase.events[0].key] != y ==> run[i + 1].sources[y] == run[i].sources[y]
  {
    var e := run[i].phase.events[0];
    DeliveryOnlyEmpties(run[i].sources[y].pair, e.Seen(), Word(run[i].round));
  }

  /** When the `modify` of a poll fails, its source loses the promise to be armed and nothing else
      changes for anybody. The waker stays stored all the same. */
  lemma FailedModifyKeepsTheWaiter(run: seq<State>, steps: seq<Action>, i: nat, x: nat, y: nat, way: Way)
    requires Behavior(run, steps) && i < |steps| && steps[i] == Modify(x, false) && y in run[i].sources
    ensures run[i + 1].sources == run[i].sources
    ensures Attended(run[i + 1], y, way) <==>
              || (y in run[i].interest && run[i].interest[y].Wants(way))
              || (y in run[i].arming && y != x)
              || EventFor(run[i], InFlight(run[i].phase), y)
  {
  }

  predicate Polls(s: State, a: Action, x: nat, way: Way) {
    || (a.PollSlot? && a.source == x && a.way == way)
    || (a.PollWaiter? && a.waiter in s.waiters && s.waiters[a.waiter].source == x && s.waiters[a.waiter].way == way)
  }

  /** What a step can do for a waiter without cover: nothing, unless it is a first poll of the other
      direction, or a fetch on account of that one. */
  ghost predicate LeavesUncovered(s: State, s': State, a: Action, x: nat, way: Way)
    requires x in s.sources
  {
    && x in s'.sources
    && (Attended(s', x, way) <==> x in s'.arming || (a.Fetch? && EventFor(s, a.events, x)))
    && (x in s'.arming ==> Polls(s, a, x, Other(way)) && s.sources[x].pair.At(Other(way)).Empty())
    && (a.Fetch? && EventFor(s, a.events, x) ==> x in s.interest && s.interest[x].Wants(Other(way)))
    && (x in s'.interest && s'.interest[x] != D.NOTHING ==> x in s.interest && s'.interest[x] == s.interest[x])
  }

  /** Only an empty direction is armed by a poll, and only armed interest is fetched. So a waiter
      without cover gets none from a poll of its own direction, nor from anything else but the other
      direction. */
  lemma UncoveredStep(s: State, a: Action, x: nat, way: Way)
    requires Inv(s) && Enabled(s, a) && Waits(s, x, way) && !Attended(s, x, way)
    ensures LeavesUncovered(s, Next(s, a), a, x, way)
  {
    if LifeStep(a) {
      LifeLeavesUncovered(s, a, x, way);
    } else if a.PollSlot? || a.PollWaiter? {
      PollLeavesUncovered(s, a, x, way);
    } else if a.Fetch? {
      FetchLeavesUncovered(s, a, x, way);
    } else if a.Deliver? {
      DeliverLeavesUncovered(s, a, x, way);
    } else {
      RestLeavesUncovered(s, a, x, way);
    }
  }

  lemma LifeLeavesUncovered(s: State, a: Action, x: nat, way: Way)
    requires AllSettled(s) && Enabled(s, a) && LifeStep(a) && Waits(s, x, way) && !Attended(s, x, way)
    ensures LeavesUncovered(s, Next(s, a), a, x, way)
  {
    var s' := Next(s, a);
    WaitsMeansAdded(s, x, way);
    LifeKeepsInside(s, a);
    LifeArmsNobody(s, a, x);
    InsideLeavesUncovered(s, s', a, x, way);
  }

  lemma WaitsMeansAdded(s: State, x: nat, way: Way)
    requires AllSettled(s) && Waits(s, x, way)
    ensures !s.sources[x].life.Adding?
  {
    assert Settled(s.sources[x], s.round);
  }

  lemma InsideLeavesUncovered(s: State, s': State, a: Action, x: nat, way: Way)
    requires LifeStep(a) && SameInside(s, s', a.source) && Waits(s, x, way) && !Attended(s, x, way)
    requires x in s'.interest ==> x in s.interest && s'.interest[x] == s.interest[x]
    ensures LeavesUncovered(s, s', a, x, way)
  {
    assert InFlight(s'.phase) == InFlight(s.phase) && s'.sources[x].key == s.sources[x].key;
  }

  lemma LifeArmsNobody(s: State, a: Action, x: nat)
    requires Enabled(s, a) && LifeStep(a) && x in s.sources && !s.sources[x].life.Adding?
    ensures x in Next(s, a).interest ==> x in s.interest && Next(s, a).interest[x] == s.interest[x]
  {
    assert a.AddOk? ==> a.source != x;
  }

  lemma PollLeavesUncovered(s: State, a: Action, x: nat, way: Way)
    requires Enabled(s, a) && (a.PollSlot? || a.PollWaiter?) && Waits(s, x, way) && !Attended(s, x, way)
    ensures LeavesUncovered(s, Next(s, a), a, x, way)
  {
    var s' := Next(s, a);
    var polled := if a.PollSlot? then a.way else s.waiters[a.waiter].way;
    assert polled == way || polled == Other(way);
    assert s'.interest == s.interest && s'.phase == s.phase && s'.sources[x].key == s.sources[x].key;
  }

  lemma FetchLeavesUncovered(s: State, a: Action, x: nat, way: Way)
    requires SlabGood(s) && PollerGood(s) && Enabled(s, a) && a.Fetch? && Waits(s, x, way) && !Attended(s, x, way)
    ensures LeavesUncovered(s, Next(s, a), a, x, way)
  {
    var s' := Next(s, a);
    assert InFlight(s'.phase) == a.events && s'.sources == s.sources && s'.arming == s.arming;
    assert x in s'.interest ==> x in s.interest && (s'.interest[x] == s.interest[x] || s'.interest[x] == D.NOTHING);
    if EventFor(s, a.events, x) {
      var i :| 0 <= i < |a.events| && a.events[i].key == s.sources[x].key;
      assert Fetchable(s, a.events[i]);
      var y := a.events[i].origin;
      assert y in s.interest <==> Is(s, y, Live) || Is(s, y, Closing);
      assert s.slab[s.sources[y].key] == y && s.slab[s.sources[x].key] == x;
      assert s.interest[x] != D.NOTHING && !s.interest[x].Wants(way);
    }
  }

  lemma DeliverLeavesUncovered(s: State, a: Action, x: nat, way: Way)
    requires SlabGood(s) && Enabled(s, a) && a.Deliver? && Waits(s, x, way) && !Attended(s, x, way)
    ensures LeavesUncovered(s, Next(s, a), a, x, way)
  {
    var s', e := Next(s, a), s.phase.events[0];
    assert InFlight(s.phase)[0] == e && e.key != s.sources[x].key;
    if e.key in s.slab {
      DeliverHasFrame(s, a);
      assert s.sources[s.slab[e.key]].key == e.key;
    }
    forall i | 0 <= i < |InFlight(s'.phase)|
      ensures InFlight(s'.phase)[i].key != s.sources[x].key
    {
      assert InFlight(s'.phase)[i] == InFlight(s.phase)[i + 1];
    }
  }

  lemma RestLeavesUncovered(s: State, a: Action, x: nat, way: Way)
    requires Enabled(s, a) && Waits(s, x, way) && !Attended(s, x, way)
    requires a.NewWaiter? || a.DropWaiter? || (OuterStep(a) && !a.Fetch?)
    ensures LeavesUncovered(s, Next(s, a), a, x, way)
  {
    var s' := Next(s, a);
    assert a.Modify? ==> a.source != x;
    assert InFlight(s'.phase) == InFlight(s.phase) && s'.sources[x].key == s.sources[x].key;
  }

  /** A waiter whose source is disarmed and who is left without cover is stranded for as long as it
      waits and nobody polls the other direction, however often its own direction is polled. */
  lemma {:induction false} StrandedForGood(run: seq<State>, steps: seq<Action>, i: nat, j: nat, x: nat, way: Way)
    requires Behavior(run, steps) && i <= j < |run|
    requires forall k | i <= k <= j :: Waits(run[k], x, way)
    requires forall k | i <= k < j :: !Polls(run[k], steps[k], x, Other(way))
    requires x in run[i].sources && !Attended(run[i], x, way)
    requires x in run[i].interest ==> run[i].interest[x] == D.NOTHING
    ensures x in run[j].sources && !Attended(run[j], x, way)
    ensures x in run[j].interest ==> run[j].interest[x] == D.NOTHING
    decreases j - i
  {
    if i < j {
      StrandedForGood(run, steps, i, j - 1, x, way);
      InvHolds(run, steps, j - 1);
      assert Waits(run[j - 1], x, way);
      UncoveredStep(run[j - 1], steps[j - 1], x, way);
    }
  }

  /** A run with one more step. */
  lemma Extend(run: seq<State>, steps: seq<Action>, a: Action) returns (run': seq<State>, steps': seq<Action>)
    requires Behavior(run, steps) && Enabled(run[|steps|], a)
    ensures Behavior(run', steps') && run'[|steps'|] == Next(run[|steps|], a)
  {
    run', steps' := run + [Next(run[|steps|], a)], steps + [a];
  }

  // Freshness.

  lemma SameWord(a: nat, b: nat)
    requires b <= a
    ensures Word(a) == Word(b) <==> (a - b) % WORDS == 0
  {
    if Word(a) == Word(b) {
      assert a - b == WORDS * (a / WORDS - b / WORDS);
      WholeWraps(0, a / WORDS - b / WORDS);
    }
    if (a - b) % WORDS == 0 {
      assert a == b + WORDS * ((a - b) / WORDS);
      WholeWraps(b, (a - b) / WORDS);
    }
  }

  lemma WholeWraps(n: nat, wraps: nat)
    ensures (n + WORDS * wraps) % WORDS == n % WORDS
  {
    var total := n + WORDS * wraps;
    var k := n / WORDS + wraps - total / WORDS;
    assert total % WORDS - n % WORDS == WORDS * k;
    if k > 0 {
      AtLeastOneWrap(k);
    } else if k < 0 {
      assert WORDS * k == -(WORDS * -k);
      AtLeastOneWrap(-k);
    }
  }

  lemma AtLeastOneWrap(wraps: nat)
    requires wraps > 0
    ensures WORDS * wraps >= WORDS
  {
    assert WORDS * wraps == WORDS * (wraps - 1) + WORDS;
  }

  /** The log has a delivery to the direction in a round after `round`. */
  ghost predicate DeliveredAfter(s: State, x: nat, way: Way, round: nat) {
    exists i :: 0 <= i < |s.log| && s.log[i].source == x && s.log[i].way == way && s.log[i].round > round
  }

  lemma LastDecides(s: State, x: nat, way: Way, round: nat)
    requires Logged(s) && x in s.sources
    ensures DeliveredAfter(s, x, way, round) <==> s.sources[x].At(way).last > round
  {
    assert LastRecorded(s, x, way);
    if DeliveredAfter(s, x, way, round) {
      var i :| 0 <= i < |s.log| && s.log[i].source == x && s.log[i].way == way && s.log[i].round > round;
      assert GoodRecord(s, s.log[i]);
    }
  }

  /** Two remembered ticks and the last delivery, with wrapping: the check succeeds exactly when the
      delivery is newer than the remembered round and no whole number of wraps away from either. */
  lemma FreshIffNewAndNotWrapped(now: nat, prior: nat, last: nat, round: nat)
    requires Remembers(now, prior, last, round)
    ensures D.Fresh(Word(last), Some((Word(now), Word(prior))))
       <==> last > now && (last - now) % WORDS != 0 && (last - prior) % WORDS != 0
  {
    if last > now {
      SameWord(last, now);
      SameWord(last, prior);
    }
  }

  lemma SmallGapIsNoWrap(a: nat, b: nat)
    requires b < a && a - b < WORDS
    ensures (a - b) % WORDS != 0
  {
  }

  /** What polling the future `w` would answer. */
  predicate WaiterReady(s: State, w: nat, waker: Waker, slot: nat)
    requires Enabled(s, PollWaiter(w, waker, slot))
  {
    D.PollFuture(DirOf(s, s.waiters[w]), s.waiters[w].future, waker, Word(s.round), slot).ready
  }

  /** What polling the slot would answer. */
  predicate SlotReady(s: State, x: nat, way: Way, waker: Waker)
    requires x in s.sources
  {
    D.PollSlot(s.sources[x].pair.At(way), waker, Word(s.round)).ready
  }

  /** A future that has been polled is ready exactly when a round that began after its first poll has
      delivered an event in its direction, as long as fewer than `WORDS` rounds separate the remembered
      last delivery from the current round. */
  lemma ReadyIffFreshDelivery(run: seq<State>, steps: seq<Action>, i: nat, w: nat, waker: Waker, slot: nat)
    requires Behavior(run, steps) && i < |run| && Enabled(run[i], PollWaiter(w, waker, slot))
    requires run[i].waiters[w].future.index.Some?
    requires run[i].round - run[i].waiters[w].prior < WORDS
    ensures WaiterReady(run[i], w, waker, slot)
       <==> DeliveredAfter(run[i], run[i].waiters[w].source, run[i].waiters[w].way, run[i].waiters[w].now)
  {
    InvHolds(run, steps, i);
    var s, wt := run[i], run[i].waiters[w];
    var last := s.sources[wt.source].At(wt.way).last;
    assert WaiterTicks(s, wt);
    assert DirTicks(DirOf(s, wt), s.sources[wt.source].At(wt.way), s.sources[wt.source].born, s.round);
    FreshIffNewAndNotWrapped(wt.now, wt.prior, last, s.round);
    LastDecides(s, wt.source, wt.way, wt.now);
    if last > wt.now {
      SmallGapIsNoWrap(last, wt.now);
      SmallGapIsNoWrap(last, wt.prior);
    }
  }

  /** Without that bound, exactly: a fresh delivery has happened and the latest delivery is not a
      whole number of wraps away from either remembered round. */
  lemma ReadyIffFreshAndNotWrapped(run: seq<State>, steps: seq<Action>, i: nat, w: nat, waker: Waker, slot: nat)
    requires Behavior(run, steps) && i < |run| && Enabled(run[i], PollWaiter(w, waker, slot))
    requires run[i].waiters[w].future.index.Some?
    ensures WaiterReady(run[i], w, waker, slot)
       <==> var wt := run[i].waiters[w];
            var last := run[i].sources[wt.source].At(wt.way).last;
            && DeliveredAfter(run[i], wt.source, wt.way, wt.now)
            && (last - wt.now) % WORDS != 0 && (last - wt.prior) % WORDS != 0
  {
    InvHolds(run, steps, i);
    var s, wt := run[i], run[i].waiters[w];
    assert WaiterTicks(s, wt);
    assert DirTicks(DirOf(s, wt), s.sources[wt.source].At(wt.way), s.sources[wt.source].born, s.round);
    FreshIffNewAndNotWrapped(wt.now, wt.prior, s.sources[wt.source].At(wt.way).last, s.round);
    LastDecides(s, wt.source, wt.way, wt.now);
  }

  /** Slab keys are reused without harm: whatever wraps, a future becomes ready only through an event
      that was fetched for its own source in a round that began after its first poll. */
  lemma ReadyMeansOwnEvent(run: seq<State>, steps: seq<Action>, i: nat, w: nat, waker: Waker, slot: nat)
    requires Behavior(run, steps) && i < |run| && Enabled(run[i], PollWaiter(w, waker, slot))
    requires WaiterReady(run[i], w, waker, slot)
    ensures var wt := run[i].waiters[w];
            exists j :: 0 <= j < |run[i].log|
                        && run[i].log[j].source == wt.source == run[i].log[j].origin
                        && run[i].log[j].way == wt.way && run[i].log[j].round > wt.now
  {
    InvHolds(run, steps, i);
    var s, wt := run[i], run[i].waiters[w];
    assert HasSlot(s, wt);
    ReadyIffFreshAndNotWrapped(run, steps, i, w, waker, slot);
    var j :| 0 <= j < |s.log| && s.log[j].source == wt.source && s.log[j].way == wt.way && s.log[j].round > wt.now;
    assert GoodRecord(s, s.log[j]) && WaiterTicks(s, wt);
  }

  /** The poll slot: ready exactly when a round that began after the waker was last stored has
      delivered an event, under the same bound. */
  lemma SlotReadyIffFreshDelivery(run: seq<State>, steps: seq<Action>, i: nat, x: nat, way: Way, waker: Waker)
    requires Behavior(run, steps) && i < |run| && x in run[i].sources
    requires run[i].sources[x].pair.At(way).ticks.Some?
    requires run[i].round - run[i].sources[x].At(way).prior < WORDS
    ensures SlotReady(run[i], x, way, waker)
       <==> DeliveredAfter(run[i], x, way, run[i].sources[x].At(way).now)
  {
    InvHolds(run, steps, i);
    var s := run[i];
    var p := s.sources[x].At(way);
    assert DirTicks(s.sources[x].pair.At(way), p, s.sources[x].born, s.round);
    FreshIffNewAndNotWrapped(p.now, p.prior, p.last, s.round);
    LastDecides(s, x, way, p.now);
    if p.last > p.now {
      SmallGapIsNoWrap(p.last, p.now);
      SmallGapIsNoWrap(p.last, p.prior);
    }
  }

  /** Without that bound, exactly as for a future. */
  lemma SlotReadyIffFreshAndNotWrapped(run: seq<State>, steps: seq<Action>, i: nat, x: nat, way: Way, waker: Waker)
    requires Behavior(run, steps) && i < |run| && x in run[i].sources
    requires run[i].sources[x].pair.At(way).ticks.Some?
    ensures SlotReady(run[i], x, way, waker)
       <==> var p := run[i].sources[x].At(way);
            DeliveredAfter(run[i], x, way, p.now) && (p.last - p.now) % WORDS != 0 && (p.last - p.prior) % WORDS != 0
  {
    InvHolds(run, steps, i);
    var s := run[i];
    var p := s.sources[x].At(way);
    assert DirTicks(s.sources[x].pair.At(way), p, s.sources[x].born, s.round);
    FreshIffNewAndNotWrapped(p.now, p.prior, p.last, s.round);
    LastDecides(s, x, way, p.now);
  }

  /** The poll slot too is ready only through an event of its own source in a fresh round. */
  lemma SlotReadyMeansOwnEvent(run: seq<State>, steps: seq<Action>, i: nat, x: nat, way: Way, waker: Waker)
    requires Behavior(run, steps) && i < |run| && x in run[i].sources
    requires SlotReady(run[i], x, way, waker)
    ensures exists j :: 0 <= j < |run[i].log|
                        && run[i].log[j].source == x == run[i].log[j].origin
                        && run[i].log[j].way == way && run[i].log[j].round > run[i].sources[x].At(way).now
  {
    InvHolds(run, steps, i);
    var s := run[i];
    var p := s.sources[x].At(way);
    assert DirTicks(s.sources[x].pair.At(way), p, s.sources[x].born, s.round);
    SlotReadyIffFreshAndNotWrapped(run, steps, i, x, way, waker);
    var j :| 0 <= j < |s.log| && s.log[j].source == x && s.log[j].way == way && s.log[j].round > p.now;
    assert GoodRecord(s, s.log[j]);
  }

  // Ownership of the stored wakers.

  /** The entry that a polled future remembers is always there, so a live future can be polled
      whenever its source is not locked: indexing the slab never fails. */
  lemma FutureCanAlwaysBePolled(run: seq<State>, steps: seq<Action>, i: nat, w: nat, waker: Waker, slot: nat)
    requires Behavior(run, steps) && i < |run| && w in run[i].waiters
    ensures run[i].waiters[w].source in run[i].sources
    ensures run[i].waiters[w].source !in run[i].arming && Available(DirOf(run[i], run[i].waiters[w]).wakers, slot) ==>
              Enabled(run[i], PollWaiter(w, waker, slot))
  {
    InvHolds(run, steps, i);
    assert HasSlot(run[i], run[i].waiters[w]);
  }

  /** Readiness is never answered over a stored waker: neither the poll slot's nor the future's own. */
  lemma ReadyStrandsNobody(run: seq<State>, steps: seq<Action>, i: nat)
    requires Behavior(run, steps) && i < |steps|
    ensures steps[i].PollSlot? ==>
              var d := run[i].sources[steps[i].source].pair.At(steps[i].way);
              D.PollSlot(d, steps[i].waker, Word(run[i].round)).ready ==> d.waker.None?
    ensures steps[i].PollWaiter? ==>
              var wt := run[i].waiters[steps[i].waiter];
              WaiterReady(run[i], steps[i].waiter, steps[i].waker, steps[i].slot) ==>
                wt.future.index.Some? && DirOf(run[i], wt).wakers[wt.future.index.value] == Occupied(None)
  {
    InvHolds(run, steps, i);
    var s := run[i];
    if steps[i].PollSlot? {
      var x, way := steps[i].source, steps[i].way;
      assert DirTicks(s.sources[x].pair.At(way), s.sources[x].At(way), s.sources[x].born, s.round);
    } else if steps[i].PollWaiter? {
      assert WaiterTicks(s, s.waiters[steps[i].waiter]) && HasSlot(s, s.waiters[steps[i].waiter]);
    }
  }

  /** What the slab of its direction holds for a polled future. */
  function EntryOf(s: State, w: Waiter): Option<Option<Waker>> {
    if w.source in s.sources && w.future.index.Some? && Holds(DirOf(s, w).wakers, w.future.index.value)
    then Some(DirOf(s, w).wakers[w.future.index.value].value) else None
  }

  /** Each polled future has an entry of its own; dropping it removes that entry and leaves every other
      future's alone. */
  lemma DropRemovesOnlyItsOwn(run: seq<State>, steps: seq<Action>, i: nat, v: nat)
    requires Behavior(run, steps) && i < |steps| && steps[i].DropWaiter? && v != steps[i].waiter
    requires v in run[i].waiters && run[i].waiters[v].future.index.Some?
    ensures v in run[i + 1].waiters && run[i + 1].waiters[v] == run[i].waiters[v]
    ensures EntryOf(run[i], run[i].waiters[v]).Some?
    ensures EntryOf(run[i + 1], run[i].waiters[v]) == EntryOf(run[i], run[i].waiters[v])
    ensures EntryOf(run[i + 1], run[i].waiters[steps[i].waiter]) == None
  {
    InvHolds(run, steps, i);
    DropTakesOneEntry(run[i], steps[i], v);
  }

  lemma DropTakesOneEntry(s: State, a: Action, v: nat)
    requires Slots(s) && Enabled(s, a) && a.DropWaiter? && v != a.waiter
    requires v in s.waiters && s.waiters[v].future.index.Some?
    ensures var s' := Next(s, a);
            && v in s'.waiters && s'.waiters[v] == s.waiters[v]
            && EntryOf(s, s.waiters[v]).Some? && EntryOf(s', s.waiters[v]) == EntryOf(s, s.waiters[v])
            && EntryOf(s', s.waiters[a.waiter]) == None
  {
    assert HasSlot(s, s.waiters[v]) && HasSlot(s, s.waiters[a.waiter]);
  }

  /** Once the last future of a direction is gone, its slab is empty. */
  lemma NoEntryOutlivesItsFuture(run: seq<State>, steps: seq<Action>, i: nat, x: nat, way: Way, j: nat)
    requires Behavior(run, steps) && i < |run| && x in run[i].sources
    requires forall w | w in run[i].waiters :: run[i].waiters[w].source != x || run[i].waiters[w].way != way
    ensures !Holds(run[i].sources[x].pair.At(way).wakers, j)
  {
    InvHolds(run, steps, i);
    assert Holds(run[i].sources[x].pair.At(way).wakers, j) ==> OwnedSlot(run[i], x, way, j);
  }

  // Registration.

  /** A source leaves the slab once: when it does, its key still holds that same source, and from then
      on it is gone for good. */
  lemma DeregisteredExactlyOnce(run: seq<State>, steps: seq<Action>, i: nat, x: nat)
    requires Behavior(run, steps) && i < |run| && x in run[i].sources
    ensures run[i].sources[x].removals == (if run[i].sources[x].life.Gone? then 1 else 0)
    ensures run[i].sources[x].life.Gone? <==> forall key | key in run[i].slab :: run[i].slab[key] != x
    ensures i < |steps| && (steps[i].Remove? || steps[i].AddFail?) && steps[i].source == x ==>
              && run[i].sources[x].key in run[i].slab && run[i].slab[run[i].sources[x].key] == x
              && run[i].sources[x].removals == 0 && run[i + 1].sources[x].removals == 1
    ensures i < |steps| && run[i].sources[x].life.Gone? ==>
              x in run[i + 1].sources && run[i + 1].sources[x].life.Gone?
  {
    InvHolds(run, steps, i);
    assert Settled(run[i].sources[x], run[i].round);
    if i < |steps| && run[i].sources[x].life.Gone? {
      GoneStaysGone(run[i], steps[i], x);
    }
  }

  lemma GoneStaysGone(s: State, a: Action, x: nat)
    requires Enabled(s, a) && x in s.sources && s.sources[x].life.Gone?
    ensures x in Next(s, a).sources && Next(s, a).sources[x].life.Gone?
  {
    if LifeStep(a) {
      assert a.Insert? ==> a.source != x;
    } else if OuterStep(a) {
      OuterKeepsSources(s, a);
    } else if a.Deliver? && s.phase.events[0].key in s.slab {
      DeliverHasFrame(s, a);
    }
  }
}
