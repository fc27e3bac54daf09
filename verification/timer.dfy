/** The life cycle of one timer: what each call does to the timer's fields and which operations it
    pushes to the store, as a function; and the methods that do it, proved against that function. */
module TimerLife {
  import opened Environment
  import opened TimerOps
  import TimerStore

  /** The id under which a timer is registered and the waker of the last poll that registered it. */
  datatype Registration = Registration(id: nat, waker: Waker)

  datatype TimerState = TimerState(when: Option<Instant>, reg: Option<Registration>, period: nat) {
    predicate Armed() {
      when.Some? && reg.Some?
    }

    function Key(): Key
      requires Armed()
    {
      TimerOps.Key(when.value, reg.value.id)
    }

    predicate WillFire() {
      when.Some?
    }
  }

  datatype Call =
    | Poll(now: Instant, waker: Waker)
    | SetAt(instant: Instant)
    | SetIntervalAt(start: Instant, period: nat)
    | Clear
    | Drop

  /** `item` is what a poll answers; without one the poll is pending. */
  datatype Outcome = Outcome(state: TimerState, ops: seq<TimerOp>, item: Option<Instant>)

  /** The removal that takes a registered timer out of the store. */
  function Deregister(s: TimerState): seq<TimerOp> {
    if s.Armed() then [Remove(s.Key())] else []
  }

  /** Sets the next instant; a registration is renewed with its old waker and the new id. */
  function Reset(s: TimerState, at: Instant, period: nat, id: nat): Outcome {
    match s.reg
    case None => Outcome(TimerState(Some(at), None, period), Deregister(s), None)
    case Some(r) =>
      Outcome(TimerState(Some(at), Some(Registration(id, r.waker)), period),
              Deregister(s) + [Insert(Key(at, id), r.waker)], None)
  }

  /** The effect of a call, given the id it gets should it insert. */
  function Perform(s: TimerState, call: Call, id: nat): Outcome {
    match call
    case Clear => Outcome(s.(when := None), Deregister(s), None)
    case Drop => Outcome(s.(reg := None), Deregister(s), None)
    case SetAt(instant) => Reset(s, instant, s.period, id)
    case SetIntervalAt(start, period) => Reset(s, start, period, id)
    case Poll(now, waker) =>
      if s.when.None? then
        Outcome(s, [], None)
      else if s.when.value <= now then
        match CheckedAdd(s.when.value, s.period)
        case None => Outcome(TimerState(None, None, s.period), Deregister(s), s.when)
        case Some(next) =>
          Outcome(TimerState(Some(next), Some(Registration(id, waker)), s.period),
                  Deregister(s) + [Insert(Key(next, id), waker)], s.when)
      else if s.reg.Some? && s.reg.value.waker == waker then
        Outcome(s, [], None)
      else
        Outcome(s.(reg := Some(Registration(id, waker))),
                Deregister(s) + [Insert(Key(s.when.value, id), waker)], None)
  }

  class Timer {
    var when: Option<Instant>
    var idAndWaker: Option<Registration>
    var period: nat
    const store: TimerStore.Store

    function State(): TimerState
      reads this
    {
      TimerState(when, idAndWaker, period)
    }

    ghost predicate Valid()
      reads this, store
    {
      store.Valid()
    }

    constructor IntervalAt(start: Instant, period: nat, store: TimerStore.Store)
      requires store.Valid()
      ensures Valid() && fresh(this) && this.store == store
      ensures State() == TimerState(Some(start), None, period)
    {
      when, idAndWaker, this.period, this.store := Some(start), None, period, store;
    }

    constructor Never(store: TimerStore.Store)
      requires store.Valid()
      ensures Valid() && fresh(this) && this.store == store
      ensures State() == TimerState(None, None, MAX_DURATION)
    {
      when, idAndWaker, period, this.store := None, None, MAX_DURATION, store;
    }

    /** `at`: one item, because the longest period overflows from every instant. */
    constructor At(instant: Instant, store: TimerStore.Store)
      requires store.Valid()
      ensures Valid() && fresh(this) && this.store == store
      ensures State() == TimerState(Some(instant), None, MAX_DURATION)
    {
      when, idAndWaker, period, this.store := Some(instant), None, MAX_DURATION, store;
    }

    /** `after`: never, when the instant is out of range. */
    constructor After(now: Instant, duration: nat, store: TimerStore.Store)
      requires store.Valid()
      ensures Valid() && fresh(this) && this.store == store
      ensures State() == TimerState(if now + duration <= MAX_INSTANT then Some(now + duration) else None, None, MAX_DURATION)
    {
      when, idAndWaker, period, this.store := CheckedAdd(now, duration), None, MAX_DURATION, store;
    }

    /** `interval`: never, when the first instant is out of range. */
    constructor Interval(now: Instant, period: nat, store: TimerStore.Store)
      requires store.Valid()
      ensures Valid() && fresh(this) && this.store == store
      ensures State() == if now + period <= MAX_INSTANT then TimerState(Some(now + period), None, period)
                         else TimerState(None, None, MAX_DURATION)
    {
      var first := CheckedAdd(now, period);
      when, idAndWaker, this.store := first, None, store;
      this.period := if first.Some? then period else MAX_DURATION;
    }

    method SetAt(instant: Instant)
      requires Valid()
      modifies this, store
      ensures Valid()
      ensures State() == Perform(old(State()), Call.SetAt(instant), old(store.nextId)).state
      ensures store.Effective()
           == Fold(old(store.Effective()), Perform(old(State()), Call.SetAt(instant), old(store.nextId)).ops)
    {
      Clear();
      when := Some(instant);
      if idAndWaker.Some? {
        // Whoever polled last is registered for the new instant.
        var id, _ := store.InsertTimer(instant, idAndWaker.value.waker, []);
        idAndWaker := Some(Registration(id, idAndWaker.value.waker));
      }
      UnfoldTwo(old(store.Effective()), Perform(old(State()), Call.SetAt(instant), old(store.nextId)).ops);
    }

    method SetIntervalAt(start: Instant, period: nat)
      requires Valid()
      modifies this, store
      ensures Valid()
      ensures State() == Perform(old(State()), Call.SetIntervalAt(start, period), old(store.nextId)).state
      ensures store.Effective()
           == Fold(old(store.Effective()),
                   Perform(old(State()), Call.SetIntervalAt(start, period), old(store.nextId)).ops)
    {
      Clear();
      when := Some(start);
      this.period := period;
      if idAndWaker.Some? {
        var id, _ := store.InsertTimer(start, idAndWaker.value.waker, []);
        idAndWaker := Some(Registration(id, idAndWaker.value.waker));
      }
      UnfoldTwo(old(store.Effective()),
                Perform(old(State()), Call.SetIntervalAt(start, period), old(store.nextId)).ops);
    }

    /** Clears the timer when the instant would overflow. */
    method SetAfter(now: Instant, duration: nat)
      requires Valid()
      modifies this, store
      ensures Valid()
      ensures var call := if now + duration <= MAX_INSTANT then Call.SetAt(now + duration) else Call.Clear;
              && State() == Perform(old(State()), call, old(store.nextId)).state
              && store.Effective() == Fold(old(store.Effective()), Perform(old(State()), call, old(store.nextId)).ops)
    {
      match CheckedAdd(now, duration)
      case Some(instant) => SetAt(instant);
      case None => Clear();
    }

    method SetInterval(now: Instant, period: nat)
      requires Valid()
      modifies this, store
      ensures Valid()
      ensures var call := if now + period <= MAX_INSTANT then Call.SetIntervalAt(now + period, period) else Call.Clear;
              && State() == Perform(old(State()), call, old(store.nextId)).state
              && store.Effective() == Fold(old(store.Effective()), Perform(old(State()), call, old(store.nextId)).ops)
    {
      match CheckedAdd(now, period)
      case Some(instant) => SetIntervalAt(instant, period);
      case None => Clear();
    }

    method Clear()
      requires Valid()
      modifies this, store
      ensures Valid() && store.nextId == old(store.nextId)
      ensures State() == Perform(old(State()), Call.Clear, old(store.nextId)).state
      ensures store.Effective()
           == Fold(old(store.Effective()), Perform(old(State()), Call.Clear, old(store.nextId)).ops)
    {
      if when.Some? && idAndWaker.Some? {
        var _ := store.RemoveTimer(when.value, idAndWaker.value.id, []);
      }
      when := None;
      UnfoldTwo(old(store.Effective()), Deregister(old(State())));
    }

    method Drop()
      requires Valid()
      modifies this, store
      ensures Valid()
      ensures State() == Perform(old(State()), Call.Drop, old(store.nextId)).state
      ensures store.Effective()
           == Fold(old(store.Effective()), Perform(old(State()), Call.Drop, old(store.nextId)).ops)
    {
      var taken := idAndWaker;
      idAndWaker := None;
      if when.Some? && taken.Some? {
        var _ := store.RemoveTimer(when.value, taken.value.id, []);
      }
      UnfoldTwo(old(store.Effective()), Deregister(old(State())));
    }

    /** `Stream::poll_next`: an item when the timer has fired, otherwise pending. */
    method PollNext(now: Instant, waker: Waker) returns (item: Option<Instant>)
      requires Valid()
      modifies this, store
      ensures Valid()
      ensures var o := Perform(old(State()), Poll(now, waker), old(store.nextId));
              && State() == o.state
              && item == o.item
              && store.Effective() == Fold(old(store.Effective()), o.ops)
    {
      item := None;
      if when.Some? {
        if when.value <= now {
          if idAndWaker.Some? {
            // A timer that answers leaves no entry of its old instant behind.
            var _ := store.RemoveTimer(when.value, idAndWaker.value.id, []);
            idAndWaker := None;
          }
          item := when;
          match CheckedAdd(when.value, period) {
            case Some(next) =>
              when := Some(next);
              var id, _ := store.InsertTimer(next, waker, []);
              idAndWaker := Some(Registration(id, waker));
            case None =>
              when := None;
          }
        } else if idAndWaker.None? {
          var id, _ := store.InsertTimer(when.value, waker, []);
          idAndWaker := Some(Registration(id, waker));
        } else if idAndWaker.value.waker != waker {
          // Replace the registration to replace the waker.
          var _ := store.RemoveTimer(when.value, idAndWaker.value.id, []);
          var id, _ := store.InsertTimer(when.value, waker, []);
          idAndWaker := Some(Registration(id, waker));
        }
      }
      UnfoldTwo(old(store.Effective()), Perform(old(State()), Poll(now, waker), old(store.nextId)).ops);
    }
  }

  lemma UnfoldTwo(m: TimerMap, ops: seq<TimerOp>)
    requires |ops| <= 2
    ensures |ops| == 0 ==> Fold(m, ops) == m
    ensures |ops| == 1 ==> Fold(m, ops) == Apply(m, ops[0])
    ensures |ops| == 2 ==> Fold(m, ops) == Apply(Apply(m, ops[0]), ops[1])
  {
    if |ops| == 2 {
      assert ops == [ops[0]] + [ops[1]];
      FoldAppend(m, [ops[0]], ops[1]);
      UnfoldTwo(m, [ops[0]]);
    }
  }

  // How often a timer fires.

  datatype Visit = Visit(now: Instant, waker: Waker)

  /** The items that a sequence of polls takes out of a timer. */
  function Items(s: TimerState, visits: seq<Visit>): seq<Instant>
    decreases |visits|
  {
    if visits == [] then []
    else
      var o := Perform(s, Poll(visits[0].now, visits[0].waker), 0);
      (if o.item.Some? then [o.item.value] else []) + Items(o.state, visits[1..])
  }

  lemma {:induction false} DisarmedNeverFires(s: TimerState, visits: seq<Visit>)
    requires s.when.None?
    ensures Items(s, visits) == []
    decreases |visits|
  {
    if visits != [] {
      DisarmedNeverFires(s, visits[1..]);
    }
  }

  lemma {:induction false} LastInstantFiresOnce(s: TimerState, visits: seq<Visit>)
    requires s.when.Some? && CheckedAdd(s.when.value, s.period).None?
    ensures |Items(s, visits)| <= 1
    decreases |visits|
  {
    if visits != [] {
      var o := Perform(s, Poll(visits[0].now, visits[0].waker), 0);
      if o.item.Some? {
        DisarmedNeverFires(o.state, visits[1..]);
      } else {
        LastInstantFiresOnce(o.state, visits[1..]);
      }
    }
  }

  /** Setting a timer to an instant makes it fire once exactly when its period overflows from
      there: the period of an earlier interval survives the call. */
  lemma SetAtFiresOnceIffPeriodOverflows(s: TimerState, instant: Instant, id: nat)
    ensures (forall visits :: |Items(Perform(s, SetAt(instant), id).state, visits)| <= 1)
       <==> CheckedAdd(instant, s.period).None?
  {
    var armed := Perform(s, SetAt(instant), id).state;
    if CheckedAdd(instant, s.period).None? {
      forall visits
        ensures |Items(armed, visits)| <= 1
      {
        LastInstantFiresOnce(armed, visits);
      }
    } else {
      var visits := [Visit(instant, 0), Visit(instant + s.period, 0)];
      var first := Perform(armed, Poll(instant, 0), 0);
      var second := Perform(first.state, Poll(instant + s.period, 0), 0);
      assert first.item == Some(instant) && second.item == Some(instant + s.period);
      assert Items(first.state, visits[1..]) == [instant + s.period] + Items(second.state, visits[1..][1..]);
      assert |Items(armed, visits)| >= 2;
    }
  }

  /** A timer made by `at`, `after` or `never` has the longest period, so every later `set_at`
      makes it fire once. */
  lemma LongestPeriodAlwaysOverflows(s: TimerState, instant: Instant, id: nat)
    requires s.period == MAX_DURATION
    ensures forall visits :: |Items(Perform(s, SetAt(instant), id).state, visits)| <= 1
  {
    SetAtFiresOnceIffPeriodOverflows(s, instant, id);
  }

  /** The waker that a later `set_at` registers: a pending poll is remembered exactly when the
      timer was set at the time of the poll, or when its waker was the remembered one already. */
  lemma PendingPollIsRememberedIffSet(s: TimerState, now: Instant, waker: Waker, instant: Instant, id: nat, id': nat)
    requires Perform(s, Poll(now, waker), id).item.None?
    ensures Perform(Perform(s, Poll(now, waker), id).state, SetAt(instant), id').state.reg
              == Some(Registration(id', waker))
       <==> s.when.Some? || (s.reg.Some? && s.reg.value.waker == waker)
  {
  }
}
