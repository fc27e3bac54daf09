/** Any number of timers over one store, interleaved operation by operation with each other and with
    the passes of the reactor. A call updates the timer's own fields, which nobody else can see, and
    leaves the operations it has to push; pushes of different timers and passes interleave freely.

    The store is represented by its effective map. A pass takes out any set of due entries: those
    whose insertion had not been drained yet stay behind, as `StoreSystem.StepsRefineTheMap` shows. */
module TimerSystem {
  import opened Environment
  import opened TimerOps
  import opened TimerLife

  /** A timer, what its current call still has to push, and its history: the instant it was last
      set to, the period it was last given, and the items it has answered since it was set. */
  datatype Live = Live(state: TimerState, todo: seq<TimerOp>,
                       start: Option<Instant>, given: nat, items: seq<Instant>, dropped: bool)

  datatype State = State(
    effective: TimerMap,
    timers: map<nat, Live>,
    owner: map<nat, nat>,
    nextId: nat,
    clock: Instant,
    fired: map<Key, Instant>)

  datatype Action =
    | Create(timer: nat, start: Option<Instant>, period: nat)
    | Begin(timer: nat, call: Call)
    | Push(timer: nat)
    | Collect(now: Instant, keys: set<Key>)

  predicate Enabled(s: State, a: Action) {
    match a
    case Create(t, start, period) => t !in s.timers
    case Begin(t, call) =>
      && t in s.timers && !s.timers[t].dropped && s.timers[t].todo == []
      && (call.Poll? ==> s.clock <= call.now)
    case Push(t) => t in s.timers && s.timers[t].todo != []
    case Collect(now, keys) => s.clock <= now && keys <= Due(s.effective, now)
  }

  /** The timer after a call, with its history. */
  function Called(l: Live, call: Call, id: nat): Live {
    var o := Perform(l.state, call, id);
    match call
    case Poll(_, _) =>
      Live(o.state, o.ops, l.start, l.given, if o.item.Some? then l.items + [o.item.value] else l.items, false)
    case SetAt(instant) => Live(o.state, o.ops, Some(instant), l.given, [], false)
    case SetIntervalAt(start, period) => Live(o.state, o.ops, Some(start), period, [], false)
    case Clear => Live(o.state, o.ops, None, l.given, [], false)
    case Drop => Live(o.state, o.ops, l.start, l.given, l.items, true)
  }

  function Next(s: State, a: Action): State
    requires Enabled(s, a)
  {
    match a
    case Create(t, start, period) =>
      s.(timers := s.timers[t := Live(TimerState(start, None, period), [], start, period, [], false)])
    case Begin(t, call) =>
      s.(timers := s.timers[t := Called(s.timers[t], call, s.nextId)],
         owner := s.owner[s.nextId := t],
         nextId := s.nextId + 1,
         clock := if call.Poll? then call.now else s.clock)
    case Push(t) =>
      var l := s.timers[t];
      s.(effective := Apply(s.effective, l.todo[0]),
         timers := s.timers[t := l.(todo := l.todo[1..])])
    case Collect(now, keys) =>
      s.(effective := s.effective - keys,
         clock := now,
         fired := s.fired + map key | key in keys :: now)
  }

  predicate Init(s: State) {
    s.effective == map[] && s.timers == map[] && s.owner == map[] && s.fired == map[]
  }

  ghost predicate Behavior(run: seq<State>, steps: seq<Action>) {
    && |run| == |steps| + 1 && Init(run[0])
    && forall i | 0 <= i < |steps| :: Enabled(run[i], steps[i]) && run[i + 1] == Next(run[i], steps[i])
  }

  // The invariant.

  predicate OwnedBy(s: State, id: nat, t: nat) {
    id in s.owner && s.owner[id] == t
  }

  ghost predicate Ownership(s: State) {
    && (forall id | id in s.owner :: id < s.nextId && s.owner[id] in s.timers)
    && (forall t | t in s.timers && s.timers[t].state.reg.Some? :: OwnedBy(s, s.timers[t].state.reg.value.id, t))
    && (forall t, i | t in s.timers && 0 <= i < |s.timers[t].todo| :: OwnedBy(s, s.timers[t].todo[i].key.id, t))
    && (forall key | key in s.effective :: key.id in s.owner)
    && (forall key | key in s.fired :: key.id in s.owner)
  }

  /** Only the last operation of a call inserts, and it inserts the timer's current key, which the
      store has never held before. */
  predicate GoodTodo(s: State, l: Live) {
    && forall i | 0 <= i < |l.todo| && l.todo[i].Insert? ::
       && i == |l.todo| - 1
       && l.state.Armed() && l.todo[i] == Insert(l.state.Key(), l.state.reg.value.waker)
       && l.todo[i].key !in s.effective && l.todo[i].key !in s.fired
       && forall j | 0 <= j < i :: l.todo[j].key != l.todo[i].key
  }

  ghost predicate GoodTodos(s: State) {
    forall t | t in s.timers :: GoodTodo(s, s.timers[t])
  }

  /** The entry of an armed timer is in the store once its call has pushed everything, or it was
      taken out at its instant or later. */
  predicate Kept(s: State, l: Live) {
    l.state.Armed() ==>
      && !l.dropped
      && (|| Lookup(Fold(s.effective, l.todo), l.state.Key()) == Some(l.state.reg.value.waker)
          || (l.state.Key() in s.fired && l.state.Key().when <= s.fired[l.state.Key()]))
  }

  ghost predicate AllKept(s: State) {
    forall t | t in s.timers :: Kept(s, s.timers[t])
  }

  /** Every entry is the key of its owner, or its owner is about to remove it. */
  predicate Explained(s: State, key: Key) {
    key.id in s.owner && s.owner[key.id] in s.timers
    && var l := s.timers[s.owner[key.id]];
       (l.state.Armed() && l.state.Key() == key) || Remove(key) in l.todo
  }

  ghost predicate NoStrays(s: State) {
    forall key | key in s.effective :: Explained(s, key)
  }

  ghost predicate FiredOnce(s: State) {
    forall key | key in s.fired :: key !in s.effective && key.when <= s.fired[key] <= s.clock
  }

  /** The k-th instant of an interval that starts at `start`. */
  function Nth(start: Instant, period: nat, k: nat): Instant {
    if k == 0 then start else Nth(start, period, k - 1) + period
  }

  lemma {:induction false} NthIsMultiple(start: Instant, period: nat, k: nat)
    ensures Nth(start, period, k) == start + k * period
  {
    if k > 0 {
      NthIsMultiple(start, period, k - 1);
      assert k * period == (k - 1) * period + period;
    }
  }

  /** The items since the last set are `start`, `start + period`, ... and the timer is set to the
      next of them, unless that is out of range. */
  predicate OnSchedule(clock: Instant, l: Live) {
    && l.state.period == l.given
    && match l.start
       case None => l.state.when.None? && l.items == []
       case Some(start) =>
         && (forall i | 0 <= i < |l.items| :: l.items[i] == Nth(start, l.given, i) && l.items[i] <= clock)
         && (l.items == [] ==> l.state.when == Some(start))
         && (l.items != [] ==>
               var next := Nth(start, l.given, |l.items|);
               l.state.when == if next <= MAX_INSTANT then Some(next) else None)
  }

  ghost predicate AllOnSchedule(s: State) {
    forall t | t in s.timers :: OnSchedule(s.clock, s.timers[t])
  }

  ghost predicate Inv(s: State) {
    Ownership(s) && GoodTodos(s) && AllKept(s) && NoStrays(s) && FiredOnce(s) && AllOnSchedule(s)
  }

  lemma CreateKeepsInv(s: State, a: Action)
    requires Inv(s) && Enabled(s, a) && a.Create?
    ensures Inv(Next(s, a))
  {
    var s' := Next(s, a);
    CreateKeepsOwnership(s, a);
    assert s'.timers - {a.timer} == s.timers - {a.timer};
    CallKeepsOthers(s, s', a.timer);
    forall key | key in s'.effective
      ensures Explained(s', key)
    {
      assert Explained(s, key);
    }
  }

  lemma CreateKeepsOwnership(s: State, a: Action)
    requires Ownership(s) && Enabled(s, a) && a.Create?
    ensures Ownership(Next(s, a))
  {
    var s' := Next(s, a);
    forall u | u in s'.timers && s'.timers[u].state.reg.Some?
      ensures OwnedBy(s', s'.timers[u].state.reg.value.id, u)
    {
      assert OwnedBy(s, s.timers[u].state.reg.value.id, u);
    }
  }

  /** What a push does, apart from the kind of operation. */
  predicate AfterPush(s: State, s': State, t: nat) {
    && t in s.timers && s.timers[t].todo != []
    && s' == s.(effective := Apply(s.effective, s.timers[t].todo[0]),
                timers := s.timers[t := s.timers[t].(todo := s.timers[t].todo[1..])])
  }

  lemma PushKeepsKept(s: State, s': State, t: nat)
    requires Ownership(s) && AllKept(s) && AfterPush(s, s', t)
    ensures AllKept(s')
  {
    forall u | u in s'.timers
      ensures Kept(s', s'.timers[u])
    {
      var other := s.timers[u];
      assert Kept(s, other);
      if u != t && other.state.Armed() {
        assert OwnedBy(s, other.state.reg.value.id, u);
        assert OwnedBy(s, s.timers[t].todo[0].key.id, t);
        FoldIsPointwise(s.effective, s'.effective, other.todo, other.state.Key());
      }
    }
  }

  lemma PushKeepsNoStrays(s: State, s': State, t: nat)
    requires AfterPush(s, s', t) && Ownership(s) && NoStrays(s) && GoodTodo(s, s.timers[t])
    ensures NoStrays(s')
  {
    var l := s.timers[t];
    assert OwnedBy(s, l.todo[0].key.id, t);
    forall key | key in s'.effective
      ensures Explained(s', key)
    {
      if key != l.todo[0].key {
        assert Explained(s, key);
        assert l.todo == [l.todo[0]] + l.todo[1..];
      } else {
        assert l.todo[0].Insert?;
      }
    }
  }

  lemma PushKeepsOwnership(s: State, s': State, t: nat)
    requires Ownership(s) && AfterPush(s, s', t)
    ensures Ownership(s')
  {
    var l := s.timers[t];
    assert forall i | 0 <= i < |l.todo[1..]| :: l.todo[1..][i] == l.todo[i + 1];
    assert OwnedBy(s, l.todo[0].key.id, t);
    forall u, i | u in s'.timers && 0 <= i < |s'.timers[u].todo|
      ensures OwnedBy(s', s'.timers[u].todo[i].key.id, u)
    {
      assert OwnedBy(s, s.timers[u].todo[if u == t then i + 1 else i].key.id, u);
    }
  }

  lemma PushKeepsTodos(s: State, s': State, t: nat)
    requires Ownership(s) && GoodTodos(s) && AfterPush(s, s', t)
    ensures GoodTodos(s')
  {
    var l := s.timers[t];
    assert GoodTodo(s, l) && OwnedBy(s, l.todo[0].key.id, t);
    assert forall i | 0 <= i < |l.todo[1..]| :: l.todo[1..][i] == l.todo[i + 1];
    forall u | u in s'.timers
      ensures GoodTodo(s', s'.timers[u])
    {
      assert GoodTodo(s, s.timers[u]);
      if u != t {
        assert forall i | 0 <= i < |s.timers[u].todo| :: OwnedBy(s, s.timers[u].todo[i].key.id, u);
      }
    }
  }

  lemma PushKeepsInv(s: State, a: Action)
    requires Inv(s) && Enabled(s, a) && a.Push?
    ensures Inv(Next(s, a))
  {
    var s' := Next(s, a);
    assert AfterPush(s, s', a.timer);
    PushKeepsKept(s, s', a.timer);
    PushKeepsNoStrays(s, s', a.timer);
    PushKeepsOwnership(s, s', a.timer);
    PushKeepsTodos(s, s', a.timer);
    assert GoodTodo(s, s.timers[a.timer]);
    forall t | t in s'.timers
      ensures OnSchedule(s'.clock, s'.timers[t])
    {
      assert OnSchedule(s.clock, s.timers[t]);
    }
  }

  lemma CollectKeepsTimer(s: State, a: Action, t: nat)
    requires Inv(s) && Enabled(s, a) && a.Collect? && t in s.timers
    ensures var s', l := Next(s, a), s.timers[t]; Kept(s', l) && GoodTodo(s', l) && OnSchedule(s'.clock, l)
  {
    var s' := Next(s, a);
    var l := s.timers[t];
    assert Kept(s, l) && GoodTodo(s, l) && OnSchedule(s.clock, l);
    if l.state.Armed() && l.state.Key() !in a.keys {
      FoldIsPointwise(s.effective, s'.effective, l.todo, l.state.Key());
    }
  }

  lemma CollectKeepsInv(s: State, a: Action)
    requires Inv(s) && Enabled(s, a) && a.Collect?
    ensures Inv(Next(s, a))
  {
    var s' := Next(s, a);
    forall t | t in s'.timers
      ensures Kept(s', s'.timers[t]) && GoodTodo(s', s'.timers[t]) && OnSchedule(s'.clock, s'.timers[t])
    {
      CollectKeepsTimer(s, a, t);
    }
    forall key | key in s'.effective
      ensures Explained(s', key)
    {
      assert Explained(s, key);
    }
  }

  /** What a call leaves to push: the removal of the old key unless the timer keeps it, then the
      insertion of the new key under the fresh id if the timer gets one. */
  predicate CallShape(before: TimerState, o: Outcome, id: nat) {
    var inserts := o.state.Armed() && o.state.Key().id == id;
    && (o.state.Armed() && !inserts ==>
          before.Armed() && o.ops == [] && o.state.Key() == before.Key() && o.state.reg == before.reg)
    && (o.state.Armed() || o.state.reg == before.reg || o.state.reg.None?)
    && (o.state.reg.Some? ==> o.state.reg == before.reg || o.state.reg.value.id == id)
    && (!o.state.Armed() || inserts ==>
          o.ops == Deregister(before) + if inserts then [Insert(o.state.Key(), o.state.reg.value.waker)] else [])
  }

  lemma CallsHaveShape(before: TimerState, call: Call, id: nat)
    requires before.reg.Some? ==> before.reg.value.id != id
    ensures before.when.Some? || !call.Poll? ==> CallShape(before, Perform(before, call, id), id)
    ensures before.when.None? && call.Poll? ==> Perform(before, call, id) == Outcome(before, [], None)
  {
  }

  lemma ShapedCallIsGood(s: State, l: Live, l': Live, id: nat)
    requires Kept(s, l) && l.todo == [] && (l'.state.Armed() ==> !l'.dropped)
    requires CallShape(l.state, Outcome(l'.state, l'.todo, None), id)
    requires l.state.reg.Some? ==> l.state.reg.value.id != id
    requires forall key | key in s.effective || key in s.fired :: key.id != id
    ensures Kept(s, l') && GoodTodo(s, l')
  {
    UnfoldTwo(s.effective, l'.todo);
  }

  /** One timer's part of the invariant after a call, before anything is pushed. */
  lemma CallKeepsTimer(s: State, t: nat, call: Call)
    requires Inv(s) && Enabled(s, Begin(t, call))
    ensures Kept(s, Called(s.timers[t], call, s.nextId)) && GoodTodo(s, Called(s.timers[t], call, s.nextId))
  {
    var l := s.timers[t];
    assert Kept(s, l);
    assert l.state.reg.Some? ==> OwnedBy(s, l.state.reg.value.id, t);
    CallsHaveShape(l.state, call, s.nextId);
    if l.state.when.Some? || !call.Poll? {
      ShapedCallIsGood(s, l, Called(l, call, s.nextId), s.nextId);
    }
  }

  lemma NthFromStart(start: Instant, period: nat, k: nat)
    ensures Nth(start, period, 0) == start
    ensures Nth(start, period, k + 1) == Nth(start, period, k) + period
  {
  }

  lemma PollKeepsSchedule(clock: Instant, l: Live, call: Call, id: nat)
    requires OnSchedule(clock, l) && call.Poll? && clock <= call.now
    ensures OnSchedule(call.now, Called(l, call, id))
  {
    hide Nth;
    if l.state.when.Some? && l.state.when.value <= call.now {
      var l' := Called(l, call, id);
      var n := |l.items|;
      NthFromStart(l.start.value, l.given, n);
      assert l'.items == l.items + [Nth(l.start.value, l.given, n)];
    }
  }

  lemma CallKeepsSchedule(clock: Instant, l: Live, call: Call, id: nat)
    requires OnSchedule(clock, l) && (call.Poll? ==> clock <= call.now)
    ensures OnSchedule(if call.Poll? then call.now else clock, Called(l, call, id))
  {
    match call
    case Poll(_, _) => PollKeepsSchedule(clock, l, call, id);
    case _ =>
  }

  /** The two shapes a call can have: the usual one, or nothing changes. */
  predicate CallEffect(l: Live, l': Live, id: nat) {
    CallShape(l.state, Outcome(l'.state, l'.todo, None), id) || (l'.state == l.state && l'.todo == [])
  }

  /** The state after a call, up to the clock. */
  predicate AfterCall(s: State, s': State, t: nat, l': Live) {
    && t in s.timers && s.timers[t].todo == []
    && CallEffect(s.timers[t], l', s.nextId)
    && s'.timers == s.timers[t := l'] && s'.owner == s.owner[s.nextId := t] && s'.nextId == s.nextId + 1
    && s'.effective == s.effective && s'.fired == s.fired
  }

  lemma CallKeepsOwnership(s: State, s': State, t: nat, l': Live)
    requires Ownership(s) && AfterCall(s, s', t, l')
    ensures Ownership(s')
  {
    var l := s.timers[t];
    assert s.nextId !in s.owner;
    assert l.state.reg.Some? ==> OwnedBy(s, l.state.reg.value.id, t);
    CallOwnsItsIds(l, l', s.nextId);
    forall u | u in s'.timers && s'.timers[u].state.reg.Some?
      ensures OwnedBy(s', s'.timers[u].state.reg.value.id, u)
    {
      assert u != t ==> OwnedBy(s, s.timers[u].state.reg.value.id, u);
    }
  }

  lemma CallKeepsNoStrays(s: State, s': State, t: nat, l': Live)
    requires Ownership(s) && NoStrays(s) && AfterCall(s, s', t, l')
    ensures NoStrays(s')
  {
    var l := s.timers[t];
    assert s.nextId !in s.owner;
    assert l.state.reg.Some? ==> OwnedBy(s, l.state.reg.value.id, t);
    forall key | key in s'.effective
      ensures Explained(s', key)
    {
      assert Explained(s, key);
      if s.owner[key.id] == t && !(l'.state.Armed() && l'.state.Key() == key) {
        assert l.state.Armed() && l.state.Key() == key;
        assert l'.todo[0] == Remove(key);
      }
    }
  }

  lemma CallOwnsItsIds(l: Live, l': Live, id: nat)
    requires CallEffect(l, l', id) && l.todo == []
    ensures l'.state.reg.Some? ==> l'.state.reg.value.id == id || l'.state.reg == l.state.reg
    ensures forall i | 0 <= i < |l'.todo| ::
              l'.todo[i].key.id == id || (l.state.reg.Some? && l'.todo[i].key.id == l.state.reg.value.id)
  {
  }

  lemma CallHasEffect(s: State, t: nat, call: Call)
    requires Inv(s) && Enabled(s, Begin(t, call))
    ensures CallEffect(s.timers[t], Called(s.timers[t], call, s.nextId), s.nextId)
  {
    var l := s.timers[t];
    assert l.state.reg.Some? ==> OwnedBy(s, l.state.reg.value.id, t);
    CallsHaveShape(l.state, call, s.nextId);
  }

  lemma CallKeepsOthers(s: State, s': State, t: nat)
    requires Inv(s) && t in s'.timers && s'.timers - {t} == s.timers - {t}
    requires s'.effective == s.effective && s'.fired == s.fired && s.clock <= s'.clock
    requires Kept(s', s'.timers[t]) && GoodTodo(s', s'.timers[t]) && OnSchedule(s'.clock, s'.timers[t])
    ensures AllKept(s') && GoodTodos(s') && AllOnSchedule(s') && FiredOnce(s')
  {
    forall u | u in s'.timers
      ensures Kept(s', s'.timers[u]) && GoodTodo(s', s'.timers[u]) && OnSchedule(s'.clock, s'.timers[u])
    {
      if u != t {
        assert u in s'.timers - {t} && (s'.timers - {t})[u] == (s.timers - {t})[u];
        assert Kept(s, s.timers[u]) && GoodTodo(s, s.timers[u]) && OnSchedule(s.clock, s.timers[u]);
      }
    }
  }

  lemma CallKeepsInv(s: State, a: Action)
    requires Inv(s) && Enabled(s, a) && a.Begin?
    ensures Inv(Next(s, a))
  {
    var s' := Next(s, a);
    CallKeepsTimer(s, a.timer, a.call);
    CallKeepsSchedule(s.clock, s.timers[a.timer], a.call, s.nextId);
    CallHasEffect(s, a.timer, a.call);
    var l' := Called(s.timers[a.timer], a.call, s.nextId);
    assert AfterCall(s, s', a.timer, l');
    CallKeepsOwnership(s, s', a.timer, l');
    CallKeepsNoStrays(s, s', a.timer, l');
    assert s'.timers - {a.timer} == s.timers - {a.timer};
    CallKeepsOthers(s, s', a.timer);
  }

  lemma {:induction false} InvHolds(run: seq<State>, steps: seq<Action>, i: nat)
    requires Behavior(run, steps) && i < |run|
    ensures Inv(run[i])
    decreases i
  {
    if i > 0 {
      InvHolds(run, steps, i - 1);
      var s, a := run[i - 1], steps[i - 1];
      match a
      case Create(_, _, _) => CreateKeepsInv(s, a);
      case Begin(_, _) => CallKeepsInv(s, a);
      case Push(_) => PushKeepsInv(s, a);
      case Collect(_, _) => CollectKeepsInv(s, a);
    }
  }

  // What every run promises.

  /** Between calls, an armed timer's entry is in the store with the remembered waker, or a pass at
      its instant or later has taken it. */
  lemma TimerAndStoreInStep(run: seq<State>, steps: seq<Action>, i: nat, t: nat)
    requires Behavior(run, steps) && i < |run|
    requires t in run[i].timers && run[i].timers[t].todo == [] && run[i].timers[t].state.Armed()
    ensures var l := run[i].timers[t];
            || Lookup(run[i].effective, l.state.Key()) == Some(l.state.reg.value.waker)
            || (l.state.Key() in run[i].fired && l.state.Key().when <= run[i].fired[l.state.Key()])
  {
    InvHolds(run, steps, i);
    assert Kept(run[i], run[i].timers[t]);
  }

  /** When no call is in progress, the store holds exactly the keys of armed timers that have not
      fired: nothing leaks and nothing is missing. */
  lemma NothingLeaks(run: seq<State>, steps: seq<Action>, i: nat, key: Key)
    requires Behavior(run, steps) && i < |run|
    requires forall t | t in run[i].timers :: run[i].timers[t].todo == []
    ensures key in run[i].effective
       <==> key !in run[i].fired
            && exists t :: t in run[i].timers && !run[i].timers[t].dropped
                           && run[i].timers[t].state.Armed() && run[i].timers[t].state.Key() == key
  {
    InvHolds(run, steps, i);
    var s := run[i];
    if key in s.effective {
      assert Explained(s, key);
      assert s.timers[s.owner[key.id]].state.Key() == key;
      assert Kept(s, s.timers[s.owner[key.id]]);
    }
    if key !in s.fired && exists t :: t in s.timers && s.timers[t].state.Armed() && s.timers[t].state.Key() == key {
      var t :| t in s.timers && s.timers[t].state.Armed() && s.timers[t].state.Key() == key;
      assert Kept(s, s.timers[t]);
    }
  }

  /** Every poll that leaves the timer set, whether it answers an item or not, leaves it armed with the
      polling task's waker, and the entry under the timer's key is in the store once the call has pushed
      what it has to. A poll that ends the timer leaves no registration. */
  lemma EveryPollRegistersTheTask(run: seq<State>, steps: seq<Action>, i: nat)
    requires Behavior(run, steps) && i < |steps| && steps[i].Begin? && steps[i].call.Poll?
    requires run[i].timers[steps[i].timer].state.WillFire()
    ensures var l := run[i + 1].timers[steps[i].timer];
            if l.state.WillFire() then
              && l.state.Armed() && l.state.reg.value.waker == steps[i].call.waker
              && Lookup(Fold(run[i + 1].effective, l.todo), l.state.Key()) == Some(steps[i].call.waker)
            else l.state.reg.None?
  {
    InvHolds(run, steps, i);
    InvHolds(run, steps, i + 1);
    var s, t, call := run[i], steps[i].timer, steps[i].call;
    assert Kept(run[i + 1], run[i + 1].timers[t]) && OnSchedule(s.clock, s.timers[t]);
    if s.timers[t].state.when.value <= call.now {
      AnsweringPollInserts(s, t, call);
    } else {
      PendingPollLeavesTaskRegistered(run, steps, i);
    }
  }

  lemma AnsweringPollInserts(s: State, t: nat, call: Call)
    requires Inv(s) && Enabled(s, Begin(t, call)) && call.Poll?
    requires s.timers[t].state.WillFire() && s.timers[t].state.when.value <= call.now
    ensures var l := Called(s.timers[t], call, s.nextId);
            if l.state.WillFire() then
              && l.state.Armed() && l.state.reg.value.waker == call.waker
              && Lookup(Fold(s.effective, l.todo), l.state.Key()) == Some(call.waker)
            else l.state.reg.None?
  {
    var l := Called(s.timers[t], call, s.nextId);
    UnfoldTwo(s.effective, l.todo);
  }

  /** Setting a timer renews a registration with the waker it has, at the new instant, and makes none
      where there is none; clearing keeps the waker for that. */
  lemma SetRenewsTheRegistration(run: seq<State>, steps: seq<Action>, i: nat)
    requires Behavior(run, steps) && i < |steps| && steps[i].Begin?
    requires steps[i].call.SetAt? || steps[i].call.SetIntervalAt? || steps[i].call.Clear?
    ensures var before, after := run[i].timers[steps[i].timer], run[i + 1].timers[steps[i].timer];
            if before.state.reg.None? then after.state.reg.None?
            else
              && after.state.reg.Some? && after.state.reg.value.waker == before.state.reg.value.waker
              && (steps[i].call.Clear? ==> after.state.when.None?)
              && (!steps[i].call.Clear? ==>
                    && after.state.when == after.start && after.start.Some?
                    && Lookup(Fold(run[i + 1].effective, after.todo), after.state.Key())
                         == Some(before.state.reg.value.waker))
  {
    InvHolds(run, steps, i);
    InvHolds(run, steps, i + 1);
    UnfoldTwo(run[i + 1].effective, run[i + 1].timers[steps[i].timer].todo);
  }

  /** A pending poll by the task that is registered already leaves timer and store as they are. */
  lemma RepeatedPollChangesNothing(run: seq<State>, steps: seq<Action>, i: nat)
    requires Behavior(run, steps) && i < |steps| && steps[i].Begin? && steps[i].call.Poll?
    requires var l := run[i].timers[steps[i].timer];
             l.state.Armed() && l.state.reg.value.waker == steps[i].call.waker && steps[i].call.now < l.state.when.value
    ensures run[i + 1].timers[steps[i].timer] == run[i].timers[steps[i].timer]
    ensures run[i + 1].effective == run[i].effective
  {
  }

  /** A poll that answers nothing leaves the polling task registered under the timer's key, unless
      the timer is cleared. No pass can have taken the entry: its instant is still to come. */
  lemma PendingPollLeavesTaskRegistered(run: seq<State>, steps: seq<Action>, i: nat)
    requires Behavior(run, steps) && i < |steps| && steps[i].Begin? && steps[i].call.Poll?
    requires run[i + 1].timers[steps[i].timer].items == run[i].timers[steps[i].timer].items
    requires run[i].timers[steps[i].timer].state.WillFire()
    ensures var l := run[i + 1].timers[steps[i].timer];
            && l.state.Armed() && l.state.reg.value.waker == steps[i].call.waker
            && Lookup(Fold(run[i + 1].effective, l.todo), l.state.Key()) == Some(steps[i].call.waker)
  {
    InvHolds(run, steps, i);
    InvHolds(run, steps, i + 1);
    var s, t := run[i + 1], steps[i].timer;
    assert Kept(s, s.timers[t]);
    var before := run[i].timers[t];
    if before.state.when.value <= steps[i].call.now {
      assert false;
    }
  }

  lemma {:induction false} FiredStays(run: seq<State>, steps: seq<Action>, i: nat, j: nat, key: Key)
    requires Behavior(run, steps) && i <= j < |run| && key in run[i].fired
    ensures key in run[j].fired && run[j].fired[key] == run[i].fired[key]
    decreases j - i
  {
    hide Next, Inv;
    if i < j {
      FiredStays(run, steps, i, j - 1, key);
      InvHolds(run, steps, j - 1);
      StepKeepsFired(run[j - 1], steps[j - 1], key);
    }
  }

  lemma StepKeepsFired(s: State, a: Action, key: Key)
    requires Inv(s) && Enabled(s, a) && key in s.fired
    ensures key in Next(s, a).fired && Next(s, a).fired[key] == s.fired[key]
  {
  }

  /** No entry is taken by two passes of a run, and none is ever recorded as taken before its instant.
      (That a pass takes due entries only is `StoreSystem.StepsRefineTheMap`; here it is the rule of
      `Collect`.) */
  lemma NoTimerFiresTwiceOrEarly(run: seq<State>, steps: seq<Action>, i: nat)
    requires Behavior(run, steps) && i < |steps| && steps[i].Collect?
    ensures forall key | key in steps[i].keys :: key !in run[i].fired && key.when <= steps[i].now
    ensures forall key | key in run[i].fired :: key in run[i + 1].fired && run[i + 1].fired[key] == run[i].fired[key]
    ensures forall j | 0 <= j < i && steps[j].Collect? :: steps[j].keys !! steps[i].keys
    ensures forall key | key in run[i + 1].fired :: key.when <= run[i + 1].fired[key] <= run[i + 1].clock
  {
    InvHolds(run, steps, i);
    InvHolds(run, steps, i + 1);
    forall j, key | 0 <= j < i && steps[j].Collect? && key in steps[j].keys
      ensures key in run[i].fired
    {
      assert key in run[j + 1].fired;
      FiredStays(run, steps, j + 1, i, key);
    }
  }

  /** The items of a timer since it was last set are exactly `start + k * period` in order, with the
      period it was last given, none of them before the clock reached it, and the timer is over exactly
      when the next is out of range. */
  lemma IntervalsDoNotDrift(run: seq<State>, steps: seq<Action>, i: nat, t: nat)
    requires Behavior(run, steps) && i < |run| && t in run[i].timers && run[i].timers[t].start.Some?
    ensures var l := run[i].timers[t];
            && (forall k | 0 <= k < |l.items| ::
                  l.items[k] == l.start.value + k * l.given && l.items[k] <= run[i].clock)
            && (l.state.WillFire() <==>
                  l.items == [] || l.start.value + |l.items| * l.given <= MAX_INSTANT)
            && (l.state.WillFire() ==> l.state.when.value == l.start.value + |l.items| * l.given)
  {
    InvHolds(run, steps, i);
    var l := run[i].timers[t];
    assert OnSchedule(run[i].clock, l);
    forall k | 0 <= k <= |l.items|
      ensures Nth(l.start.value, l.given, k) == l.start.value + k * l.given
    {
      NthIsMultiple(l.start.value, l.given, k);
    }
    assert l.items == [] ==> Nth(l.start.value, l.given, |l.items|) == l.start.value;
  }

  /** A poll answers the next item exactly when the clock has reached it. */
  lemma PollAnswersExactlyWhenDue(run: seq<State>, steps: seq<Action>, i: nat)
    requires Behavior(run, steps) && i < |steps| && steps[i].Begin? && steps[i].call.Poll?
    ensures var before := run[i].timers[steps[i].timer];
            var after := run[i + 1].timers[steps[i].timer];
            after.items == if before.start.Some? && before.state.WillFire()
                              && before.start.value + |before.items| * before.given <= steps[i].call.now
                           then before.items + [before.start.value + |before.items| * before.given]
                           else before.items
  {
    InvHolds(run, steps, i);
    var t := steps[i].timer;
    assert OnSchedule(run[i].clock, run[i].timers[t]);
    if run[i].timers[t].start.Some? {
      IntervalsDoNotDrift(run, steps, i, t);
    }
  }
}
