/** Any number of threads that push timer operations and drain a full queue, interleaved step by step
    with the one thread that is inside `react`. The question is whether the reactor can sleep past a
    deadline that somebody has registered. */
module StoreSystem {
  import opened Environment
  import opened TimerOps
  import opened TimerStore

  /** Where a thread is inside `insert_timer` or `remove_timer`. */
  datatype Job =
    | Idle
    | Pushing(op: TimerOp)
    | Full(op: TimerOp)
    | Draining(op: TimerOp, left: nat)
    | Pushed(key: Key)

  /** Where the thread that holds the events lock is inside `react`. `limit` is the timeout it was
      given; `last` tells the pass after the wait from the one before it. */
  datatype Reactor =
    | Away
    | Entering(limit: Option<nat>, last: bool)
    | Filling(limit: Option<nat>, last: bool, left: nat)
    | Timed(until: Option<Instant>)
    | Waiting(until: Option<Instant>)

  datatype Lock = Free | ByThread(thread: nat) | ByReactor

  /** `hand` is the operation that the holder of the timers lock has popped but not yet applied.
      `recent` and `stale` are history: the keys pushed since the reactor's last drain began, each
      with the thread that pushed it, and how many operations at the front of the queue are older. */
  datatype State = State(
    capacity: nat,
    timers: TimerMap,
    queue: seq<TimerOp>,
    hand: seq<TimerOp>,
    lock: Lock,
    jobs: map<nat, Job>,
    reactor: Reactor,
    notified: bool,
    clock: Instant,
    recent: map<Key, nat>,
    stale: nat)
  {
    function Effective(): TimerMap {
      Fold(timers, hand + queue)
    }
  }

  datatype Action =
    | Tick(now: Instant)
    | Begin(thread: nat, op: TimerOp)
    | TryPush(thread: nat)
    | LockTimers(thread: nat)
    | Pop(thread: nat)
    | ApplyHand
    | Unlock(thread: nat)
    | Notify(thread: nat)
    | NotifyElsewhere
    | React(limit: Option<nat>)
    | ReactorLock
    | ReactorPop
    | ReactorSplit(delay: Option<nat>)
    | ReactorWait
    | ReactorReturn(consumed: bool, again: bool)

  ghost predicate Enabled(s: State, a: Action) {
    match a
    case Tick(now) => s.clock <= now
    case Begin(t, op) => t !in s.jobs || s.jobs[t].Idle?
    case TryPush(t) => t in s.jobs && s.jobs[t].Pushing?
    case LockTimers(t) => t in s.jobs && s.jobs[t].Full? && s.lock.Free?
    case Pop(t) => t in s.jobs && s.jobs[t].Draining? && s.jobs[t].left > 0 && s.hand == [] && s.queue != []
    case ApplyHand => s.hand != []
    case Unlock(t) =>
      t in s.jobs && s.jobs[t].Draining? && s.hand == [] && (s.jobs[t].left == 0 || s.queue == [])
    case Notify(t) => t in s.jobs && s.jobs[t].Pushed?
    case NotifyElsewhere => true
    case React(limit) => s.reactor.Away?
    case ReactorLock => s.reactor.Entering? && s.lock.Free?
    case ReactorPop => s.reactor.Filling? && s.reactor.left > 0 && s.hand == [] && s.queue != []
    case ReactorSplit(delay) =>
      && s.reactor.Filling? && s.hand == [] && (s.reactor.left == 0 || s.queue == [])
      && IsDelay(s.timers, s.clock, delay)
    case ReactorWait => s.reactor.Timed?
    case ReactorReturn(consumed, again) => s.reactor.Waiting?
  }

  /** The intended end of a wait that begins now. */
  function WaitUntil(now: Instant, delay: Option<nat>, limit: Option<nat>): Option<Instant> {
    match MinTimeout(delay, limit)
    case None => None
    case Some(t) => Some(now + t)
  }

  function Next(s: State, a: Action): State
    requires Enabled(s, a)
  {
    match a
    case Tick(now) => s.(clock := now)
    case Begin(t, op) => s.(jobs := s.jobs[t := Pushing(op)])
    case TryPush(t) =>
      var op := s.jobs[t].op;
      if |s.queue| >= s.capacity then s.(jobs := s.jobs[t := Full(op)])
      else if op.Insert? then
        s.(queue := s.queue + [op], jobs := s.jobs[t := Pushed(op.key)], recent := s.recent[op.key := t])
      else s.(queue := s.queue + [op], jobs := s.jobs[t := Idle])
    case LockTimers(t) => s.(lock := ByThread(t), jobs := s.jobs[t := Draining(s.jobs[t].op, s.capacity)])
    case Pop(t) =>
      s.(hand := [s.queue[0]], queue := s.queue[1..], stale := if s.stale > 0 then s.stale - 1 else 0,
         jobs := s.jobs[t := Draining(s.jobs[t].op, s.jobs[t].left - 1)])
    case ApplyHand => s.(timers := Apply(s.timers, s.hand[0]), hand := s.hand[1..])
    case Unlock(t) => s.(lock := Free, jobs := s.jobs[t := Pushing(s.jobs[t].op)])
    case Notify(t) => s.(notified := true, jobs := s.jobs[t := Idle])
    case NotifyElsewhere => s.(notified := true)
    case React(limit) => s.(reactor := Entering(limit, false))
    case ReactorLock =>
      s.(lock := ByReactor, reactor := Filling(s.reactor.limit, s.reactor.last, s.capacity),
         recent := map[], stale := |s.queue|)
    case ReactorPop =>
      s.(hand := [s.queue[0]], queue := s.queue[1..], stale := if s.stale > 0 then s.stale - 1 else 0,
         reactor := s.reactor.(left := s.reactor.left - 1))
    case ReactorSplit(delay) =>
      s.(timers := s.timers - Due(s.timers, s.clock), lock := Free,
         reactor := if s.reactor.last then Away else Timed(WaitUntil(s.clock, delay, s.reactor.limit)))
    case ReactorWait => s.(reactor := Waiting(s.reactor.until))
    case ReactorReturn(consumed, again) =>
      s.(notified := s.notified && !consumed, reactor := if again then Entering(None, true) else Away)
  }

  predicate Init(s: State) {
    && 0 < s.capacity && s.timers == map[] && s.queue == [] && s.hand == [] && s.lock.Free?
    && s.jobs == map[] && s.reactor.Away? && s.recent == map[] && s.stale == 0
  }

  ghost predicate Behavior(run: seq<State>, steps: seq<Action>) {
    && |run| == |steps| + 1 && Init(run[0])
    && forall i | 0 <= i < |steps| :: Enabled(run[i], steps[i]) && run[i + 1] == Next(run[i], steps[i])
  }

  // The invariant.

  /** Draining and holding the timers lock are the same thing. */
  ghost predicate Locking(s: State) {
    && 0 < s.capacity && |s.queue| <= s.capacity && |s.hand| <= 1
    && (forall t | t in s.jobs :: s.jobs[t].Draining? <==> s.lock == ByThread(t))
    && (s.lock.ByThread? ==> s.lock.thread in s.jobs)
    && (s.reactor.Filling? <==> s.lock.ByReactor?)
    && (s.lock.Free? ==> s.hand == [])
  }

  /** The reactor has begun its drain and has not yet returned from the wait. */
  predicate Committed(s: State) {
    s.reactor.Filling? || s.reactor.Timed? || s.reactor.Waiting?
  }

  /** Whoever pushed an insert since the drain began has notified the poller or is about to. */
  predicate Announced(s: State, key: Key)
    requires key in s.recent
  {
    s.notified || (s.recent[key] in s.jobs && s.jobs[s.recent[key]] == Pushed(key))
  }

  ghost predicate AllAnnounced(s: State) {
    Committed(s) ==> forall key | key in s.recent :: Announced(s, key)
  }

  /** While the reactor drains, what is not recent fits into the pops that are left. */
  ghost predicate StaleFits(s: State) {
    s.reactor.Filling? ==>
      && s.stale <= |s.queue| && s.stale <= s.reactor.left
      && forall i | s.stale <= i < |s.queue| && s.queue[i].Insert? :: s.queue[i].key in s.recent
  }

  predicate Late(until: Option<Instant>, key: Key) {
    until.Some? && until.value <= key.when
  }

  /** Once the timeout is computed, every entry is recent or not due before the wait ends. */
  ghost predicate Covered(s: State) {
    s.reactor.Timed? || s.reactor.Waiting? ==>
      && (forall key | key in s.timers :: key in s.recent || Late(s.reactor.until, key))
      && (forall i | 0 <= i < |s.hand| && s.hand[i].Insert? :: s.hand[i].key in s.recent)
      && (forall i | 0 <= i < |s.queue| && s.queue[i].Insert? :: s.queue[i].key in s.recent)
  }

  ghost predicate Inv(s: State) {
    Locking(s) && AllAnnounced(s) && StaleFits(s) && Covered(s)
  }

  predicate ReactorStep(a: Action) {
    a.React? || a.ReactorLock? || a.ReactorPop? || a.ReactorSplit? || a.ReactorWait? || a.ReactorReturn?
  }

  lemma ReactorKeepsLocking(s: State, a: Action)
    requires Locking(s) && Enabled(s, a) && ReactorStep(a)
    ensures Locking(Next(s, a))
  {
  }

  lemma ThreadKeepsLocking(s: State, a: Action)
    requires Locking(s) && Enabled(s, a) && !ReactorStep(a)
    ensures Locking(Next(s, a))
  {
  }

  lemma StepKeepsAnnounced(s: State, a: Action)
    requires Inv(s) && Enabled(s, a)
    ensures AllAnnounced(Next(s, a))
  {
    var s' := Next(s, a);
    if Committed(s') {
      forall key | key in s'.recent
        ensures Announced(s', key)
      {
        if key in s.recent && Committed(s) {
          assert Announced(s, key);
        }
      }
    }
  }

  lemma StepKeepsStaleFits(s: State, a: Action)
    requires Inv(s) && Enabled(s, a)
    ensures StaleFits(Next(s, a))
  {
  }

  lemma StepKeepsCovered(s: State, a: Action)
    requires Inv(s) && Enabled(s, a)
    ensures Covered(Next(s, a))
  {
    if a.ReactorSplit? {
      SplitCovers(s, a);
    } else if !ReactorStep(a) {
      ThreadKeepsCovered(s, a);
    }
  }

  lemma ThreadKeepsCovered(s: State, a: Action)
    requires Covered(s) && Enabled(s, a) && !ReactorStep(a)
    ensures Covered(Next(s, a))
  {
  }

  lemma SplitCovers(s: State, a: Action)
    requires Inv(s) && Enabled(s, a) && a.ReactorSplit?
    ensures Covered(Next(s, a))
  {
    var s' := Next(s, a);
    if s'.reactor.Timed? {
      forall key | key in s'.timers
        ensures Late(s'.reactor.until, key)
      {
        assert key in s.timers && key !in Due(s.timers, s.clock);
      }
    }
  }

  lemma {:induction false} InvHolds(run: seq<State>, steps: seq<Action>, i: nat)
    requires Behavior(run, steps) && i < |run|
    ensures Inv(run[i])
    decreases i
  {
    if i > 0 {
      InvHolds(run, steps, i - 1);
      if ReactorStep(steps[i - 1]) {
        ReactorKeepsLocking(run[i - 1], steps[i - 1]);
      } else {
        ThreadKeepsLocking(run[i - 1], steps[i - 1]);
      }
      StepKeepsAnnounced(run[i - 1], steps[i - 1]);
      StepKeepsStaleFits(run[i - 1], steps[i - 1]);
      StepKeepsCovered(run[i - 1], steps[i - 1]);
    }
  }

  /** While a thread is in the poller's wait, every registered timer due before the wait's intended
      end has a pending notification, or the thread that inserted it is about to notify. This holds
      however many threads drain a full queue behind the reactor's back. */
  lemma NoDeadlineIsOverslept(run: seq<State>, steps: seq<Action>, i: nat, key: Key)
    requires Behavior(run, steps) && i < |run| && run[i].reactor.Waiting?
    requires key in run[i].Effective()
    requires run[i].reactor.until.Some? ==> key.when < run[i].reactor.until.value
    ensures run[i].notified || exists t :: t in run[i].jobs && run[i].jobs[t] == Pushed(key)
  {
    InvHolds(run, steps, i);
    var s := run[i];
    FoldOrigin(s.timers, s.hand + s.queue, key);
    assert key in s.recent by {
      if key !in s.timers {
        var op :| op in s.hand + s.queue && op.Insert? && op.key == key;
        assert op in s.hand || op in s.queue;
      }
    }
    assert Announced(s, key);
  }

  /** When the timeout has been computed, the intended end of the wait is within the caller's limit, and
      no earlier than both the limit and the first timer left in the map require. */
  lemma WaitIsWithinItsLimit(run: seq<State>, steps: seq<Action>, i: nat)
    requires Behavior(run, steps) && i < |steps| && steps[i].ReactorSplit? && !run[i].reactor.last
    ensures run[i + 1].reactor.Timed?
    ensures var until, limit := run[i + 1].reactor.until, run[i].reactor.limit;
            && (limit.Some? ==> until.Some? && until.value <= run[i].clock + limit.value)
            && (until.None? ==> limit.None? && run[i].timers == map[])
            && (until.Some? ==>
                  || (limit.Some? && until.value == run[i].clock + limit.value)
                  || (until.value == run[i].clock && Due(run[i].timers, run[i].clock) != {})
                  || exists key :: key in run[i].timers && key.when == until.value)
  {
    TimeoutIsTheLesser(steps[i].delay, run[i].reactor.limit);
  }

  /** Without a notification or an inserter on its way, the reactor sleeps no longer than until the
      earliest registered timer. */
  lemma QuietWaitEndsInTime(run: seq<State>, steps: seq<Action>, i: nat)
    requires Behavior(run, steps) && i < |run| && run[i].reactor.Waiting?
    requires !run[i].notified && forall t | t in run[i].jobs :: !run[i].jobs[t].Pushed?
    ensures forall key | key in run[i].Effective() :: Late(run[i].reactor.until, key)
  {
    forall key | key in run[i].Effective()
      ensures Late(run[i].reactor.until, key)
    {
      if !Late(run[i].reactor.until, key) {
        NoDeadlineIsOverslept(run, steps, i, key);
      }
    }
  }

  // A drain is bounded and thorough.

  /** How many operations a thread has popped from state `i` to state `j`. */
  function Pops(steps: seq<Action>, i: nat, j: nat, t: nat): nat
    requires i <= j <= |steps|
  {
    if i == j then 0 else Pops(steps, i, j - 1, t) + if steps[j - 1] == Action.Pop(t) then 1 else 0
  }

  lemma DrainStep(s: State, a: Action, t: nat)
    requires Inv(s) && Enabled(s, a) && t in s.jobs && s.jobs[t].Draining?
    requires t in Next(s, a).jobs && Next(s, a).jobs[t].Draining?
    ensures Next(s, a).jobs[t].left + (if a == Action.Pop(t) then 1 else 0) == s.jobs[t].left
    ensures Next(s, a).capacity == s.capacity
  {
  }

  lemma DrainStarts(s: State, t: nat)
    requires Enabled(s, LockTimers(t))
    ensures var s' := Next(s, LockTimers(t));
            && t in s'.jobs && s'.jobs[t].Draining?
            && s'.jobs[t].left == s'.capacity == s.capacity
  {
  }

  /** A thread that drains a full queue pops no more than the capacity, and it stops only when it has
      popped that many or has found the queue empty, whatever the others push meanwhile. */
  lemma {:induction false} DrainPopsUpToCapacity(run: seq<State>, steps: seq<Action>, i: nat, j: nat, t: nat)
    requires Behavior(run, steps) && i < j < |run| && steps[i] == LockTimers(t)
    requires forall k | i < k <= j :: t in run[k].jobs && run[k].jobs[t].Draining?
    ensures t in run[j].jobs && run[j].capacity == run[i].capacity
    ensures Pops(steps, i, j, t) + run[j].jobs[t].left == run[i].capacity
    ensures j < |steps| && steps[j] == Unlock(t) ==> Pops(steps, i, j, t) == run[i].capacity || run[j].queue == []
    decreases j - i
  {
    hide Next, Inv;
    assert run[j].jobs[t].Draining?;
    if i + 1 < j {
      DrainPopsUpToCapacity(run, steps, i, j - 1, t);
      InvHolds(run, steps, j - 1);
      assert run[j - 1].jobs[t].Draining?;
      DrainStep(run[j - 1], steps[j - 1], t);
    } else {
      DrainStarts(run[i], t);
      assert Pops(steps, i, i, t) == 0;
    }
  }

  // The lazy store refines a plain map.

  /** The operation that a step makes visible, if it pushes one. */
  function Visible(s: State, a: Action): seq<TimerOp>
    requires Enabled(s, a)
  {
    if a.TryPush? && |s.queue| < s.capacity then [s.jobs[a.thread].op] else []
  }

  lemma PushRefines(s: State, a: Action)
    requires Enabled(s, a) && a.TryPush?
    ensures Next(s, a).Effective() == Fold(s.Effective(), Visible(s, a))
  {
    if |s.queue| < s.capacity {
      var op := s.jobs[a.thread].op;
      assert s.hand + (s.queue + [op]) == (s.hand + s.queue) + [op];
      FoldConcat(s.timers, s.hand + s.queue, [op]);
    }
  }

  lemma ApplyRefines(s: State, a: Action)
    requires Inv(s) && Enabled(s, a) && a.ApplyHand?
    ensures Next(s, a).Effective() == s.Effective()
  {
    var op := s.hand[0];
    assert s.hand == [op] && s.hand[1..] == [];
    assert ([op] + s.queue)[1..] == s.queue == [] + s.queue;
  }

  lemma PopRefines(s: State, a: Action)
    requires Enabled(s, a) && (a.Pop? || a.ReactorPop?)
    ensures Next(s, a).Effective() == s.Effective()
  {
    var s' := Next(s, a);
    assert s'.timers == s.timers && s'.hand + s'.queue == s.hand + s.queue;
  }

  /** The entries that a pass takes out of the effective map. */
  function Taken(before: TimerMap, after: TimerMap): set<Key> {
    before.Keys - after.Keys
  }

  predicate Queued(queue: seq<TimerOp>, key: Key) {
    exists op :: op in queue && op.Insert? && op.key == key
  }

  lemma SplitRefines(s: State, a: Action)
    requires Inv(s) && Enabled(s, a) && a.ReactorSplit?
    ensures var taken := Taken(s.Effective(), Next(s, a).Effective());
            && Next(s, a).Effective() == s.Effective() - taken && taken <= Due(s.timers, s.clock)
            && forall key :: key in taken <==> key in Due(s.Effective(), s.clock) && !Queued(s.queue, key)
    ensures forall key | Queued(s.queue, key) :: key in s.recent
  {
    assert s.hand + s.queue == s.queue;
    SplitTakesDue(s.timers, s.queue, s.clock);
  }

  lemma OtherStepsRefine(s: State, a: Action)
    requires Enabled(s, a)
    requires !a.TryPush? && !a.Pop? && !a.ReactorPop? && !a.ApplyHand? && !a.ReactorSplit?
    ensures Next(s, a).Effective() == s.Effective()
  {
    var s' := Next(s, a);
    assert s'.timers == s.timers && s'.hand == s.hand && s'.queue == s.queue;
  }

  /** Every step acts on the effective map as the operation it pushes; popping and applying change
      nothing. A pass takes out exactly the due entries whose insertion is not still in the queue, so
      at least every due entry that has not been pushed since the pass began to drain. */
  lemma StepsRefineTheMap(run: seq<State>, steps: seq<Action>, i: nat)
    requires Behavior(run, steps) && i < |steps|
    ensures !steps[i].ReactorSplit? ==>
              run[i + 1].Effective() == Fold(run[i].Effective(), Visible(run[i], steps[i]))
    ensures steps[i].ReactorSplit? ==>
              var taken := Taken(run[i].Effective(), run[i + 1].Effective());
              && run[i + 1].Effective() == run[i].Effective() - taken
              && taken <= Due(run[i].timers, run[i].clock)
              && (forall key :: key in taken <==>
                    key in Due(run[i].Effective(), run[i].clock) && !Queued(run[i].queue, key))
              && (forall key | key in Due(run[i].Effective(), run[i].clock) && key !in run[i].recent ::
                    key !in run[i + 1].Effective())
  {
    InvHolds(run, steps, i);
    var s, a := run[i], steps[i];
    if a.TryPush? {
      PushRefines(s, a);
    } else if a.ReactorSplit? {
      SplitRefines(s, a);
    } else if a.ApplyHand? {
      ApplyRefines(s, a);
    } else if a.Pop? || a.ReactorPop? {
      PopRefines(s, a);
    } else {
      OtherStepsRefine(s, a);
    }
  }

  /** Splitting the drained part of a store takes out of the effective map exactly the due entries
      that no queued operation inserts. */
  lemma SplitTakesDue(timers: TimerMap, queue: seq<TimerOp>, now: Instant)
    ensures var before := Fold(timers, queue);
            var after := Fold(timers - Due(timers, now), queue);
            var taken := Taken(before, after);
            && after == before - taken && taken <= Due(timers, now)
            && forall key :: key in taken <==> key in Due(before, now) && !Queued(queue, key)
  {
    var before := Fold(timers, queue);
    var rest := timers - Due(timers, now);
    var after := Fold(rest, queue);
    forall key: Key
      ensures if key in Due(timers, now) && !Queued(queue, key) then key !in after
              else Lookup(after, key) == Lookup(before, key)
    {
      if key !in Due(timers, now) {
        FoldIsPointwise(timers, rest, queue, key);
      } else if Queued(queue, key) {
        TouchedKey(timers, rest, queue, key);
      } else if key in after {
        FoldOrigin(rest, queue, key);
      }
    }
    forall key | key in before && !Queued(queue, key)
      ensures key in timers
    {
      FoldOrigin(timers, queue, key);
    }
  }

  /** A key that some operation inserts ends the same from any map. */
  lemma {:induction false} TouchedKey(m: TimerMap, n: TimerMap, ops: seq<TimerOp>, key: Key)
    requires Queued(ops, key)
    ensures Lookup(Fold(m, ops), key) == Lookup(Fold(n, ops), key)
    decreases |ops|
  {
    if ops[0].key == key {
      FoldIsPointwise(Apply(m, ops[0]), Apply(n, ops[0]), ops[1..], key);
    } else {
      var op :| op in ops && op.Insert? && op.key == key;
      assert op in ops[1..];
      TouchedKey(Apply(m, ops[0]), Apply(n, ops[0]), ops[1..], key);
    }
  }
}
