/** The reactor's timer store: a bounded queue of operations in front of an ordered map. */
module TimerStore {
  import opened Environment
  import opened TimerOps

  /** One timer handed to the wakers' list by a pass of the reactor. */
  datatype Firing = Firing(key: Key, waker: Waker, at: Instant)

  /** How long the reactor may sleep, given the map it splits at `now`. */
  ghost predicate IsDelay(m: TimerMap, now: Instant, delay: Option<nat>) {
    match delay
    case None => m == map[]
    case Some(d) =>
      && m != map[]
      && (d == 0 <==> Due(m, now) != {})
      && (d > 0 ==>
            && (exists key :: key in m && key.when == now + d)
            && (forall key | key in m :: now + d <= key.when))
  }

  /** What the poller may wait: the time to the next timer or the caller's limit, whichever is less. */
  function MinTimeout(delay: Option<nat>, limit: Option<nat>): Option<nat> {
    match (delay, limit)
    case (None, None) => None
    case (Some(t), None) => Some(t)
    case (None, Some(t)) => Some(t)
    case (Some(a), Some(b)) => Some(if a < b then a else b)
  }

  /** The timeout is one of the two, and neither is less. */
  lemma TimeoutIsTheLesser(delay: Option<nat>, limit: Option<nat>)
    ensures var r := MinTimeout(delay, limit);
            && (r.None? <==> delay.None? && limit.None?)
            && (r == delay || r == limit)
            && (delay.Some? ==> r.value <= delay.value) && (limit.Some? ==> r.value <= limit.value)
  {
  }

  /** The firings of a pass that takes `keys` out of `m` at `now`. */
  function Firings(m: TimerMap, keys: seq<Key>, now: Instant): (r: seq<Firing>)
    requires forall key | key in keys :: key in m
  {
    seq(|keys|, i requires 0 <= i < |keys| => Firing(keys[i], m[keys[i]], now))
  }

  /** What other threads push during a drain, pop by pop, and after it. */
  datatype Meanwhile = Meanwhile(during: seq<seq<TimerOp>>, after: seq<TimerOp>)

  class Store {
    const capacity: nat
    var timers: TimerMap
    var queue: seq<TimerOp>
    /** The next id of the id generator. */
    var nextId: nat
    /** A pending notification of the poller. */
    var notified: bool
    /** Everything the passes have taken out of the map so far. */
    ghost var fired: seq<Firing>

    ghost predicate Valid()
      reads this
    {
      0 < capacity && |queue| <= capacity
    }

    ghost function Effective(): TimerMap
      reads this
    {
      Fold(timers, queue)
    }

    constructor (capacity: nat)
      requires 0 < capacity
      ensures Valid() && fresh(this)
      ensures Effective() == map[] && nextId == 1 && !notified && fired == []
    {
      this.capacity := capacity;
      timers, queue, nextId, notified, fired := map[], [], 1, false, [];
    }

    /** Pushes an operation unless the queue is full. */
    method TryPush(op: TimerOp) returns (ok: bool)
      requires Valid()
      modifies this`queue
      ensures Valid()
      ensures ok == (|old(queue)| < capacity)
      ensures queue == if ok then old(queue) + [op] else old(queue)
      ensures Effective() == if ok then Apply(old(Effective()), op) else old(Effective())
    {
      ok := |queue| < capacity;
      if ok {
        FoldAppend(timers, queue, op);
        queue := queue + [op];
      }
    }

    /** Other threads push as many of `ops` as fit; the rest have to wait for room. */
    method OthersPush(ops: seq<TimerOp>) returns (ghost pushed: seq<TimerOp>)
      requires Valid()
      modifies this`queue
      ensures Valid()
      ensures pushed <= ops && queue == old(queue) + pushed
      ensures Effective() == Fold(old(Effective()), pushed)
      ensures pushed == ops || |queue| == capacity
    {
      pushed := [];
      var i := 0;
      while i < |ops| && |queue| < capacity
        invariant 0 <= i <= |ops| && Valid()
        invariant pushed == ops[..i]
        invariant queue == old(queue) + pushed
      {
        queue := queue + [ops[i]];
        pushed := pushed + [ops[i]];
        i := i + 1;
      }
      FoldConcat(timers, old(queue), pushed);
    }

    /** Drains the queue into the map. `arrivals[n]` is what other threads try to push just before
        the n-th operation is popped. At most `capacity` operations are popped, so the loop ends
        however much arrives; the ones queued at the start are all applied, in order. */
    method ProcessTimerOps(arrivals: seq<seq<TimerOp>>)
      returns (ghost applied: seq<TimerOp>, ghost arrived: seq<TimerOp>)
      requires Valid()
      modifies this`timers, this`queue
      ensures Valid()
      ensures |applied| <= capacity
      ensures old(queue) <= applied
      ensures applied + queue == old(queue) + arrived
      ensures timers == Fold(old(timers), applied)
      ensures Effective() == Fold(old(Effective()), arrived)
      ensures arrivals == [] ==> arrived == [] && queue == []
    {
      ghost var start := queue;
      applied, arrived := [], [];
      var n := 0;
      var more := true;
      while n < capacity && more
        invariant 0 <= n <= capacity && Valid()
        invariant |applied| <= n && (more ==> |applied| == n) && (!more ==> queue == [])
        invariant applied + queue == start + arrived
        invariant timers == Fold(old(timers), applied)
        invariant arrivals == [] ==> arrived == []
        decreases capacity - n, more
      {
        ghost var before, came := queue, arrived;
        if n < |arrivals| {
          ghost var pushed := OthersPush(arrivals[n]);
          arrived := arrived + pushed;
          assert applied + queue == (applied + before) + pushed == (start + came) + pushed;
        }
        if queue == [] {
          more := false;
        } else {
          var op := queue[0];
          FoldAppend(old(timers), applied, op);
          assert applied + queue == (applied + [op]) + queue[1..];
          applied := applied + [op];
          timers := Apply(timers, op);
          queue := queue[1..];
          n := n + 1;
        }
      }
      StartIsApplied(start, arrived, applied, queue, capacity);
      FoldConcat(old(timers), applied, queue);
      FoldConcat(old(timers), start, arrived);
    }

    /** The retry loop of both registration and deregistration: while the queue is full, it is
        drained and the push is tried again. `others[n]` is what other threads push meanwhile: at each
        pop of the n-th drain, and between that drain and the next try, which they may fill up. */
    method PushWhenThereIsRoom(op: TimerOp, others: seq<Meanwhile>) returns (ghost arrived: seq<TimerOp>)
      requires Valid()
      modifies this`timers, this`queue
      ensures Valid()
      ensures Effective() == Apply(Fold(old(Effective()), arrived), op)
      ensures others == [] ==> arrived == []
    {
      arrived := [];
      var n := 0;
      var ok := TryPush(op);
      while !ok
        invariant Valid()
        invariant var m := Fold(old(Effective()), arrived); Effective() == if ok then Apply(m, op) else m
        invariant others == [] ==> arrived == []
        decreases !ok, if n < |others| then |others| - n else 0, |queue|
      {
        ghost var applied, during, after := [], [], [];
        if n < |others| {
          applied, during := ProcessTimerOps(others[n].during);
          after := OthersPush(others[n].after);
        } else {
          applied, during := ProcessTimerOps([]);
        }
        FoldConcat(old(Effective()), arrived, during);
        FoldConcat(old(Effective()), arrived + during, after);
        arrived := arrived + during + after;
        n := n + 1;
        ok := TryPush(op);
      }
    }

    /** Registers a timer; answers its id. */
    method InsertTimer(when: Instant, waker: Waker, others: seq<Meanwhile>)
      returns (id: nat, ghost arrived: seq<TimerOp>)
      requires Valid()
      modifies this`timers, this`queue, this`nextId, this`notified
      ensures Valid()
      ensures id == old(nextId) && nextId == old(nextId) + 1
      ensures Effective() == Fold(old(Effective()), arrived)[Key(when, id) := waker]
      ensures others == [] ==> arrived == []
      ensures notified
    {
      id := nextId;
      nextId := nextId + 1;
      arrived := PushWhenThereIsRoom(Insert(Key(when, id), waker), others);
      notified := true;
    }

    /** Deregisters a timer. Nobody is notified: the reactor may wake too early, never too late. */
    method RemoveTimer(when: Instant, id: nat, others: seq<Meanwhile>) returns (ghost arrived: seq<TimerOp>)
      requires Valid()
      modifies this`timers, this`queue
      ensures Valid()
      ensures Effective() == Fold(old(Effective()), arrived) - {Key(when, id)}
      ensures others == [] ==> arrived == []
    {
      arrived := PushWhenThereIsRoom(Remove(Key(when, id)), others);
    }

    /** Splits the map at `now`: every timer due leaves it for the wakers' list. */
    method TakeDue(now: Instant, wakers: seq<Waker>)
      returns (wakers': seq<Waker>, delay: Option<nat>, ghost keys: seq<Key>)
      modifies this`timers, this`fired
      ensures Lists(keys, Due(old(timers), now))
      ensures wakers' == wakers + WakersAt(old(timers), keys)
      ensures timers == old(timers) - Due(old(timers), now)
      ensures fired == old(fired) + Firings(old(timers), keys, now)
      ensures IsDelay(old(timers), now, delay)
    {
      var ready, pending := SplitOff(timers, now);
      delay := DelayUntilNext(ready, pending, now);
      wakers' := TakeInOrder(ready, wakers);
      keys := InOrder(ready);
      WakersAtRestricted(ready, timers, keys);
      fired := fired + Firings(timers, keys, now);
      timers := pending;
    }

    /** Drains the queue, then moves every timer due at `now` from the map to the wakers' list. */
    method ProcessTimers(now: Instant, wakers: seq<Waker>, arrivals: seq<seq<TimerOp>>)
      returns (wakers': seq<Waker>, delay: Option<nat>,
               ghost keys: seq<Key>, ghost applied: seq<TimerOp>, ghost arrived: seq<TimerOp>)
      requires Valid()
      modifies this`timers, this`queue, this`fired
      ensures Valid()
      ensures old(queue) <= applied && applied + queue == old(queue) + arrived
      ensures arrivals == [] ==> arrived == [] && queue == []
      ensures var m := Fold(old(timers), applied);
              && Lists(keys, Due(m, now))
              && wakers' == wakers + WakersAt(m, keys)
              && timers == m - Due(m, now)
              && fired == old(fired) + Firings(m, keys, now)
              && IsDelay(m, now, delay)
    {
      applied, arrived := ProcessTimerOps(arrivals);
      wakers', delay, keys := TakeDue(now, wakers);
    }

    /** A pass that nobody disturbs takes exactly what is due out of the effective map. */
    method Pass(now: Instant, wakers: seq<Waker>)
      returns (wakers': seq<Waker>, delay: Option<nat>, ghost keys: seq<Key>)
      requires Valid()
      modifies this`timers, this`queue, this`fired
      ensures Valid()
      ensures Lists(keys, Due(old(Effective()), now))
      ensures wakers' == wakers + WakersAt(old(Effective()), keys)
      ensures Effective() == old(Effective()) - Due(old(Effective()), now)
      ensures IsDelay(old(Effective()), now, delay)
    {
      ghost var applied, arrived;
      wakers', delay, keys, applied, arrived := ProcessTimers(now, wakers, []);
      assert applied == old(queue) by { assert applied + [] == old(queue) + []; }
    }
  }

  /** The time until the next timer of a map split into `ready` and `pending`. */
  method DelayUntilNext(ready: TimerMap, pending: TimerMap, now: Instant) returns (delay: Option<nat>)
    requires forall key | key in pending :: now < key.when
    ensures ready != map[] ==> delay == Some(0)
    ensures ready == map[] && pending == map[] ==> delay == None
    ensures ready == map[] && pending != map[] ==>
              delay.Some? && delay.value > 0
              && (exists key :: key in pending && key.when == now + delay.value)
              && (forall key | key in pending :: now + delay.value <= key.when)
  {
    if ready != map[] {
      delay := Some(0);
    } else if pending == map[] {
      delay := None;
    } else {
      SomeFirst(pending);
      var first :| first in pending && forall key | key in pending && key != first :: Less(first, key);
      assert forall key | key in pending :: key == first || Less(first, key);
      delay := Some(first.when - now);
    }
  }

  lemma SomeFirst(m: TimerMap)
    requires m != map[]
    ensures exists first :: IsLeast(first, m.Keys)
  {
    assert m.Keys != {} by { var key :| key in m; }
    var least := LeastExists(m.Keys);
  }

  /** The entry that fires first. */
  ghost function First(m: TimerMap): (first: Key)
    requires m != map[]
    ensures IsLeast(first, m.Keys)
  {
    SomeFirst(m);
    var first :| IsLeast(first, m.Keys);
    first
  }

  /** The keys of a map in the order in which they fire. */
  ghost function InOrder(m: TimerMap): (keys: seq<Key>)
    ensures forall key :: key in keys <==> key in m
    decreases |m.Keys|
  {
    if m == map[] then []
    else
      assert (m - {First(m)}).Keys == m.Keys - {First(m)};
      [First(m)] + InOrder(m - {First(m)})
  }

  lemma AscendingCons(first: Key, keys: seq<Key>)
    requires Ascending(keys) && forall i | 0 <= i < |keys| :: Less(first, keys[i])
    ensures Ascending([first] + keys)
  {
  }

  lemma {:induction false} InOrderLists(m: TimerMap)
    ensures Lists(InOrder(m), m.Keys)
    decreases |m.Keys|
  {
    if m != map[] {
      var rest := m - {First(m)};
      assert rest.Keys == m.Keys - {First(m)};
      InOrderLists(rest);
      assert forall i | 0 <= i < |InOrder(rest)| :: InOrder(rest)[i] in rest;
      AscendingCons(First(m), InOrder(rest));
    }
  }

  lemma {:induction false} WakersAtRestricted(m: TimerMap, n: TimerMap, keys: seq<Key>)
    requires forall key | key in keys :: key in m && key in n && m[key] == n[key]
    ensures WakersAt(m, keys) == WakersAt(n, keys)
  {
    if keys != [] {
      WakersAtRestricted(m, n, keys[1..]);
    }
  }

  /** Removes the entry that fires first and answers its waker. */
  method PopFirst(m: TimerMap) returns (waker: Waker, rest: TimerMap)
    requires m != map[]
    ensures waker == m[First(m)] && rest == m - {First(m)} && |rest| < |m|
    ensures WakersAt(m, InOrder(m)) == [waker] + WakersAt(rest, InOrder(rest))
  {
    assert IsLeast(First(m), m.Keys);
    var first :| first in m && forall key | key in m && key != first :: Less(first, key);
    ghost var least := First(m);
    assert first != least ==> Less(first, least);
    assert least != first ==> Less(least, first);
    waker := m[first];
    rest := m - {first};
    assert rest.Keys == m.Keys - {first};
    WakersAtRestricted(m, rest, InOrder(rest));
    assert InOrder(m)[1..] == InOrder(rest);
  }

  /** Hands the wakers over in the order in which their timers fire. */
  method TakeInOrder(ready: TimerMap, wakers: seq<Waker>) returns (wakers': seq<Waker>)
    ensures Lists(InOrder(ready), ready.Keys)
    ensures wakers' == wakers + WakersAt(ready, InOrder(ready))
  {
    wakers' := wakers;
    var left := ready;
    while left != map[]
      invariant wakers' + WakersAt(left, InOrder(left)) == wakers + WakersAt(ready, InOrder(ready))
      decreases |left|
    {
      ghost var before, rest := wakers', left;
      var waker;
      waker, left := PopFirst(left);
      wakers' := wakers' + [waker];
      assert wakers' + WakersAt(left, InOrder(left)) == before + WakersAt(rest, InOrder(rest));
    }
    InOrderLists(ready);
  }

  /** Splits a map just after `now`: a timer set for exactly `now` is ready. */
  method SplitOff(m: TimerMap, now: Instant) returns (ready: TimerMap, pending: TimerMap)
    ensures ready.Keys == Due(m, now) && pending == m - Due(m, now)
    ensures forall key | key in ready :: ready[key] == m[key]
    ensures forall key | key in pending :: now < key.when
    ensures m == map[] <==> ready == map[] && pending == map[]
    ensures Due(m, now) == {} <==> ready == map[]
    ensures ready == map[] ==> pending == m
  {
    var split := Key(now + 1, 0);
    ready := map key | key in m && Less(key, split) :: m[key];
    pending := map key | key in m && !Less(key, split) :: m[key];
    assert ready.Keys == Due(m, now);
    assert pending.Keys == m.Keys - Due(m, now);
    assert ready.Keys + pending.Keys == m.Keys;
    assert ready == map[] <==> ready.Keys == {};
    assert pending == map[] <==> pending.Keys == {};
    assert m == map[] <==> m.Keys == {};
  }

  /** Whatever arrives while `capacity` operations are popped, those queued first are among them. */
  lemma StartIsApplied(start: seq<TimerOp>, arrived: seq<TimerOp>, applied: seq<TimerOp>,
                       left: seq<TimerOp>, capacity: nat)
    requires |start| <= capacity
    requires applied + left == start + arrived
    requires |applied| == capacity || left == []
    ensures start <= applied
  {
    assert applied == (applied + left)[..|applied|];
    assert start == (start + arrived)[..|start|];
  }
}
