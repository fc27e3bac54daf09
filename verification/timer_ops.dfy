/** The queue of timer operations seen as data: what a sequence of inserts and removes does to the
    ordered map of timers, and why the order of operations of different timers is immaterial. */
module TimerOps {
  import opened Environment

  /** A timer's place in the ordered map. */
  datatype Key = Key(when: Instant, id: nat)

  predicate Less(a: Key, b: Key) {
    a.when < b.when || (a.when == b.when && a.id < b.id)
  }

  type TimerMap = map<Key, Waker>

  datatype TimerOp =
    | Insert(key: Key, waker: Waker)
    | Remove(key: Key)

  function Apply(m: TimerMap, op: TimerOp): TimerMap {
    match op
    case Insert(key, waker) => m[key := waker]
    case Remove(key) => m - {key}
  }

  /** Applies `ops` in first-in first-out order. */
  function Fold(m: TimerMap, ops: seq<TimerOp>): TimerMap
    decreases |ops|
  {
    if ops == [] then m else Fold(Apply(m, ops[0]), ops[1..])
  }

  function Lookup(m: TimerMap, key: Key): Option<Waker> {
    if key in m then Some(m[key]) else None
  }

  lemma {:induction false} FoldConcat(m: TimerMap, first: seq<TimerOp>, second: seq<TimerOp>)
    ensures Fold(m, first + second) == Fold(Fold(m, first), second)
    decreases |first|
  {
    if first == [] {
      assert first + second == second;
    } else {
      assert (first + second)[1..] == first[1..] + second;
      FoldConcat(Apply(m, first[0]), first[1..], second);
    }
  }

  lemma FoldAppend(m: TimerMap, ops: seq<TimerOp>, op: TimerOp)
    ensures Fold(m, ops + [op]) == Apply(Fold(m, ops), op)
  {
    FoldConcat(m, ops, [op]);
    assert Fold(Fold(m, ops), [op]) == Fold(Apply(Fold(m, ops), op), [op][1..]);
  }

  /** What `ops` leave at a key depends on what was there before and on nothing else in the map. */
  lemma {:induction false} FoldIsPointwise(m: TimerMap, n: TimerMap, ops: seq<TimerOp>, key: Key)
    requires Lookup(m, key) == Lookup(n, key)
    ensures Lookup(Fold(m, ops), key) == Lookup(Fold(n, ops), key)
    decreases |ops|
  {
    if ops != [] {
      FoldIsPointwise(Apply(m, ops[0]), Apply(n, ops[0]), ops[1..], key);
    }
  }

  /** A key that survives `ops` was there before or was inserted by one of them. */
  lemma {:induction false} FoldOrigin(m: TimerMap, ops: seq<TimerOp>, key: Key)
    requires key in Fold(m, ops)
    ensures key in m || exists op :: op in ops && op.Insert? && op.key == key
    decreases |ops|
  {
    if ops != [] {
      FoldOrigin(Apply(m, ops[0]), ops[1..], key);
      if key !in Apply(m, ops[0]) {
        var op :| op in ops[1..] && op.Insert? && op.key == key;
        assert op in ops;
      } else if key !in m {
        assert ops[0] in ops;
      }
    }
  }

  // Interleaving independence.

  /** Which timer each id belongs to. Ids are never reused, so this is a function. */
  type Owner = nat -> nat

  /** The operations of one timer, in the order in which they were pushed. */
  function OpsOf(ops: seq<TimerOp>, owner: Owner, timer: nat): seq<TimerOp> {
    if ops == [] then []
    else if owner(ops[0].key.id) == timer then [ops[0]] + OpsOf(ops[1..], owner, timer)
    else OpsOf(ops[1..], owner, timer)
  }

  lemma {:induction false} OnlyOwnOpsMatter(m: TimerMap, ops: seq<TimerOp>, owner: Owner, key: Key)
    ensures Lookup(Fold(m, ops), key)
         == Lookup(Fold(m, OpsOf(ops, owner, owner(key.id))), key)
    decreases |ops|
  {
    if ops != [] {
      var own := OpsOf(ops[1..], owner, owner(key.id));
      OnlyOwnOpsMatter(Apply(m, ops[0]), ops[1..], owner, key);
      if owner(ops[0].key.id) == owner(key.id) {
        assert ([ops[0]] + own)[1..] == own;
      } else {
        FoldIsPointwise(Apply(m, ops[0]), m, own, key);
      }
    }
  }

  /** Two merges of the same operations that keep each timer's own order. */
  ghost predicate SamePerTimer(a: seq<TimerOp>, b: seq<TimerOp>, owner: Owner) {
    forall timer :: OpsOf(a, owner, timer) == OpsOf(b, owner, timer)
  }

  lemma MergesAgree(m: TimerMap, a: seq<TimerOp>, b: seq<TimerOp>, owner: Owner)
    requires SamePerTimer(a, b, owner)
    ensures Fold(m, a) == Fold(m, b)
  {
    forall key: Key
      ensures Lookup(Fold(m, a), key) == Lookup(Fold(m, b), key)
    {
      OnlyOwnOpsMatter(m, a, owner, key);
      OnlyOwnOpsMatter(m, b, owner, key);
    }
    SameLookups(Fold(m, a), Fold(m, b));
  }

  lemma SameLookups(m: TimerMap, n: TimerMap)
    requires forall key: Key :: Lookup(m, key) == Lookup(n, key)
    ensures m == n
  {
    forall key: Key
      ensures key in m <==> key in n
      ensures key in m ==> m[key] == n[key]
    {
      assert Lookup(m, key) == Lookup(n, key);
    }
  }

  // Drains at arbitrary points.

  /** The lazy store: the ordered map and the operations that still wait in the queue. */
  datatype Lazy = Lazy(timers: TimerMap, queue: seq<TimerOp>) {
    /** The map that the rest of the program may rely on. */
    function Effective(): TimerMap {
      Fold(timers, queue)
    }
  }

  /** One turn of a schedule: some thread pushes an operation, or a drain pops one. */
  datatype Turn = Push(op: TimerOp) | Pop

  function After(s: Lazy, e: Turn): Lazy {
    match e
    case Push(op) => s.(queue := s.queue + [op])
    case Pop => if s.queue == [] then s else Lazy(Apply(s.timers, s.queue[0]), s.queue[1..])
  }

  function Play(s: Lazy, schedule: seq<Turn>): Lazy
    decreases |schedule|
  {
    if schedule == [] then s else Play(After(s, schedule[0]), schedule[1..])
  }

  function Pushed(schedule: seq<Turn>): seq<TimerOp> {
    if schedule == [] then []
    else (if schedule[0].Push? then [schedule[0].op] else []) + Pushed(schedule[1..])
  }

  /** Wherever the drains fall, the effective map is the fold of what was pushed. */
  lemma {:induction false} DrainsAreInvisible(s: Lazy, schedule: seq<Turn>)
    ensures Play(s, schedule).Effective() == Fold(s.Effective(), Pushed(schedule))
    decreases |schedule|
  {
    if schedule != [] {
      DrainsAreInvisible(After(s, schedule[0]), schedule[1..]);
      match schedule[0]
      case Push(op) =>
        FoldAppend(s.timers, s.queue, op);
        FoldConcat(s.Effective(), [op], Pushed(schedule[1..]));
        assert [op][1..] == [];
      case Pop =>
        assert [] + Pushed(schedule[1..]) == Pushed(schedule[1..]);
    }
  }

  /** Any two schedules that push the same operations in each timer's own order, however they
      interleave the timers and wherever they drain, end with the same effective map. */
  lemma InterleavingIndependence(s: Lazy, a: seq<Turn>, b: seq<Turn>, owner: Owner)
    requires SamePerTimer(Pushed(a), Pushed(b), owner)
    ensures Play(s, a).Effective() == Play(s, b).Effective()
  {
    DrainsAreInvisible(s, a);
    DrainsAreInvisible(s, b);
    MergesAgree(s.Effective(), Pushed(a), Pushed(b), owner);
  }

  // The order in which ready timers are taken out of the map.

  predicate Ascending(keys: seq<Key>) {
    forall i, j | 0 <= i < j < |keys| :: Less(keys[i], keys[j])
  }

  /** `keys` lists exactly the members of `s`, each once, in the order in which they fire. */
  ghost predicate Lists(keys: seq<Key>, s: set<Key>) {
    Ascending(keys) && forall key :: key in keys <==> key in s
  }

  ghost predicate IsLeast(key: Key, s: set<Key>) {
    key in s && forall other | other in s && other != key :: Less(key, other)
  }

  lemma {:induction false} LeastExists(s: set<Key>) returns (least: Key)
    requires s != {}
    ensures IsLeast(least, s)
    decreases |s|
  {
    var some :| some in s;
    var others := s - {some};
    if others == {} {
      assert s == {some};
      least := some;
    } else {
      var rest := LeastExists(others);
      assert rest in s && rest != some;
      least := if Less(some, rest) then some else rest;
      assert forall other | other in s :: other == some || other in others;
    }
  }

  /** In the order of firing an earlier instant comes first, and among equal instants the smaller id,
      which is the one that was registered first. */
  lemma FiringOrder(keys: seq<Key>, s: set<Key>, a: Key, b: Key) returns (i: nat, j: nat)
    requires Lists(keys, s) && a in s && b in s
    requires a.when < b.when || (a.when == b.when && a.id < b.id)
    ensures i < j < |keys| && keys[i] == a && keys[j] == b
  {
    i :| i < |keys| && keys[i] == a;
    j :| j < |keys| && keys[j] == b;
    assert !Less(b, a);
  }

  /** A set of keys has only one ascending listing. */
  lemma {:induction false} ListingIsUnique(a: seq<Key>, b: seq<Key>, s: set<Key>)
    requires Lists(a, s) && Lists(b, s)
    ensures a == b
    decreases |a|
  {
    assert forall i | 0 <= i < |a| :: a[i] in b;
    assert forall i | 0 <= i < |b| :: b[i] in a;
    if a != [] && b != [] {
      assert a[0] == b[0] by {
        var i :| 0 <= i < |b| && b[i] == a[0];
        var j :| 0 <= j < |a| && a[j] == b[0];
      }
      ListsTail(a, s);
      ListsTail(b, s);
      ListingIsUnique(a[1..], b[1..], s - {a[0]});
      assert a == [a[0]] + a[1..] && b == [b[0]] + b[1..];
    }
  }

  lemma ListsTail(keys: seq<Key>, s: set<Key>)
    requires Lists(keys, s) && keys != []
    ensures Lists(keys[1..], s - {keys[0]})
  {
    forall key | key in keys[1..]
      ensures key in s - {keys[0]}
    {
      var i :| 0 <= i < |keys[1..]| && keys[1..][i] == key;
      assert Less(keys[0], keys[i + 1]);
      assert key in keys;
    }
    assert keys == [keys[0]] + keys[1..];
  }

  function WakersAt(m: TimerMap, keys: seq<Key>): (wakers: seq<Waker>)
    requires forall key | key in keys :: key in m
    ensures |wakers| == |keys|
    ensures forall i | 0 <= i < |keys| :: wakers[i] == m[keys[i]]
  {
    if keys == [] then [] else [m[keys[0]]] + WakersAt(m, keys[1..])
  }

  /** The keys of timers that fire at `now` or earlier. */
  function Due(m: TimerMap, now: Instant): set<Key> {
    set key | key in m && key.when <= now
  }
}
