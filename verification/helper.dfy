/** The main loop of the "async-io" helper thread with its backoff. */
module Helper {

  /** What the loop carries from one turn to the next. */
  datatype State = State(lastTick: nat, sleeps: nat)

  /** What one turn of the loop sees: the ticker it reads, whether `try_lock` would succeed, the
      ticker after `react`, whether `block_on` calls are active, whether the park is cut short by an
      unpark, and the ticker read after that. */
  datatype Turn = Turn(tick: nat, free: bool, reacted: nat, callers: bool, notified: bool, parked: nat)

  /** The pauses in microseconds; every later one takes ten milliseconds. */
  const DELAYS: seq<nat> := [50, 75, 100, 250, 500, 750, 1000, 2500, 5000]

  function Delay(sleeps: nat): nat {
    if sleeps < |DELAYS| then DELAYS[sleeps] else 10_000
  }

  /** The turn goes for the reactor: it blocks on the lock after ten sleeps, or `try_lock` succeeds. */
  predicate Reacts(s: State, t: Turn) {
    s.lastTick == t.tick && (s.sleeps >= 10 || t.free)
  }

  function AfterTurn(s: State, t: Turn): State {
    var mid := if Reacts(s, t) then State(t.reacted, 0) else s.(lastTick := t.tick);
    if !t.callers then mid
    else if t.notified then State(t.parked, 0)
    else mid.(sleeps := mid.sleeps + 1)
  }

  type Env = nat -> Turn

  /** The state before the n-th turn. */
  function Before(s: State, env: Env, n: nat): State {
    if n == 0 then s else AfterTurn(Before(s, env, n - 1), env(n - 1))
  }

  /** The time parked in the first `n` turns, if nobody unparks the thread. */
  function Parked(s: State, env: Env, n: nat): nat {
    if n == 0 then 0 else Parked(s, env, n - 1) + Delay(Before(s, env, n - 1).sleeps)
  }

  /** None of the first `n` turns goes for the reactor. */
  predicate NoReaction(s: State, env: Env, n: nat) {
    n == 0 || (NoReaction(s, env, n - 1) && !Reacts(Before(s, env, n - 1), env(n - 1)))
  }

  /** The n-th turn is the first that goes for the reactor. */
  predicate FirstReaction(s: State, env: Env, n: nat) {
    NoReaction(s, env, n) && Reacts(Before(s, env, n), env(n))
  }

  /** `block_on` calls are active, nobody unparks the helper and the ticker does not move. */
  ghost predicate Quiet(env: Env, tick: nat) {
    forall n: nat :: env(n).tick == tick && env(n).callers && !env(n).notified
  }

  class MainLoop {
    var lastTick: nat
    var sleeps: nat

    function View(): State
      reads this
    {
      State(lastTick, sleeps)
    }

    constructor ()
      ensures View() == State(0, 0)
    {
      lastTick, sleeps := 0, 0;
    }

    /** One turn of the loop. `parked` is how long it would park; a park ends early when notified. */
    method OneTurn(t: Turn) returns (reacts: bool, parked: nat)
      modifies this
      ensures View() == AfterTurn(old(View()), t)
      ensures reacts == Reacts(old(View()), t)
      ensures t.callers ==> parked == Delay(if reacts then 0 else old(sleeps))
      ensures !t.callers ==> parked == 0
    {
      reacts, parked := false, 0;
      if lastTick == t.tick {
        if sleeps >= 10 {
          // Ten sleeps without a round: whoever holds the lock is waited for.
          reacts := true;
        } else {
          reacts := t.free;
        }
        if reacts {
          lastTick, sleeps := t.reacted, 0;
        }
      } else {
        lastTick := t.tick;
      }
      if t.callers {
        parked := Delay(sleeps);
        if t.notified {
          lastTick, sleeps := t.parked, 0;
        } else {
          sleeps := sleeps + 1;
        }
      }
    }

    /** Runs the loop up to the turn that goes for the reactor. In a quiet world that is one of the
        first eleven, after at most 20,225 microseconds of parking. */
    method RunToReaction(env: Env, ghost tick: nat) returns (turns: nat, parked: nat)
      requires Quiet(env, tick)
      modifies this
      ensures turns <= 11 && parked <= 20_225
      ensures turns > 0 && FirstReaction(old(View()), env, turns - 1) && parked == Parked(old(View()), env, turns - 1)
      ensures View() == Before(old(View()), env, turns)
    {
      ghost var start := View();
      ReactsWithinEleven(start, env, tick);
      ghost var n: nat :| n <= 10 && FirstReaction(start, env, n);
      turns, parked := 0, 0;
      var reacts := false;
      while !reacts
        invariant turns <= n + 1 && (reacts <==> turns == n + 1)
        invariant View() == Before(start, env, turns)
        invariant parked == Parked(start, env, if reacts then n else turns)
        decreases n + 1 - turns
      {
        var delay;
        EarlierTurnsDoNot(start, env, n, turns);
        reacts, delay := OneTurn(env(turns));
        if !reacts {
          parked := parked + delay;
        }
        turns := turns + 1;
      }
      ParkedIsBounded(start, env, tick, n);
    }
  }

  /** The parking that is left from `sleeps` on until ten sleeps are reached. */
  function Rest(sleeps: nat): nat
    decreases 10 - sleeps
  {
    if sleeps >= 10 then 0 else Delay(sleeps) + Rest(sleeps + 1)
  }

  lemma RestIsBounded(sleeps: nat)
    ensures Rest(sleeps) <= 20_225
  {
    if sleeps < 10 {
      RestShrinks(0, sleeps);
      RestInFull();
    }
  }

  lemma {:induction false} RestShrinks(a: nat, b: nat)
    requires a <= b
    ensures Rest(b) <= Rest(a)
    decreases b - a
  {
    if a < b {
      RestShrinks(a + 1, b);
    }
  }

  lemma {:induction false} EarlierTurnsDoNot(s: State, env: Env, n: nat, m: nat)
    requires FirstReaction(s, env, n) && m <= n
    ensures NoReaction(s, env, m) && (Reacts(Before(s, env, m), env(m)) <==> m == n)
    decreases n - m
  {
    if m < n {
      EarlierTurnsDoNot(s, env, n, m + 1);
    }
  }

  /** Turns that do not react only count sleeps. */
  lemma {:induction false} SleepsCount(s: State, env: Env, tick: nat, n: nat)
    requires Quiet(env, tick) && NoReaction(s, env, n)
    ensures Before(s, env, n).sleeps == s.sleeps + n
    ensures n > 0 || s.lastTick == tick ==> Before(s, env, n).lastTick == tick
  {
    if n > 0 {
      SleepsCount(s, env, tick, n - 1);
    }
  }

  /** The turn by which the helper goes for the reactor at the latest. */
  function Latest(s: State, tick: nat): nat {
    if s.sleeps < 10 then 10 - s.sleeps else if s.lastTick == tick then 0 else 1
  }

  /** The first reaction among turns that do not reach beyond the latest one. */
  lemma {:induction false} ReactsByLatest(s: State, env: Env, tick: nat, n: nat) returns (first: nat)
    requires Quiet(env, tick) && NoReaction(s, env, n) && n <= Latest(s, tick)
    ensures first <= Latest(s, tick) && FirstReaction(s, env, first)
    decreases Latest(s, tick) - n
  {
    if Reacts(Before(s, env, n), env(n)) {
      first := n;
    } else {
      SleepsCount(s, env, tick, n);
      assert n < Latest(s, tick);
      first := ReactsByLatest(s, env, tick, n + 1);
    }
  }

  /** From any state, one of the first eleven turns goes for the reactor. */
  lemma ReactsWithinEleven(s: State, env: Env, tick: nat)
    requires Quiet(env, tick)
    ensures exists n: nat :: n <= 10 && FirstReaction(s, env, n)
  {
    var n := ReactsByLatest(s, env, tick, 0);
  }

  /** And until then the helper parks for at most 20,225 microseconds. */
  lemma ParkedIsBounded(s: State, env: Env, tick: nat, n: nat)
    requires Quiet(env, tick) && FirstReaction(s, env, n)
    ensures n <= Latest(s, tick) && Parked(s, env, n) <= 20_225
  {
    var m := ReactsByLatest(s, env, tick, 0);
    if m < n {
      EarlierTurnsDoNot(s, env, n, m);
    } else if n < m {
      EarlierTurnsDoNot(s, env, m, n);
    }
    if s.sleeps < 10 {
      ParkedPlusRest(s, env, tick, n);
      RestIsBounded(s.sleeps);
    } else if n == 1 {
      assert Parked(s, env, 1) == Delay(Before(s, env, 0).sleeps) + Parked(s, env, 0);
    }
  }

  lemma {:induction false} ParkedPlusRest(s: State, env: Env, tick: nat, n: nat)
    requires Quiet(env, tick) && s.sleeps + n <= 10 && NoReaction(s, env, n)
    ensures Parked(s, env, n) + Rest(s.sleeps + n) == Rest(s.sleeps)
  {
    if n > 0 {
      var m := n - 1;
      ParkedPlusRest(s, env, tick, m);
      SleepsCount(s, env, tick, m);
      ParkedStep(s, env, m);
      RestStep(s.sleeps + m);
    }
  }

  lemma ParkedStep(s: State, env: Env, n: nat)
    ensures Parked(s, env, n + 1) == Parked(s, env, n) + Delay(Before(s, env, n).sleeps)
  {
  }

  lemma RestStep(sleeps: nat)
    requires sleeps < 10
    ensures Rest(sleeps) == Delay(sleeps) + Rest(sleeps + 1)
  {
  }

  /** The bounds are tight: a helper that has just reacted, while others keep the lock, blocks on it in
      the eleventh turn after parking for exactly 20,225 microseconds. */
  lemma BoundsAreTight(s: State, env: Env, tick: nat)
    requires Quiet(env, tick) && s.sleeps == 0 && forall n: nat :: !env(n).free
    ensures FirstReaction(s, env, 10) && Parked(s, env, 10) == 20_225
  {
    var n := ReactsByLatest(s, env, tick, 0);
    SleepsCount(s, env, tick, n);
    assert n == 10;
    ParkedPlusRest(s, env, tick, 10);
    RestInFull();
  }

  /** The ten pauses of a helper that nobody disturbs after it has served the reactor, in microseconds. */
  lemma PausesGrow(s: State, env: Env, tick: nat, n: nat)
    requires Quiet(env, tick) && s.sleeps == 0 && NoReaction(s, env, n) && n < 10
    ensures Parked(s, env, n + 1) - Parked(s, env, n)
         == [50, 75, 100, 250, 500, 750, 1_000, 2_500, 5_000, 10_000][n]
  {
    SleepsCount(s, env, tick, n);
    ParkedStep(s, env, n);
  }

  /** The ticker as the helper last saw it in a turn. */
  function LastSeen(s: State, t: Turn): nat {
    if t.callers && t.notified then t.parked else if Reacts(s, t) then t.reacted else t.tick
  }

  /** What the turn `u` after the turn `t` does. It goes for the reactor only if the ticker has not moved
      since the helper last saw it, that is, if nobody else has served the reactor meanwhile. After a
      notification, or after it has served the reactor, the helper starts over: it only tries the lock,
      and its next pause is the first, or the second if it has already paused once. */
  lemma NextTurn(s: State, t: Turn, u: Turn)
    ensures Reacts(AfterTurn(s, t), u) ==> u.tick == LastSeen(s, t)
    ensures t.callers && t.notified ==>
              && (Reacts(AfterTurn(s, t), u) <==> u.tick == t.parked && u.free)
              && Delay(AfterTurn(s, t).sleeps) == 50
    ensures Reacts(s, t) && !(t.callers && t.notified) ==>
              && (Reacts(AfterTurn(s, t), u) <==> u.tick == t.reacted && u.free)
              && Delay(AfterTurn(s, t).sleeps) == (if t.callers then 75 else 50)
    ensures !Reacts(s, t) && !(t.callers && t.notified) ==>
              (Reacts(AfterTurn(s, t), u) <==>
                 u.tick == t.tick && (u.free || s.sleeps + (if t.callers then 1 else 0) >= 10))
  {
  }

  lemma RestInFull()
    ensures Rest(0) == 20_225
  {
    assert Rest(9) == 10_000 && Rest(8) == 15_000 && Rest(7) == 17_500 && Rest(6) == 18_500;
    assert Rest(5) == 19_250 && Rest(4) == 19_750 && Rest(3) == 20_000;
    assert Rest(2) == 20_100 && Rest(1) == 20_175;
  }
}
