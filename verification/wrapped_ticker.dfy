/** A concrete run in which exactly as many rounds pass as the ticker's word has values, and the event
    that then arrives is taken for an old one, whatever the width of the word. */
module WrappedTicker {
  import opened Environment
  import D = Directions
  import opened IoSystem
  import opened IoRuns

  const SOURCES := map[1 := Waiting(1)]
  const ARMED := map[1 := READS]
  const EVENTS := [Event(1, 1, true, false)]

  function After(round: nat): State {
    World(SOURCES, ARMED, round, Idle)
  }

  lemma NobodyFetched(s: State)
    requires s == World(SOURCES, ARMED, s.round, Bumped)
    ensures Enabled(s, Fetch([])) && Next(s, Fetch([])) == World(SOURCES, ARMED, s.round, Fetched([]))
  {
    assert Next(s, Fetch([])).interest == ARMED;
  }

  /** Rounds without events change nothing but the ticker. */
  lemma {:induction false} QuietRounds(run: seq<State>, steps: seq<Action>, n: nat)
    returns (run': seq<State>, steps': seq<Action>)
    requires Behavior(run, steps) && run[|steps|] == After(0)
    ensures Behavior(run', steps') && run'[|steps'|] == After(n)
    decreases n
  {
    if n == 0 {
      run', steps' := run, steps;
    } else {
      run', steps' := QuietRounds(run, steps, n - 1);
      run', steps' := Extend(run', steps', Bump);
      NobodyFetched(run'[|steps'|]);
      run', steps' := Extend(run', steps', Fetch([]));
      run', steps' := Extend(run', steps', LockSources);
      run', steps' := Extend(run', steps', Finish);
    }
  }

  lemma Fetching(s: State)
    requires s == World(SOURCES, ARMED, WORDS, Bumped)
    ensures Enabled(s, Fetch(EVENTS)) && Enabled(Next(s, Fetch(EVENTS)), LockSources)
    ensures Next(Next(s, Fetch(EVENTS)), LockSources) == World(SOURCES, map[1 := D.NOTHING], WORDS, Delivering(EVENTS))
  {
    assert Fetchable(s, EVENTS[0]) && EVENTS[0].origin == 1;
    assert Next(s, Fetch(EVENTS)).interest == map[1 := D.NOTHING];
  }

  /** The event has been delivered in a round after the poll, and yet no poll answers ready. */
  ghost predicate Overlooked(s: State) {
    && 1 in s.sources && s.round == WORDS
    && s.sources[1].At(D.Read).now == 0 && s.sources[1].pair.At(D.Read).ticks.Some?
    && DeliveredAfter(s, 1, D.Read, s.sources[1].At(D.Read).now)
    && forall waker :: !D.PollSlot(s.sources[1].pair.At(D.Read), waker, Word(s.round)).ready
  }

  lemma DeliveredLate(s: State)
    requires s == World(SOURCES, map[1 := D.NOTHING], WORDS, Delivering(EVENTS))
    ensures Enabled(s, Deliver(true)) && Overlooked(Next(s, Deliver(true)))
  {
    var s' := Next(s, Deliver(true));
    assert s'.log[0] == Delivery(1, D.Read, WORDS, 1);
    assert s'.sources[1].pair.read.tick == Word(WORDS) == 0;
  }

  /** There is a run in which the check overlooks a fresh delivery: the bound on the rounds in
      `IoSystem.SlotReadyIffFreshDelivery` cannot be dropped. */
  lemma FullWrapIsOverlooked() returns (run: seq<State>, steps: seq<Action>)
    ensures Behavior(run, steps) && Overlooked(run[|steps|])
  {
    var s := World(map[], map[], 0, Idle);
    assert s.slab == map[];
    run, steps := [s], [];
    run, steps := AddOne(run, steps, 1);
    run, steps := PollOne(run, steps, 1);
    assert run[|steps|].sources == SOURCES && run[|steps|].interest == ARMED;
    run, steps := QuietRounds(run, steps, WORDS - 1);
    run, steps := Extend(run, steps, Bump);
    Fetching(run[|steps|]);
    run, steps := Extend(run, steps, Fetch(EVENTS));
    run, steps := Extend(run, steps, LockSources);
    DeliveredLate(run[|steps|]);
    run, steps := Extend(run, steps, Deliver(true));
  }
}
