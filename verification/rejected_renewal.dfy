/** A concrete run in which the poller rejects the renewal of one source's interest. Its waiter is left
    without any cover, and so is the waiter of another source whose event had already been fetched. */
module RejectedRenewal {
  import opened Environment
  import D = Directions
  import opened IoSystem
  import opened IoRuns

  const EVENTS := [Event(1, 1, false, true), Event(2, 2, true, false)]

  function Before(): State {
    World(map[1 := Waiting(1), 2 := Waiting(2)], map[1 := READS, 2 := READS], 0, Idle)
  }

  function Fetching(): State {
    World(map[1 := Waiting(1), 2 := Waiting(2)], map[1 := READS, 2 := READS], 1, Bumped)
  }

  function Handling(): State {
    World(map[1 := Waiting(1), 2 := Waiting(2)], map[1 := D.NOTHING, 2 := D.NOTHING], 1, Delivering(EVENTS))
  }

  lemma FetchBoth()
    ensures Enabled(Before(), Bump) && Next(Before(), Bump) == Fetching()
    ensures Enabled(Fetching(), Fetch(EVENTS))
    ensures Enabled(Next(Fetching(), Fetch(EVENTS)), LockSources)
    ensures Next(Next(Fetching(), Fetch(EVENTS)), LockSources) == Handling()
  {
    assert Fetchable(Fetching(), EVENTS[0]) && Fetchable(Fetching(), EVENTS[1]);
    FetchDisarmsBoth();
  }

  lemma FetchDisarmsBoth()
    requires Enabled(Fetching(), Fetch(EVENTS))
    ensures Next(Fetching(), Fetch(EVENTS)).interest == Handling().interest
  {
    assert EVENTS[0].origin == 1 && EVENTS[1].origin == 2;
  }

  /** The source keeps its reader's waker, its interest is disarmed, and no event is on its way. */
  ghost predicate Stranded(s: State, x: nat) {
    && x in s.slab && s.slab[x] == x && x in s.interest && s.interest[x] == D.NOTHING
    && Waits(s, x, D.Read) && !Attended(s, x, D.Read)
  }

  lemma Reject()
    ensures Enabled(Handling(), Deliver(false))
    ensures Stranded(Next(Handling(), Deliver(false)), 1) && Stranded(Next(Handling(), Deliver(false)), 2)
  {
    var s := Handling();
    assert s.phase.events[0] == EVENTS[0] && s.slab[1] == 1;
    assert !Waiting(1).pair.read.Empty();
    var src := Delivered(s.sources[1], 1, 0, EVENTS[0]);
    assert src.pair.read == Waiting(1).pair.read;
    assert src.pair.Wanted() != D.NOTHING;
  }

  /** There is a run that strands two waiters: without the assumption that every `modify` succeeds,
      coverage fails. From here `IoSystem.StrandedForGood` applies to both. */
  lemma RejectedRenewalStrandsAWaiter() returns (run: seq<State>, steps: seq<Action>)
    ensures Behavior(run, steps)
    ensures Stranded(run[|steps|], 1) && Stranded(run[|steps|], 2)
  {
    var s := World(map[], map[], 0, Idle);
    assert s.slab == map[];
    run, steps := [s], [];
    run, steps := AddOne(run, steps, 1);
    run, steps := AddOne(run, steps, 2);
    run, steps := PollOne(run, steps, 1);
    run, steps := PollOne(run, steps, 2);
    assert run[|steps|].sources == Before().sources && run[|steps|].interest == Before().interest;
    run, steps := ThenRejected(run, steps);
  }

  lemma ThenRejected(run: seq<State>, steps: seq<Action>) returns (run': seq<State>, steps': seq<Action>)
    requires Behavior(run, steps) && run[|steps|] == Before()
    ensures Behavior(run', steps')
    ensures Stranded(run'[|steps'|], 1) && Stranded(run'[|steps'|], 2)
  {
    FetchBoth();
    run', steps' := Extend(run, steps, Bump);
    run', steps' := Extend(run', steps', Fetch(EVENTS));
    run', steps' := Extend(run', steps', LockSources);
    Reject();
    run', steps' := Extend(run', steps', Deliver(false));
  }
}
