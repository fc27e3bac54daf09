/** The first steps that the concrete runs of `IoSystem` share: sources are registered and a task polls
    their read slots. */
module IoRuns {
  import opened Environment
  import D = Directions
  import opened IoSystem

  const READS := D.Interest(true, false)

  function Registered(key: nat): Source {
    Source(key, Live, 0, D.Pair(D.FRESH_DIR, D.FRESH_DIR), NEVER, NEVER, 0)
  }

  /** A source whose read slot holds a waker. */
  function Waiting(key: nat): Source {
    Source(key, Live, 0, D.Pair(D.Dir(0, Some((0, 0)), Some(7), []), D.FRESH_DIR), NEVER, NEVER, 0)
  }

  function World(sources: map<nat, Source>, interest: map<nat, D.Interest>, round: nat, phase: Phase): State {
    State(sources, map key | key in sources :: key, interest, map[], {}, {}, round, phase, [])
  }

  lemma Adding(s: State, x: nat)
    requires s == World(s.sources, s.interest, 0, Idle) && x !in s.sources && x !in s.interest
    ensures Enabled(s, Insert(x, x)) && Enabled(Next(s, Insert(x, x)), AddOk(x))
    ensures Next(Next(s, Insert(x, x)), AddOk(x))
         == World(s.sources[x := Registered(x)], s.interest[x := D.NOTHING], 0, Idle)
  {
    var t := Next(Next(s, Insert(x, x)), AddOk(x));
    var u := World(s.sources[x := Registered(x)], s.interest[x := D.NOTHING], 0, Idle);
    assert t.sources == u.sources && t.slab == u.slab;
  }

  lemma Polling(s: State, x: nat)
    requires s == World(s.sources, s.interest, 0, Idle)
    requires x in s.sources && x in s.interest && s.sources[x] == Registered(x)
    ensures Enabled(s, PollSlot(x, D.Read, 7)) && Enabled(Next(s, PollSlot(x, D.Read, 7)), Modify(x, true))
    ensures Next(Next(s, PollSlot(x, D.Read, 7)), Modify(x, true))
         == World(s.sources[x := Waiting(x)], s.interest[x := READS], 0, Idle)
  {
    var polled := Next(s, PollSlot(x, D.Read, 7));
    assert polled.sources[x] == Waiting(x) && polled.arming == {x};
    var t := Next(polled, Modify(x, true));
    var u := World(s.sources[x := Waiting(x)], s.interest[x := READS], 0, Idle);
    assert Waiting(x).pair.Wanted() == READS;
    assert t.sources == u.sources && t.slab == u.slab && t.arming == {} && t.uncovered == {};
  }

  lemma AddOne(run: seq<State>, steps: seq<Action>, x: nat) returns (run': seq<State>, steps': seq<Action>)
    requires Behavior(run, steps)
    requires var s := run[|steps|]; s == World(s.sources, s.interest, 0, Idle) && x !in s.sources && x !in s.interest
    ensures Behavior(run', steps')
    ensures var s := run[|steps|];
            run'[|steps'|] == World(s.sources[x := Registered(x)], s.interest[x := D.NOTHING], 0, Idle)
  {
    Adding(run[|steps|], x);
    run', steps' := Extend(run, steps, Insert(x, x));
    run', steps' := Extend(run', steps', AddOk(x));
  }

  lemma PollOne(run: seq<State>, steps: seq<Action>, x: nat) returns (run': seq<State>, steps': seq<Action>)
    requires Behavior(run, steps)
    requires var s := run[|steps|];
             s == World(s.sources, s.interest, 0, Idle) && x in s.sources && x in s.interest && s.sources[x] == Registered(x)
    ensures Behavior(run', steps')
    ensures var s := run[|steps|];
            run'[|steps'|] == World(s.sources[x := Waiting(x)], s.interest[x := READS], 0, Idle)
  {
    Polling(run[|steps|], x);
    run', steps' := Extend(run, steps, PollSlot(x, D.Read, 7));
    run', steps' := Extend(run', steps', Modify(x, true));
  }
}
