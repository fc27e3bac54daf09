/** A concrete call of `react` that loses wakers: a timer has fired and a reader has been drained when
    the poller rejects the renewal that a writer of the same source needs. */
module LostWakers {
  import opened Environment
  import opened TimerOps
  import opened TimerStore
  import opened Directions
  import opened IoReactor

  const READER: Waker := 5
  const WRITER: Waker := 6
  const SLEEPER: Waker := 9

  function Polled(waker: Waker): Dir {
    Dir(0, Some((0, 0)), Some(waker), [])
  }

  /** The one source, before and after its reader is drained by round 1. */
  const WAITING := Entry(3, Pair(Polled(READER), Polled(WRITER)))
  const DRAINED := Entry(3, Pair(Polled(READER).(tick := 1, waker := None), Polled(WRITER)))

  /** After the first pass of `react`, which has taken out the timer of `SLEEPER`. */
  const BEFORE := World(map[], [Occupied(WAITING)], map[3 := Interest(true, true)])
  const AFTER := World(map[], [Occupied(DRAINED)], map[3 := NOTHING])

  const EVENTS := [Event(0, 3, true, false)]

  /** The timer fires in the first pass, at the origin of the clock. */
  const FIRED := Key(0, 1)
  const TIMERS := map[FIRED := SLEEPER]

  lemma OneEntry(e: Entry, w: Waker)
    ensures StoredCopies([Occupied(e)], w) == multiset(Drained(e.pair.read))[w] + multiset(Drained(e.pair.write))[w]
  {
    var table := [Occupied(e)];
    var counts := seq(|table|, i requires 0 <= i < |table| => CopiesIn(table[i], w));
    assert counts == [CopiesIn(Occupied(e), w)];
    assert Sum(counts) == Sum(counts[..0]) + counts[0] && counts[..0] == [];
  }

  lemma PolledCopies(waker: Waker)
    ensures Drained(Polled(waker)) == [waker]
  {
  }

  lemma HandledOnce(oks: nat -> bool)
    requires !oks(0)
    ensures HandleFirst(Progress(BEFORE.table, AFTER.interest, [SLEEPER], false), EVENTS, 1, 1, oks)
         == Progress(AFTER.table, AFTER.interest, [SLEEPER, READER], true)
  {
    var p := Progress(BEFORE.table, AFTER.interest, [SLEEPER], false);
    HandleNext(p, EVENTS, 0, 1, oks);
    PolledCopies(READER);
    var pair := OnEvent(WAITING.pair, EVENTS[0], 1);
    assert Taken([]) == [];
    assert pair == DRAINED.pair && pair.Wanted() == Interest(false, true);
    assert WokenBy(WAITING.pair, EVENTS[0]) == [READER];
  }

  lemma FirstPass()
    ensures Lists([FIRED], Due(TIMERS, 0)) && WakersAt(TIMERS, [FIRED]) == [SLEEPER]
    ensures TIMERS - Due(TIMERS, 0) == BEFORE.effective
    ensures IsDelay(TIMERS, 0, Some(0)) && MinTimeout(Some(0), None) == Some(0)
  {
    assert FIRED in TIMERS;
    assert Due(TIMERS, 0) == {FIRED};
  }

  /** What `react` promises of a call, and then the timer's waker and the reader's are neither woken
      nor stored anywhere afterwards. The writer's stays, with its interest disarmed. */
  lemma RejectedRenewalLosesWakers(oks: nat -> bool)
    requires !oks(0)
    ensures Lists([FIRED], Due(TIMERS, 0)) && IsDelay(TIMERS, 0, Some(0))
    ensures Finished(BEFORE.(effective := TIMERS - Due(TIMERS, 0)), AFTER, WakersAt(TIMERS, [FIRED]),
                     MinTimeout(Some(0), None), Events(EVENTS), 0, 1, oks, [], [], true)
    ensures StoredCopies(BEFORE.table, READER) == 1 && StoredCopies(AFTER.table, READER) == 0
    ensures StoredCopies(BEFORE.table, WRITER) == 1 && StoredCopies(AFTER.table, WRITER) == 1
    ensures TIMERS[FIRED] == SLEEPER && StoredCopies(AFTER.table, SLEEPER) == 0 && AFTER.effective == map[]
    ensures AFTER.interest[WAITING.raw] == NOTHING
  {
    FirstPass();
    DisarmsTheSource();
    HandledOnce(oks);
    PolledCopies(READER);
    PolledCopies(WRITER);
    assert Drained(DRAINED.pair.read) == [];
    OneEntry(WAITING, READER);
    OneEntry(WAITING, WRITER);
    OneEntry(DRAINED, READER);
    OneEntry(DRAINED, WRITER);
    OneEntry(DRAINED, SLEEPER);
  }

  lemma DisarmsTheSource()
    ensures Disarm(BEFORE.interest, EVENTS) == AFTER.interest
  {
    assert EVENTS[0] in EVENTS && EVENTS[0].raw == 3;
  }
}
