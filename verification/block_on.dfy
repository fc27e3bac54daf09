/** `block_on`, its waker and the helper thread as an interleaved system of any number of threads.

    Every atomic access is a step of its own. A thread outside `block_on` stands for any thread that
    may wake others; the helper thread runs `react` with its polling flag always unset. A nested
    `block_on` counts as another thread, because it has its own parker and runs only while the outer
    call polls its future, when the polling flag is unset. */
module BlockOnSystem {
  import opened Environment

  /** What remains to be done once the guard has cleared its flags. The quick pass, which only takes
      what is available, never sets the blocked flag. */
  datatype Exit = Again | Leave | Hogged | Quick

  datatype Place =
    | Outside
    | PollFuture
    | ResetToken
    | Check1
    | TryLockQuick | SetPollingQuick | WaitQuick | WakeQuick
    | TryLock
    | SetPolling | SetBlocked | Check2 | Process | Wait | WakeAll | Check3 | Elapsed
    | DropLock | UnparkHelper | ParkHog
    | ClearPolling(exit: Exit) | ClearBlocked(exit: Exit)
    | Unlock
    | Park
    | HelperIdle | HelperWait | HelperWake | HelperUnlock

  /** Inside `wake_by_ref`, after `unpark` has answered true. */
  datatype Waking = NotWaking | LooksPolling(target: nat) | LooksBlocked(target: nat) | Notifies(target: nat)

  /** The last four fields count, for the current call, the polls of the future, the tokens consumed,
      the unparks that newly set the token and the token found at the start; `finished` tells that
      the future has answered ready, and `setter` is the thread that last set the token. */
  datatype Thread = Thread(
    place: Place,
    token: bool,
    blocked: bool,
    polling: bool,
    waking: Waking,
    setter: nat,
    finished: bool,
    polls: nat,
    consumed: nat,
    unparks: nat,
    initial: nat)

  datatype State = State(threads: map<nat, Thread>, lock: Option<nat>, notified: bool)

  datatype Action =
    | Call(thread: nat)
    | Answer(thread: nat, ready: bool)
    | Unpark(thread: nat, target: nat)
    | LookPolling(thread: nat)
    | LookBlocked(thread: nat)
    | Notify(thread: nat)
    | Step(thread: nat, choice: bool)
    | NotifyElsewhere

  /** Where other tasks can be woken: anywhere outside, while a future runs, and in the wake loop. */
  predicate MayWake(p: Place) {
    p.Outside? || p.PollFuture? || p.WakeQuick? || p.WakeAll? || p.HelperWake?
  }

  predicate Enabled(s: State, a: Action) {
    match a
    case Call(t) => t in s.threads && s.threads[t].place.Outside? && s.threads[t].waking.NotWaking?
    case Answer(t, ready) => t in s.threads && s.threads[t].place.PollFuture? && s.threads[t].waking.NotWaking?
    case Unpark(t, target) =>
      t in s.threads && target in s.threads && MayWake(s.threads[t].place) && s.threads[t].waking.NotWaking?
    case LookPolling(t) => t in s.threads && s.threads[t].waking.LooksPolling?
    case LookBlocked(t) =>
      t in s.threads && s.threads[t].waking.LooksBlocked? && s.threads[t].waking.target in s.threads
    case Notify(t) => t in s.threads && s.threads[t].waking.Notifies?
    case Step(t, choice) =>
      && t in s.threads && s.threads[t].waking.NotWaking?
      && !s.threads[t].place.Outside? && !s.threads[t].place.PollFuture?
      && (s.threads[t].place.Park? || s.threads[t].place.ParkHog? ==> s.threads[t].token)
      && (s.threads[t].place.HelperIdle? ==> s.lock.None?)
    case NotifyElsewhere => true
  }

  /** Where the thread looks at its parker: `park_timeout(0)`, or `park` once the token is set. */
  predicate Checks(p: Place) {
    p.ResetToken? || p.Check1? || p.Check2? || p.Check3? || p.ParkHog? || p.Park?
  }

  /** The thread's next place, given its token and whether the reactor lock is free; `choice` tells
      whether more than 500 microseconds have passed. */
  function PlaceAfter(p: Place, token: bool, free: bool, choice: bool): Place {
    match p
    case Outside => Outside
    case PollFuture => PollFuture
    case ResetToken => Outside
    case Check1 => if token then TryLockQuick else TryLock
    case TryLockQuick => if free then SetPollingQuick else PollFuture
    case SetPollingQuick => WaitQuick
    case WaitQuick => WakeQuick
    case WakeQuick => ClearPolling(Quick)
    case TryLock => if free then SetPolling else Park
    case SetPolling => SetBlocked
    case SetBlocked => Check2
    case Check2 => if token then ClearPolling(Leave) else Process
    case Process => Wait
    case Wait => WakeAll
    case WakeAll => Check3
    case Check3 => if token then ClearPolling(Leave) else Elapsed
    case Elapsed => if choice then DropLock else ClearPolling(Again)
    case DropLock => UnparkHelper
    case UnparkHelper => ParkHog
    case ParkHog => ClearPolling(Hogged)
    case ClearPolling(exit) => if exit.Quick? then Unlock else ClearBlocked(exit)
    case ClearBlocked(exit) => if exit.Again? then SetPolling else if exit.Hogged? then PollFuture else Unlock
    case Unlock => PollFuture
    case Park => PollFuture
    case HelperIdle => HelperWait
    case HelperWait => HelperWake
    case HelperWake => HelperUnlock
    case HelperUnlock => HelperIdle
  }

  function Moved(c: Thread, free: bool, choice: bool): Thread {
    var place := PlaceAfter(c.place, c.token, free, choice);
    var consumes := Checks(c.place) && c.token;
    c.(place := place,
       token := c.token && !consumes,
       consumed := c.consumed + (if consumes then 1 else 0),
       polls := c.polls + (if place.PollFuture? then 1 else 0),
       polling := (c.polling || c.place.SetPolling? || c.place.SetPollingQuick?) && !c.place.ClearPolling?,
       blocked := (c.blocked || c.place.SetBlocked?) && !c.place.ClearBlocked?)
  }

  function LockAfter(lock: Option<nat>, t: nat, p: Place): Option<nat> {
    match p
    case TryLockQuick => if lock.None? then Some(t) else lock
    case TryLock => if lock.None? then Some(t) else lock
    case HelperIdle => Some(t)
    case DropLock => None
    case Unlock => None
    case HelperUnlock => None
    case _ => lock
  }

  function Next(s: State, a: Action): State
    requires Enabled(s, a)
  {
    match a
    case Call(t) =>
      var c := s.threads[t];
      s.(threads := s.threads[t := c.(place := PollFuture, finished := false, polls := 1, consumed := 0,
                                      unparks := 0, initial := if c.token then 1 else 0)])
    case Answer(t, ready) =>
      var c := s.threads[t];
      s.(threads := s.threads[t := c.(place := if ready then ResetToken else Check1, finished := ready)])
    case Unpark(t, target) =>
      if s.threads[target].token then s
      else
        var c := s.threads[target];
        var woken := s.threads[target := c.(token := true, unparks := c.unparks + 1, setter := t)];
        s.(threads := woken[t := woken[t].(waking := LooksPolling(target))])
    case LookPolling(t) =>
      var c := s.threads[t];
      s.(threads := s.threads[t := c.(waking := if c.polling then NotWaking else LooksBlocked(c.waking.target))])
    case LookBlocked(t) =>
      var c := s.threads[t];
      s.(threads := s.threads[t := c.(waking := if s.threads[c.waking.target].blocked
                                                then Notifies(c.waking.target) else NotWaking)])
    case Notify(t) =>
      s.(threads := s.threads[t := s.threads[t].(waking := NotWaking)], notified := true)
    case Step(t, choice) =>
      var c := s.threads[t];
      // A wait may consume the pending notification; `choice` tells whether this one does.
      var waits := c.place.Wait? || c.place.WaitQuick? || c.place.HelperWait?;
      State(s.threads[t := Moved(c, s.lock.None?, choice)],
            LockAfter(s.lock, t, c.place),
            s.notified && !(waits && choice))
    case NotifyElsewhere => s.(notified := true)
  }

  /** Threads start outside with any token left in their cached parker, or as the helper. */
  predicate Idle(c: Thread) {
    (c.place.Outside? || c.place.HelperIdle?) && !c.blocked && !c.polling && c.waking.NotWaking?
  }

  ghost predicate Init(s: State) {
    s.lock.None? && forall t | t in s.threads :: Idle(s.threads[t])
  }

  ghost predicate Behavior(run: seq<State>, steps: seq<Action>) {
    && |run| == |steps| + 1 && Init(run[0])
    && forall i | 0 <= i < |steps| :: Enabled(run[i], steps[i]) && run[i + 1] == Next(run[i], steps[i])
  }

  // The invariant.

  predicate PollingPlace(p: Place) {
    match p
    case WaitQuick => true case WakeQuick => true
    case SetBlocked => true case Check2 => true case Process => true case Wait => true
    case WakeAll => true case Check3 => true case Elapsed => true
    case DropLock => true case UnparkHelper => true case ParkHog => true
    case ClearPolling(_) => true
    case _ => false
  }

  predicate BlockedPlace(p: Place) {
    match p
    case Check2 => true case Process => true case Wait => true
    case WakeAll => true case Check3 => true case Elapsed => true
    case DropLock => true case UnparkHelper => true case ParkHog => true
    case ClearPolling(exit) => !exit.Quick? case ClearBlocked(exit) => !exit.Quick?
    case _ => false
  }

  predicate LockPlace(p: Place) {
    match p
    case SetPollingQuick => true case WaitQuick => true case WakeQuick => true
    case SetPolling => true case SetBlocked => true case Check2 => true case Process => true case Wait => true
    case WakeAll => true case Check3 => true case Elapsed => true case DropLock => true
    case ClearPolling(exit) => !exit.Hogged? case ClearBlocked(exit) => !exit.Hogged?
    case Unlock => true
    case HelperWait => true case HelperWake => true case HelperUnlock => true
    case _ => false
  }

  predicate InCall(p: Place) {
    !p.Outside? && !p.HelperIdle? && !p.HelperWait? && !p.HelperWake? && !p.HelperUnlock?
  }

  /** Between consuming a token and polling again. */
  predicate Notified(p: Place) {
    match p
    case TryLockQuick => true case SetPollingQuick => true case WaitQuick => true case WakeQuick => true
    case ClearPolling(exit) => !exit.Again? case ClearBlocked(exit) => !exit.Again?
    case Unlock => true
    case _ => false
  }

  /** Each thread by itself: the flags are set at the right places, wakers run only where they may,
      and tokens and polls add up. */
  predicate Consistent(c: Thread) {
    && c.polling == PollingPlace(c.place)
    && c.blocked == BlockedPlace(c.place)
    && (!c.waking.NotWaking? ==> MayWake(c.place))
    && (InCall(c.place) ==>
          && c.polls == c.consumed + (if Notified(c.place) then 0 else 1)
          && c.consumed + (if c.token then 1 else 0) == c.initial + c.unparks
          && (c.finished <==> c.place.ResetToken?))
  }

  ghost predicate AllConsistent(s: State) {
    forall t | t in s.threads :: Consistent(s.threads[t])
  }

  ghost predicate LockHeld(s: State) {
    && (s.lock.Some? ==> s.lock.value in s.threads)
    && forall t | t in s.threads :: LockPlace(s.threads[t].place) <==> s.lock == Some(t)
  }

  /** Thread `u` is about to notify the poller on behalf of `t`, and nothing can stop it while `t` is
      flagged as blocked. */
  predicate OnItsWay(s: State, u: nat, t: nat) {
    && u in s.threads
    && match s.threads[u].waking
       case NotWaking => false
       case LooksPolling(target) => target == t && !s.threads[u].polling
       case LooksBlocked(target) => target == t
       case Notifies(target) => target == t
  }

  /** Past the last check of the token and not yet back from the wait. */
  predicate InWindow(c: Thread) {
    c.place.Process? || c.place.Wait?
  }

  predicate Heard(s: State, t: nat)
    requires t in s.threads
  {
    InWindow(s.threads[t]) && s.threads[t].token ==> s.notified || OnItsWay(s, s.threads[t].setter, t)
  }

  ghost predicate AllHeard(s: State) {
    forall t | t in s.threads :: Heard(s, t)
  }

  ghost predicate Targets(s: State) {
    forall t | t in s.threads && !s.threads[t].waking.NotWaking? :: s.threads[t].waking.target in s.threads
  }

  ghost predicate Inv(s: State) {
    AllConsistent(s) && LockHeld(s) && Targets(s) && AllHeard(s)
  }

  // One thread's own step, taken by itself.

  predicate CanMove(c: Thread) {
    && c.waking.NotWaking? && !c.place.Outside? && !c.place.PollFuture?
    && (c.place.Park? || c.place.ParkHog? ==> c.token)
  }

  lemma MoveKeepsConsistent(c: Thread, free: bool, choice: bool)
    requires Consistent(c) && CanMove(c)
    ensures Consistent(Moved(c, free, choice))
  {
  }

  lemma MoveTracksLock(p: Place, token: bool, lock: Option<nat>, t: nat, choice: bool)
    requires !p.Outside? && !p.PollFuture? && (p.HelperIdle? ==> lock.None?)
    requires LockPlace(p) <==> lock == Some(t)
    ensures LockPlace(PlaceAfter(p, token, lock.None?, choice)) <==> LockAfter(lock, t, p) == Some(t)
    ensures TakenOrDropped(lock, LockAfter(lock, t, p), t)
  {
  }

  predicate TakenOrDropped(before: Option<nat>, after: Option<nat>, t: nat) {
    after == before || (before.None? && after == Some(t)) || (before == Some(t) && after.None?)
  }

  /** The window is entered only past a check that found no token. */
  lemma MoveEntersWindowUntold(p: Place, token: bool, free: bool, choice: bool)
    requires PlaceAfter(p, token, free, choice).Process? || PlaceAfter(p, token, free, choice).Wait?
    ensures p.Process? || (p.Check2? && !token)
  {
  }

  // Steps of the whole system.

  predicate AfterStep(s: State, s': State, t: nat, c': Thread) {
    t in s.threads && CanMove(s.threads[t]) && s'.threads == s.threads[t := c']
  }

  lemma MoveKeepsLock(s: State, s': State, t: nat, c': Thread)
    requires AllConsistent(s) && LockHeld(s) && Targets(s) && AfterStep(s, s', t, c')
    requires c'.waking == s.threads[t].waking
    requires LockPlace(c'.place) <==> s'.lock == Some(t)
    requires TakenOrDropped(s.lock, s'.lock, t)
    ensures LockHeld(s') && Targets(s')
  {
  }

  lemma MoveKeepsHeard(s: State, s': State, t: nat, c': Thread)
    requires Inv(s) && AfterStep(s, s', t, c')
    requires c'.waking == s.threads[t].waking && c'.setter == s.threads[t].setter
    requires c'.token ==> s.threads[t].token
    requires InWindow(c') ==> (InWindow(s.threads[t]) && s.threads[t].place.Process?) || !c'.token
    requires s.notified && !s'.notified ==> LockPlace(s.threads[t].place) && !InWindow(c')
    ensures AllHeard(s')
  {
    forall u | u in s'.threads
      ensures Heard(s', u)
    {
      assert Heard(s, u);
      if u != t && InWindow(s.threads[u]) {
        assert LockPlace(s.threads[u].place) && s.lock == Some(u);
      }
    }
  }

  lemma OneThreadChanges(s: State, s': State, t: nat)
    requires AllConsistent(s) && t in s.threads && t in s'.threads
    requires s'.threads == s.threads[t := s'.threads[t]] && Consistent(s'.threads[t])
    ensures AllConsistent(s')
  {
    forall u | u in s'.threads
      ensures Consistent(s'.threads[u])
    {
      assert Consistent(s.threads[u]) || u == t;
    }
  }

  lemma StepKeepsInv(s: State, a: Action)
    requires Inv(s) && Enabled(s, a) && a.Step?
    ensures Inv(Next(s, a))
  {
    var s' := Next(s, a);
    var c := s.threads[a.thread];
    var c' := Moved(c, s.lock.None?, a.choice);
    assert Consistent(c);
    MoveKeepsConsistent(c, s.lock.None?, a.choice);
    OneThreadChanges(s, s', a.thread);
    MoveTracksLock(c.place, c.token, s.lock, a.thread, a.choice);
    MoveKeepsLock(s, s', a.thread, c');
    if InWindow(c') {
      MoveEntersWindowUntold(c.place, c.token, s.lock.None?, a.choice);
    }
    MoveKeepsHeard(s, s', a.thread, c');
  }

  lemma UnparkKeepsOneHeard(s: State, a: Action, t: nat)
    requires Inv(s) && Enabled(s, a) && a.Unpark? && t in s.threads
    ensures Heard(Next(s, a), t)
  {
    var waker := s.threads[a.thread];
    assert Consistent(waker) && Heard(s, t);
    assert LockPlace(waker.place) <==> s.lock == Some(a.thread);
    assert LockPlace(s.threads[a.target].place) <==> s.lock == Some(a.target);
  }

  lemma UnparkKeepsHeard(s: State, a: Action)
    requires Inv(s) && Enabled(s, a) && a.Unpark?
    ensures AllHeard(Next(s, a))
  {
    forall t | t in Next(s, a).threads
      ensures Heard(Next(s, a), t)
    {
      UnparkKeepsOneHeard(s, a, t);
    }
  }

  /** The target after a new token, and the waker after it has been told so. */
  lemma UnparkKeepsConsistent(s: State, a: Action)
    requires AllConsistent(s) && Enabled(s, a) && a.Unpark? && !s.threads[a.target].token
    ensures AllConsistent(Next(s, a))
  {
    var c := s.threads[a.target];
    assert Consistent(c) && Consistent(s.threads[a.thread]);
    var middle := s.(threads := s.threads[a.target := c.(token := true, unparks := c.unparks + 1, setter := a.thread)]);
    OneThreadChanges(s, middle, a.target);
    assert Consistent(middle.threads[a.thread]);
    OneThreadChanges(middle, Next(s, a), a.thread);
  }

  lemma UnparkKeepsPlaces(s: State, a: Action)
    requires Enabled(s, a) && a.Unpark?
    ensures var s' := Next(s, a);
            && s'.threads.Keys == s.threads.Keys && s'.lock == s.lock
            && forall t | t in s.threads ::
               && s'.threads[t].place == s.threads[t].place
               && (s'.threads[t].waking == s.threads[t].waking || s'.threads[t].waking == LooksPolling(a.target))
  {
  }

  lemma UnparkKeepsLock(s: State, a: Action)
    requires LockHeld(s) && Targets(s) && Enabled(s, a) && a.Unpark?
    ensures LockHeld(Next(s, a)) && Targets(Next(s, a))
  {
    hide Next;
    UnparkKeepsPlaces(s, a);
  }

  lemma UnparkKeepsInv(s: State, a: Action)
    requires Inv(s) && Enabled(s, a) && a.Unpark?
    ensures Inv(Next(s, a))
  {
    UnparkKeepsHeard(s, a);
    UnparkKeepsLock(s, a);
    if !s.threads[a.target].token {
      UnparkKeepsConsistent(s, a);
    }
  }

  lemma LookPollingKeepsHeard(s: State, a: Action)
    requires Inv(s) && Enabled(s, a) && a.LookPolling?
    ensures AllHeard(Next(s, a))
  {
    forall t | t in Next(s, a).threads
      ensures Heard(Next(s, a), t)
    {
      assert Heard(s, t);
    }
  }

  lemma LookPollingKeepsInv(s: State, a: Action)
    requires Inv(s) && Enabled(s, a) && a.LookPolling?
    ensures Inv(Next(s, a))
  {
    assert Consistent(s.threads[a.thread]);
    OneThreadChanges(s, Next(s, a), a.thread);
    LookPollingKeepsHeard(s, a);
  }

  lemma LookBlockedKeepsInv(s: State, a: Action)
    requires Inv(s) && Enabled(s, a) && a.LookBlocked?
    ensures Inv(Next(s, a))
  {
    var s' := Next(s, a);
    assert Consistent(s.threads[a.thread]);
    OneThreadChanges(s, s', a.thread);
    forall t | t in s'.threads
      ensures Heard(s', t)
    {
      assert Heard(s, t) && Consistent(s.threads[t]);
    }
  }

  lemma NotifyKeepsInv(s: State, a: Action)
    requires Inv(s) && Enabled(s, a) && a.Notify?
    ensures Inv(Next(s, a))
  {
    assert Consistent(s.threads[a.thread]);
    OneThreadChanges(s, Next(s, a), a.thread);
  }

  lemma CallKeepsHeard(s: State, a: Action)
    requires Inv(s) && Enabled(s, a) && (a.Call? || a.Answer?)
    ensures AllHeard(Next(s, a))
  {
    forall t | t in Next(s, a).threads
      ensures Heard(Next(s, a), t)
    {
      assert Heard(s, t);
    }
  }

  lemma CallKeepsInv(s: State, a: Action)
    requires Inv(s) && Enabled(s, a) && (a.Call? || a.Answer?)
    ensures Inv(Next(s, a))
  {
    assert Consistent(s.threads[a.thread]);
    OneThreadChanges(s, Next(s, a), a.thread);
    CallKeepsHeard(s, a);
  }

  lemma ElsewhereKeepsInv(s: State)
    requires Inv(s)
    ensures Inv(Next(s, NotifyElsewhere))
  {
    assert AllConsistent(s) && LockHeld(s);
  }

  lemma {:induction false} InvHolds(run: seq<State>, steps: seq<Action>, i: nat)
    requires Behavior(run, steps) && i < |run|
    ensures Inv(run[i])
    decreases i
  {
    if i > 0 {
      InvHolds(run, steps, i - 1);
      match steps[i - 1]
      case Step(_, _) => StepKeepsInv(run[i - 1], steps[i - 1]);
      case Unpark(_, _) => UnparkKeepsInv(run[i - 1], steps[i - 1]);
      case LookPolling(_) => LookPollingKeepsInv(run[i - 1], steps[i - 1]);
      case LookBlocked(_) => LookBlockedKeepsInv(run[i - 1], steps[i - 1]);
      case Notify(_) => NotifyKeepsInv(run[i - 1], steps[i - 1]);
      case NotifyElsewhere => ElsewhereKeepsInv(run[i - 1]);
      case _ => CallKeepsInv(run[i - 1], steps[i - 1]);
    }
  }

  // What every run promises.

  /** No lost wakeup: a thread between its last look at the token and the return of the poller's
      wait, with its token set, has a pending notification or a waker on its way to notify. */
  lemma NoLostWakeup(run: seq<State>, steps: seq<Action>, i: nat, t: nat)
    requires Behavior(run, steps) && i < |run|
    requires t in run[i].threads && InWindow(run[i].threads[t]) && run[i].threads[t].token
    ensures run[i].notified || exists u :: OnItsWay(run[i], u, t)
  {
    InvHolds(run, steps, i);
    assert Heard(run[i], t);
  }

  function Play(s: State, steps: seq<Action>): Option<State>
    decreases |steps|
  {
    if steps == [] then Some(s)
    else if Enabled(s, steps[0]) then Play(Next(s, steps[0]), steps[1..])
    else None
  }

  /** The steps that remain for a waker on its way. */
  function RestOfWake(u: nat, w: Waking): seq<Action> {
    match w
    case NotWaking => []
    case LooksPolling(_) => [LookPolling(u), LookBlocked(u), Notify(u)]
    case LooksBlocked(_) => [LookBlocked(u), Notify(u)]
    case Notifies(_) => [Notify(u)]
  }

  /** And the wakeup does arrive: the waker's own remaining steps, at most three, are never blocked
      and end with the notification pending. */
  lemma WakeupArrives(run: seq<State>, steps: seq<Action>, i: nat, t: nat, u: nat)
    requires Behavior(run, steps) && i < |run|
    requires t in run[i].threads && InWindow(run[i].threads[t]) && OnItsWay(run[i], u, t)
    ensures var rest := RestOfWake(u, run[i].threads[u].waking);
            |rest| <= 3 && Play(run[i], rest).Some? && Play(run[i], rest).value.notified
  {
    InvHolds(run, steps, i);
    var s := run[i];
    assert Consistent(s.threads[t]);
    assert !s.threads[u].waking.NotWaking?;
    WakePlays(s, t, u);
  }

  lemma WakePlays(s: State, t: nat, u: nat)
    requires t in s.threads && s.threads[t].blocked && OnItsWay(s, u, t)
    ensures var rest := RestOfWake(u, s.threads[u].waking);
            Play(s, rest).Some? && Play(s, rest).value.notified
    decreases |RestOfWake(u, s.threads[u].waking)|
  {
    var rest := RestOfWake(u, s.threads[u].waking);
    var s' := Next(s, rest[0]);
    if rest[0].Notify? {
      assert Play(s', rest[1..]) == Some(s');
    } else {
      assert rest[1..] == RestOfWake(u, s'.threads[u].waking);
      WakePlays(s', t, u);
    }
  }

  /** Skipping the notification is safe: a waker that runs on a thread with the polling flag set runs
      under the reactor lock, so no thread at all is near the poller's wait. */
  lemma PollingWakerHoldsTheLock(run: seq<State>, steps: seq<Action>, i: nat, u: nat)
    requires Behavior(run, steps) && i < |run|
    requires u in run[i].threads && MayWake(run[i].threads[u].place) && run[i].threads[u].polling
    ensures run[i].lock == Some(u)
    ensures forall t | t in run[i].threads :: !InWindow(run[i].threads[t]) && !run[i].threads[t].place.HelperWait?
  {
    InvHolds(run, steps, i);
    assert Consistent(run[i].threads[u]);
    forall t | t in run[i].threads
      ensures !InWindow(run[i].threads[t]) && !run[i].threads[t].place.HelperWait?
    {
      assert LockPlace(run[i].threads[t].place) <==> run[i].lock == Some(t);
    }
  }

  /** The polling flag outlives the lock exactly in the branch that stops hogging the reactor. */
  lemma FlagWithoutLockIffHogged(run: seq<State>, steps: seq<Action>, i: nat, t: nat)
    requires Behavior(run, steps) && i < |run| && t in run[i].threads
    ensures run[i].threads[t].polling && run[i].lock != Some(t)
       <==> var p := run[i].threads[t].place; p.UnparkHelper? || p.ParkHog? || p == ClearPolling(Hogged)
  {
    InvHolds(run, steps, i);
    assert Consistent(run[i].threads[t]);
  }

  /** The lock excludes: at most one thread is near the poller's wait. */
  lemma OneThreadWaits(run: seq<State>, steps: seq<Action>, i: nat, t: nat, u: nat)
    requires Behavior(run, steps) && i < |run| && t in run[i].threads && u in run[i].threads
    requires InWindow(run[i].threads[t])
    requires InWindow(run[i].threads[u]) || run[i].threads[u].place.HelperWait? || run[i].threads[u].place.WaitQuick?
    ensures t == u
  {
    InvHolds(run, steps, i);
    assert LockPlace(run[i].threads[t].place) && LockPlace(run[i].threads[u].place);
  }

  /** Whenever the future is polled, exactly one token has been consumed for each poll after the
      first, so there are at most as many polls as unparks that newly set the token, plus the token
      found at the start, plus one. A finished future is not polled again. */
  lemma PollsArePaidFor(run: seq<State>, steps: seq<Action>, i: nat, t: nat)
    requires Behavior(run, steps) && i < |run| && t in run[i].threads && run[i].threads[t].place.PollFuture?
    ensures var c := run[i].threads[t];
            && c.polls == c.consumed + 1
            && c.polls + (if c.token then 1 else 0) == 1 + c.initial + c.unparks
            && !c.finished
  {
    InvHolds(run, steps, i);
    assert Consistent(run[i].threads[t]);
  }

  /** Within a call, polls and consumed tokens alternate: a step that starts a poll is the first one
      since the last token was consumed. */
  lemma EveryPollFollowsOneToken(run: seq<State>, steps: seq<Action>, i: nat, t: nat)
    requires Behavior(run, steps) && i < |steps| && t in run[i].threads && t in run[i + 1].threads
    requires InCall(run[i].threads[t].place) && run[i + 1].threads[t].polls != run[i].threads[t].polls
    ensures steps[i].Step? && steps[i].thread == t && run[i + 1].threads[t].place.PollFuture?
    ensures run[i + 1].threads[t].polls == run[i].threads[t].polls + 1 == run[i + 1].threads[t].consumed + 1
  {
    InvHolds(run, steps, i);
    InvHolds(run, steps, i + 1);
    assert Consistent(run[i].threads[t]) && Consistent(run[i + 1].threads[t]);
    if !(steps[i].Step? && steps[i].thread == t) {
      OnlyOwnStepsPoll(run[i], steps[i], t);
    }
  }

  lemma OnlyOwnStepsPoll(s: State, a: Action, t: nat)
    requires Enabled(s, a) && t in s.threads
    requires !((a.Step? || a.Call?) && a.thread == t)
    ensures t in Next(s, a).threads && Next(s, a).threads[t].polls == s.threads[t].polls
  {
  }

  // A wakeup reaches the future.

  /** How many steps of its own the thread has taken from state `i` to state `j`. */
  function OwnSteps(steps: seq<Action>, i: nat, j: nat, t: nat): nat
    requires i <= j <= |steps|
  {
    if i == j then 0
    else OwnSteps(steps, i, j - 1, t) + if steps[j - 1].Step? && steps[j - 1].thread == t then 1 else 0
  }

  /** What the thread does next: it answers for its future, finishes a wake, or takes a step. */
  function OwnAction(c: Thread, t: nat, choice: bool): Action {
    match c.waking
    case LooksPolling(_) => LookPolling(t)
    case LooksBlocked(_) => LookBlocked(t)
    case Notifies(_) => Notify(t)
    case NotWaking => if c.place.PollFuture? then Answer(t, choice) else Step(t, choice)
  }

  /** A poll is due: a token is set, or one has been consumed since the last poll. */
  predicate PollDue(c: Thread) {
    InCall(c.place) && !c.finished && (c.token || c.polls == c.consumed)
  }

  /** The steps before the next poll at most, once a poll is due. */
  function StepsToPoll(p: Place): nat {
    match p
    case TryLockQuick => 6 case SetPollingQuick => 5 case WaitQuick => 4 case WakeQuick => 3
    case Unlock => 1
    case Check1 => 7 case TryLock => 7 case Park => 1
    case SetPolling => 6 case SetBlocked => 5 case Check2 => 4
    case Process => 7 case Wait => 6 case WakeAll => 5 case Check3 => 4 case Elapsed => 9
    case DropLock => 5 case UnparkHelper => 4 case ParkHog => 3
    case ClearPolling(exit) => if exit.Again? then 8 else if exit.Leave? then 3 else 2
    case ClearBlocked(exit) => if exit.Again? then 7 else if exit.Hogged? then 1 else 2
    case PollFuture => 7
    case _ => 0
  }

  lemma MoveBringsPollNearer(c: Thread, free: bool, choice: bool)
    requires Consistent(c) && CanMove(c) && PollDue(c)
    ensures var c' := Moved(c, free, choice);
            if c'.polls == c.polls then
              && PollDue(c') && StepsToPoll(c'.place) < StepsToPoll(c.place)
              && (c.polls == c.consumed ==> c'.polls == c'.consumed)
            else c'.polls == c.polls + 1 && InCall(c'.place) && !c'.finished
  {
  }

  predicate SameCall(c: Thread, c': Thread) {
    InCall(c'.place) && !c'.finished && c'.polls == c.polls
  }

  /** Nobody else's step takes a due poll away, or makes it any further. */
  lemma OthersLeavePollDue(s: State, a: Action, t: nat)
    requires Enabled(s, a) && t in s.threads && PollDue(s.threads[t]) && !(a.Step? && a.thread == t)
    requires t in Next(s, a).threads && SameCall(s.threads[t], Next(s, a).threads[t])
    ensures PollDue(Next(s, a).threads[t])
    ensures Next(s, a).threads[t].consumed == s.threads[t].consumed
    ensures StepsToPoll(Next(s, a).threads[t].place) <= StepsToPoll(s.threads[t].place)
  {
  }

  lemma DuePollStep(s: State, a: Action, t: nat)
    requires Inv(s) && Enabled(s, a) && t in s.threads && t in Next(s, a).threads
    requires PollDue(s.threads[t]) && SameCall(s.threads[t], Next(s, a).threads[t])
    ensures PollDue(Next(s, a).threads[t])
    ensures s.threads[t].polls == s.threads[t].consumed ==>
              Next(s, a).threads[t].polls == Next(s, a).threads[t].consumed
    ensures StepsToPoll(Next(s, a).threads[t].place) + (if a.Step? && a.thread == t then 1 else 0)
         <= StepsToPoll(s.threads[t].place)
  {
    if a.Step? && a.thread == t {
      assert Consistent(s.threads[t]);
      MoveBringsPollNearer(s.threads[t], s.lock.None?, a.choice);
    } else {
      OthersLeavePollDue(s, a, t);
    }
  }

  lemma {:induction false} PollGetsNearer(run: seq<State>, steps: seq<Action>, i: nat, j: nat, t: nat)
    requires Behavior(run, steps) && i <= j < |run| && t in run[i].threads && PollDue(run[i].threads[t])
    requires forall k | i <= k <= j :: t in run[k].threads && SameCall(run[i].threads[t], run[k].threads[t])
    ensures t in run[j].threads && PollDue(run[j].threads[t])
    ensures run[i].threads[t].polls == run[i].threads[t].consumed ==>
              run[j].threads[t].polls == run[j].threads[t].consumed
    ensures OwnSteps(steps, i, j, t) + StepsToPoll(run[j].threads[t].place) <= StepsToPoll(run[i].threads[t].place)
    decreases j - i
  {
    hide Next, Inv, PollDue, StepsToPoll;
    if i < j {
      PollGetsNearer(run, steps, i, j - 1, t);
      InvHolds(run, steps, j - 1);
      assert SameCall(run[i].threads[t], run[j - 1].threads[t]) && SameCall(run[i].threads[t], run[j].threads[t]);
      DuePollStep(run[j - 1], steps[j - 1], t);
    }
  }

  lemma DuePollIsNeverBlocked(s: State, t: nat, choice: bool)
    requires Inv(s) && t in s.threads && PollDue(s.threads[t])
    ensures Enabled(s, OwnAction(s.threads[t], t, choice)) && StepsToPoll(s.threads[t].place) > 0
  {
    assert Consistent(s.threads[t]);
  }

  /** After a token has been consumed, the call can only go on as it is or poll. */
  lemma OnlyAPollEndsTheWay(s: State, a: Action, t: nat)
    requires Inv(s) && Enabled(s, a) && t in s.threads
    requires PollDue(s.threads[t]) && s.threads[t].polls == s.threads[t].consumed
    ensures t in Next(s, a).threads
    ensures var c := Next(s, a).threads[t];
            SameCall(s.threads[t], c) || (c.place.PollFuture? && c.polls == s.threads[t].polls + 1)
  {
    assert Consistent(s.threads[t]);
    if a.Step? && a.thread == t {
      MoveBringsPollNearer(s.threads[t], s.lock.None?, a.choice);
    }
  }

  /** A consumed token leads to a poll, whatever other threads do meanwhile: as long as a thread has not
      polled since, it has taken at most five steps, it can go on, and nothing but a poll ends this. So
      its sixth step polls. */
  lemma ConsumedTokenLeadsToPoll(run: seq<State>, steps: seq<Action>, i: nat, j: nat, t: nat)
    requires Behavior(run, steps) && i <= j < |run| && t in run[i].threads
    requires InCall(run[i].threads[t].place) && !run[i].threads[t].finished
    requires run[i].threads[t].polls == run[i].threads[t].consumed
    requires forall k | i <= k <= j :: t in run[k].threads && SameCall(run[i].threads[t], run[k].threads[t])
    ensures OwnSteps(steps, i, j, t) <= 5
    ensures t in run[j].threads && forall choice :: Enabled(run[j], OwnAction(run[j].threads[t], t, choice))
    ensures j < |steps| ==>
              && t in run[j + 1].threads
              && var c := run[j + 1].threads[t];
                 SameCall(run[i].threads[t], c) || (c.place.PollFuture? && c.polls == run[i].threads[t].polls + 1)
  {
    hide Next;
    PollGetsNearer(run, steps, i, j, t);
    InvHolds(run, steps, i);
    InvHolds(run, steps, j);
    assert Consistent(run[i].threads[t]);
    forall choice
      ensures Enabled(run[j], OwnAction(run[j].threads[t], t, choice)) && StepsToPoll(run[j].threads[t].place) > 0
    {
      DuePollIsNeverBlocked(run[j], t, choice);
    }
    DuePollIsNeverBlocked(run[j], t, true);
    if j < |steps| {
      assert SameCall(run[i].threads[t], run[j].threads[t]);
      OnlyAPollEndsTheWay(run[j], steps[j], t);
    }
  }

  /** And so does a token that is set, from wherever the thread is in its call: it takes at most eight
      steps without polling, and it is never blocked. */
  lemma SetTokenLeadsToPoll(run: seq<State>, steps: seq<Action>, i: nat, j: nat, t: nat)
    requires Behavior(run, steps) && i <= j < |run| && t in run[i].threads && run[i].threads[t].token
    requires forall k | i <= k <= j :: t in run[k].threads && SameCall(run[i].threads[t], run[k].threads[t])
    ensures OwnSteps(steps, i, j, t) <= 8
    ensures t in run[j].threads && forall choice :: Enabled(run[j], OwnAction(run[j].threads[t], t, choice))
  {
    hide Next, Inv;
    assert SameCall(run[i].threads[t], run[i].threads[t]);
    PollGetsNearer(run, steps, i, j, t);
    InvHolds(run, steps, j);
    forall choice
      ensures Enabled(run[j], OwnAction(run[j].threads[t], t, choice))
    {
      DuePollIsNeverBlocked(run[j], t, choice);
    }
    DuePollIsNeverBlocked(run[j], t, true);
  }

  /** Every wake leaves the token of its target set, and touches no other token. */
  lemma UnparkSetsTheToken(run: seq<State>, steps: seq<Action>, i: nat, t: nat)
    requires Behavior(run, steps) && i < |steps| && steps[i].Unpark? && t in run[i].threads
    ensures t in run[i + 1].threads
    ensures run[i + 1].threads[t].token == (run[i].threads[t].token || t == steps[i].target)
    ensures run[i + 1].threads[t].place == run[i].threads[t].place
  {
  }

  // Without a wakeup, a thread sleeps where it can be woken and somebody serves the reactor.

  /** The poller's wait, and the two places where a thread parks. */
  predicate Sleeps(p: Place) {
    p.Wait? || p.Park? || p.ParkHog?
  }

  predicate Unwoken(c: Thread) {
    && InCall(c.place) && !c.finished && !c.token && c.polls == c.consumed + 1
    && !c.place.PollFuture? && !Sleeps(c.place)
  }

  function StepsToSleep(p: Place): nat {
    match p
    case Check1 => 6 case TryLock => 5
    case SetPolling => 4 case SetBlocked => 3 case Check2 => 2 case Process => 1
    case WakeAll => 9 case Check3 => 8 case Elapsed => 7
    case ClearPolling(_) => 6 case ClearBlocked(_) => 5
    case DropLock => 2 case UnparkHelper => 1
    case _ => 0
  }

  lemma MoveBringsSleepNearer(c: Thread, free: bool, choice: bool)
    requires Consistent(c) && CanMove(c) && Unwoken(c) && Unwoken(Moved(c, free, choice))
    ensures StepsToSleep(Moved(c, free, choice).place) < StepsToSleep(c.place)
  {
  }

  lemma OthersLeavePlace(s: State, a: Action, t: nat)
    requires Enabled(s, a) && t in s.threads && Unwoken(s.threads[t]) && !(a.Step? && a.thread == t)
    ensures t in Next(s, a).threads && Next(s, a).threads[t].place == s.threads[t].place
  {
  }

  lemma UnwokenHasFarToGo(c: Thread)
    requires Consistent(c) && Unwoken(c)
    ensures 0 < StepsToSleep(c.place) <= 9
  {
  }

  lemma UnwokenStep(s: State, a: Action, t: nat)
    requires Inv(s) && Enabled(s, a) && t in s.threads && t in Next(s, a).threads
    requires Unwoken(s.threads[t]) && Unwoken(Next(s, a).threads[t])
    ensures StepsToSleep(Next(s, a).threads[t].place) + (if a.Step? && a.thread == t then 1 else 0)
         <= StepsToSleep(s.threads[t].place)
  {
    if a.Step? && a.thread == t {
      assert Consistent(s.threads[t]);
      MoveBringsSleepNearer(s.threads[t], s.lock.None?, a.choice);
    } else {
      OthersLeavePlace(s, a, t);
    }
  }

  lemma {:induction false} SleepGetsNearer(run: seq<State>, steps: seq<Action>, i: nat, j: nat, t: nat)
    requires Behavior(run, steps) && i <= j < |run|
    requires forall k | i <= k <= j :: t in run[k].threads && Unwoken(run[k].threads[t])
    ensures t in run[i].threads && t in run[j].threads
    ensures OwnSteps(steps, i, j, t) + StepsToSleep(run[j].threads[t].place) <= StepsToSleep(run[i].threads[t].place)
    decreases j - i
  {
    hide Next, Inv, Unwoken, StepsToSleep;
    assert Unwoken(run[j].threads[t]);
    if i < j {
      SleepGetsNearer(run, steps, i, j - 1, t);
      InvHolds(run, steps, j - 1);
      assert Unwoken(run[j - 1].threads[t]);
      UnwokenStep(run[j - 1], steps[j - 1], t);
    }
  }

  /** A thread does not spin: as long as it has no token and does not sleep, it has taken at most eight
      steps, so its ninth at the latest brings it to the poller's wait or lets it park. */
  lemma UnwokenThreadSleeps(run: seq<State>, steps: seq<Action>, i: nat, j: nat, t: nat)
    requires Behavior(run, steps) && i <= j < |run|
    requires forall k | i <= k <= j :: t in run[k].threads && Unwoken(run[k].threads[t])
    ensures OwnSteps(steps, i, j, t) <= 8
  {
    hide Next, Unwoken, Consistent, StepsToSleep;
    SleepGetsNearer(run, steps, i, j, t);
    InvHolds(run, steps, i);
    InvHolds(run, steps, j);
    assert Unwoken(run[i].threads[t]) && Unwoken(run[j].threads[t]);
    assert Consistent(run[i].threads[t]) && Consistent(run[j].threads[t]);
    UnwokenHasFarToGo(run[i].threads[t]);
    UnwokenHasFarToGo(run[j].threads[t]);
  }

  lemma ParkingStep(s: State, t: nat, choice: bool)
    requires LockHeld(s) && Enabled(s, Step(t, choice)) && !Sleeps(s.threads[t].place)
    ensures var p := Next(s, Step(t, choice)).threads[t].place;
            && (p.Park? ==> s.lock.Some? && s.lock.value in s.threads && s.lock.value != t)
            && (p.DropLock? <==> choice && s.threads[t].place.Elapsed?)
            && (p.DropLock? ==> s.lock == Some(t))
            && (p.ParkHog? ==> s.threads[t].place.UnparkHelper? && s.lock != Some(t))
  {
    assert LockPlace(s.threads[t].place) <==> s.lock == Some(t);
  }

  /** A thread parks only where the reactor is served: another thread holds its lock, or this one has
      served it for its time without a token and gives it up. */
  lemma NobodyParksInVain(run: seq<State>, steps: seq<Action>, i: nat, t: nat, choice: bool)
    requires Behavior(run, steps) && i < |steps| && steps[i] == Step(t, choice)
    requires !Sleeps(run[i].threads[t].place)
    ensures var p := run[i + 1].threads[t].place;
            && (p.Park? ==> run[i].lock.Some? && run[i].lock.value in run[i].threads && run[i].lock.value != t)
            && (p.DropLock? <==> choice && run[i].threads[t].place.Elapsed?)
            && (p.DropLock? ==> run[i].lock == Some(t))
            && (p.ParkHog? ==> run[i].threads[t].place.UnparkHelper? && run[i].lock != Some(t))
  {
    InvHolds(run, steps, i);
    ParkingStep(run[i], t, choice);
  }

  /** A thread that tries for the reactor gets it exactly if it is free. If not, one that has consumed a
      token polls its future and one that has none parks. */
  lemma FreeReactorIsTaken(run: seq<State>, steps: seq<Action>, i: nat, t: nat, choice: bool)
    requires Behavior(run, steps) && i < |steps| && steps[i] == Step(t, choice)
    requires run[i].threads[t].place.TryLockQuick? || run[i].threads[t].place.TryLock?
    ensures run[i + 1].lock == Some(t) <==> run[i].lock.None?
    ensures run[i].lock.Some? ==>
              if run[i].threads[t].polls == run[i].threads[t].consumed then run[i + 1].threads[t].place.PollFuture?
              else run[i + 1].threads[t].place.Park?
  {
    InvHolds(run, steps, i);
    assert Consistent(run[i].threads[t]);
    assert LockPlace(run[i].threads[t].place) <==> run[i].lock == Some(t);
  }

  predicate Waited(run: seq<State>, i: nat, j: nat, t: nat)
    requires i <= j <= |run|
  {
    exists k :: i <= k < j && t in run[k].threads && run[k].threads[t].place.WaitQuick?
  }

  lemma OnlyOwnStepsMove(s: State, a: Action, t: nat)
    requires Enabled(s, a) && t in s.threads && !(a.Step? && a.thread == t)
    requires !s.threads[t].place.Outside? && !s.threads[t].place.PollFuture?
    ensures t in Next(s, a).threads && Next(s, a).threads[t].place == s.threads[t].place
  {
  }

  /** A thread that has taken the reactor for a quick pass does pass through the poller's wait before
      anything else. */
  lemma {:induction false} QuickPassWaits(run: seq<State>, steps: seq<Action>, i: nat, j: nat, t: nat)
    requires Behavior(run, steps) && i <= j < |run| && t in run[i].threads && run[i].threads[t].place.SetPollingQuick?
    ensures t in run[j].threads
    ensures run[j].threads[t].place.SetPollingQuick? || Waited(run, i, j + 1, t)
    decreases j - i
  {
    if i < j {
      QuickPassWaits(run, steps, i, j - 1, t);
      QuickPassStep(run[j - 1], steps[j - 1], t);
      if Waited(run, i, j, t) {
        var k :| i <= k < j && t in run[k].threads && run[k].threads[t].place.WaitQuick?;
        assert i <= k < j + 1;
      } else if !run[j].threads[t].place.SetPollingQuick? {
        assert run[j].threads[t].place.WaitQuick?;
      }
    }
  }

  lemma QuickPassStep(s: State, a: Action, t: nat)
    requires Enabled(s, a) && t in s.threads
    ensures t in Next(s, a).threads
    ensures s.threads[t].place.SetPollingQuick? ==>
              Next(s, a).threads[t].place.SetPollingQuick? || Next(s, a).threads[t].place.WaitQuick?
  {
    if s.threads[t].place.SetPollingQuick? && !(a.Step? && a.thread == t) {
      OnlyOwnStepsMove(s, a, t);
    }
  }

  /** When the future answers ready, the call is finished and its next step returns, and only then. */
  lemma ReadyFutureReturns(run: seq<State>, steps: seq<Action>, i: nat, t: nat, ready: bool)
    requires Behavior(run, steps) && i < |steps| && steps[i] == Answer(t, ready)
    ensures t in run[i + 1].threads && run[i + 1].threads[t].finished == ready
    ensures ready ==>
              forall choice ::
                && Enabled(run[i + 1], Step(t, choice))
                && Next(run[i + 1], Step(t, choice)).threads[t].place.Outside?
    ensures !ready ==> forall choice :: Enabled(run[i + 1], Step(t, choice))
                                        && InCall(Next(run[i + 1], Step(t, choice)).threads[t].place)
  {
  }

  /** Whoever returns from the poller's wait goes through the wake loop next, still under the reactor
      lock. */
  lemma WaitLeadsToWakeLoop(run: seq<State>, steps: seq<Action>, i: nat, t: nat, choice: bool)
    requires Behavior(run, steps) && i < |steps| && steps[i] == Step(t, choice)
    requires var p := run[i].threads[t].place; p.Wait? || p.WaitQuick? || p.HelperWait?
    ensures MayWake(run[i + 1].threads[t].place) && run[i + 1].lock == Some(t)
  {
    InvHolds(run, steps, i);
    assert LockPlace(run[i].threads[t].place) <==> run[i].lock == Some(t);
  }

  /** The poller is notified only on behalf of a thread flagged as blocked, and never by a thread that is
      itself polling. */
  lemma OnlyTheBlockedAreNotified(run: seq<State>, steps: seq<Action>, i: nat, u: nat)
    requires Behavior(run, steps) && i < |steps| && u in run[i].threads && u in run[i + 1].threads
    ensures run[i + 1].threads[u].waking.Notifies? && !run[i].threads[u].waking.Notifies? ==>
              && steps[i] == LookBlocked(u) && run[i + 1].threads[u].waking.target in run[i].threads
              && run[i].threads[run[i + 1].threads[u].waking.target].blocked
    ensures run[i + 1].threads[u].waking.LooksBlocked? && !run[i].threads[u].waking.LooksBlocked? ==>
              steps[i] == LookPolling(u) && !run[i].threads[u].polling
  {
  }

  /** A call returns with the token reset, the flags cleared and without the reactor lock. A token found
      by the next call was set after that. */
  lemma ReturnResetsTheToken(run: seq<State>, steps: seq<Action>, i: nat)
    requires Behavior(run, steps) && i < |steps| && steps[i].Step?
    requires run[i + 1].threads[steps[i].thread].place.Outside?
    ensures !run[i + 1].threads[steps[i].thread].token && run[i].threads[steps[i].thread].finished
    ensures var c := run[i + 1].threads[steps[i].thread]; !c.polling && !c.blocked
    ensures run[i + 1].lock != Some(steps[i].thread)
  {
    InvHolds(run, steps, i);
    InvHolds(run, steps, i + 1);
    assert Consistent(run[i + 1].threads[steps[i].thread]);
    assert Consistent(run[i].threads[steps[i].thread]);
  }
}
