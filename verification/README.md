# A verified model of the async-io runtime

`async-io` is built from three state machines: a lazy timer store with `Timer` objects on top, the
I/O readiness bookkeeping of the reactor, and the `block_on` protocol with its helper thread. This
project models all three in Dafny and proves what each is there for: that no wakeup and no deadline is
lost, that no future becomes ready on a stale event, that the timers and the store stay in step, and
that wakers and registrations are neither lost nor doubled.

## How it is organised

| file | what it holds |
|---|---|
| `environment.dfy` | wakers, instants, machine words, slab entries; the assumptions about the outside world |
| `timer_ops.dfy` | queued timer operations as data: folding them over a map, interleavings, firing order |
| `timer_store.dfy` | the store as a class: bounded queue, ordered map, drain, insert, remove, passes |
| `timer.dfy` | the `Timer` class and the function that specifies its calls |
| `timer_system.dfy` | any number of timers, interleaved operation by operation with each other and with passes |
| `store_system.dfy` | any number of threads inserting, removing and draining while one thread is in `react` |
| `direction.dfy` | directions, sources and `Ready` futures as values and as classes |
| `io_reactor.dfy` | the reactor class: the slab of sources, `react`, and `Async` handles |
| `io_system.dfy` | any number of sources and futures, interleaved with the steps of `react` |
| `io_runs.dfy` | the first steps that the concrete runs share |
| `rejected_renewal.dfy` | a run in which a rejected `modify` strands two waiters |
| `lost_wakers.dfy` | a call of `react` in which a rejected `modify` loses the wakers collected before |
| `wrapped_ticker.dfy` | a run in which a full wrap of the ticker hides a fresh delivery |
| `block_on.dfy` | any number of `block_on` calls, waking threads and helper threads, one step per atomic access |
| `helper.dfy` | the helper thread's main loop and its backoff |

What the source mutates in place is a class (`Store`, `Timer`, `Direction`, `Source`, `Ready`,
`Reactor`, `Async`, `MainLoop`); each method is proved against a function on values. The concurrent
models are transition systems over those same functions: `TimerSystem` uses `TimerLife.Perform`,
`IoSystem` uses `Directions.PollFuture`, `PollSlot` and `OnEvent`, `StoreSystem` uses `TimerOps.Apply`
and `TimerStore.IsDelay`. In them a run is a sequence of states, each reached from the one before by an
enabled action, and the theorems speak of every state of every run.

Fields that the source does not have record history only (which round a tick belongs to, the items a
timer has answered, which thread set a token). No enabling condition looks at them.

## What is assumed

The comment at the top of `environment.dfy` lists the assumptions: a monotone clock, a sticky poller
notification, one-shot interest that a fetched event disarms in both directions, no fetches after
`delete` (even one that answers an error), `unpark` that answers true exactly when it newly sets the
token, mutual exclusion, and sequentially consistent atomics. The answers of the poller to `add`,
`modify`, `delete` and `wait`, the readings of the clock, the keys a slab hands out and the arrivals
from other threads are parameters, so the contracts hold for all of them.

## Where the code and its promises differ

- `Timer::set_at` is documented to make the timer fire once, but it keeps the period of an earlier
  interval. `SetAtFiresOnceIffPeriodOverflows` gives the exact condition;
  `LongestPeriodAlwaysOverflows` shows that timers made by `at`, `after` or `never` meet it.
- `set_after` is documented to keep the waker of the polling task. A poll of a cleared timer records no
  waker; `PendingPollIsRememberedIffSet` says exactly when a later set registers that poll's waker.
- A rejected `modify` inside `react` ends the loop before anybody is woken and drops the remaining
  events. `ReactConservesWakers` says when that happens in terms of what the loop starts with: the
  poller rejects the renewal for an event that leaves a waiter. `LosesWakersIff` says when wakers
  disappear, and `RejectedRenewalLosesWakers` is a call that loses a timer's and a reader's.
- The waiters that such a rejection leaves without cover are exactly those the handled event did not
  wake and whose interest was not armed again since the fetch, those of the rejected source included
  (`FailedRenewalDropsTheRest`; `RejectedRenewalStrandsAWaiter` is a run). When the `modify` of a poll is
  rejected the caller gets the error, but its waker stays stored (`FailedModifyKeepsTheWaiter`). In
  either case later polls of the same direction do not arm it again, because they find it non-empty
  (`UncoveredStep`, `StrandedForGood`). While `modify` succeeds nobody is ever without cover
  (`AcceptedModifiesCoverEverybody`).
- The freshness check compares machine words. `ReadyIffFreshAndNotWrapped` is its exact meaning for
  a word of any width; `ReadyIffFreshDelivery` shows that wrapping does not matter while fewer rounds
  than the word has values have passed, and `FullWrapIsOverlooked` is a run in which exactly that many
  have and a fresh delivery is overlooked. A wrong *ready* is impossible in any case
  (`ReadyMeansOwnEvent`, `SlotReadyMeansOwnEvent`).

## Model

| member | source | states |
|---|---|---|
| `Environment.Put` | src/reactor.rs:638-645 | inserting into a slab stores the value under the chosen vacant key and leaves every other entry alone |
| `TimerOps.FoldConcat` | src/reactor.rs:249-263 | draining in two parts is draining once: first-in first-out application composes |
| `TimerOps.FoldIsPointwise` | src/reactor.rs:249-263 | what queued operations leave at a key depends only on what was at that key |
| `TimerOps.FoldOrigin` | src/reactor.rs:249-263 | an entry after the drain was there before or was inserted by a queued operation |
| `TimerOps.OnlyOwnOpsMatter` | src/reactor.rs:149-179 | a timer's entry is decided by that timer's own operations, whatever other timers push in between |
| `TimerOps.MergesAgree` | src/reactor.rs:149-179 | two merges that keep each timer's own order give the same map |
| `TimerOps.DrainsAreInvisible` | src/reactor.rs:150-158 | wherever drains fall between pushes, the effective map is the fold of what was pushed |
| `TimerOps.InterleavingIndependence` | src/reactor.rs:149-179 | any two schedules with the same per-timer operations, drained anywhere, end with the same effective map |
| `TimerOps.FiringOrder` | src/reactor.rs:79-82 | an earlier instant fires first, and among equal instants the smaller id, that is, the timer registered first |
| `TimerOps.ListingIsUnique` | src/reactor.rs:79-82 | the ascending order of a set of `(when, id)` keys is unique, so the order of firing is determined |
| `TimerStore.Store.constructor` | src/reactor.rs:103-104 | a new store is empty, with the given queue capacity |
| `TimerStore.Store.TryPush` | src/reactor.rs:155-158 | a push fails exactly when the queue is full; otherwise it acts on the effective map as the operation |
| `TimerStore.Store.ProcessTimerOps` | src/reactor.rs:249-263 | at most `capacity` operations are popped however many arrive meanwhile; all that were queued at the start are applied in order; the effective map changes only by what arrived |
| `TimerStore.StartIsApplied` | src/reactor.rs:250-254 | popping `capacity` operations, or until empty, includes everything queued at the start |
| `TimerStore.Store.PushWhenThereIsRoom` | src/reactor.rs:155-158 | the retry loop under any pushes of others, who may refill the queue: the effective map changes by theirs, in order, and then by the operation |
| `TimerStore.Store.InsertTimer` | src/reactor.rs:149-169 | a fresh id; a put on the effective map after what others pushed meanwhile; the poller is notified |
| `TimerStore.Store.RemoveTimer` | src/reactor.rs:172-179 | a delete on the effective map after what others pushed meanwhile |
| `TimerStore.SplitOff` | src/reactor.rs:215-220 | ready is exactly `when <= now`, pending exactly `when > now` |
| `TimerStore.DelayUntilNext` | src/reactor.rs:222-232 | zero if something is ready, nothing if no timer is left, otherwise the exact gap to the earliest |
| `TimerStore.TimeoutIsTheLesser` | src/reactor.rs:285-290 | the timeout of the wait is the time to the next timer or the caller's limit, and neither is less |
| `TimerStore.InOrderLists` | src/reactor.rs:241-243 | taking the first entry again and again lists every key once in ascending order |
| `TimerStore.PopFirst` | src/reactor.rs:241-243 | the first entry in `(when, id)` order is taken and nothing else |
| `TimerStore.TakeInOrder` | src/reactor.rs:241-243 | the ready wakers are appended in ascending `(when, id)` order, each once |
| `TimerStore.Store.TakeDue` | src/reactor.rs:213-245 | a pass removes exactly the due entries, hands over exactly their wakers in order, and answers the exact delay |
| `TimerStore.Store.ProcessTimers` | src/reactor.rs:204-246 | drain and pass under arbitrary arrivals during the drain |
| `TimerStore.Store.Pass` | src/reactor.rs:204-246 | undisturbed, a pass acts on the effective map: due entries out, wakers in order, exact delay |
| `TimerLife.Timer.Never` | src/lib.rs:194-200 | no instant, no registration, the longest period |
| `TimerLife.Timer.After` | src/lib.rs:214-218 | set to now plus the duration, or never when that is out of range |
| `TimerLife.Timer.At` | src/lib.rs:234-236 | set to the instant with the longest period |
| `TimerLife.Timer.Interval` | src/lib.rs:252-256 | first item one period from now, or never when that is out of range |
| `TimerLife.Timer.IntervalAt` | src/lib.rs:273-279 | set to the start with the given period, not registered |
| `TimerLife.Timer.SetAfter` | src/lib.rs:340-348 | sets to now plus the duration, or clears when that is out of range |
| `TimerLife.Timer.SetAt` | src/lib.rs:370-380 | removes the old entry, keeps the period, renews a registration with its old waker and a new id |
| `TimerLife.Timer.SetInterval` | src/lib.rs:402-410 | as `SetIntervalAt` one period from now, or clears when that is out of range |
| `TimerLife.Timer.SetIntervalAt` | src/lib.rs:433-443 | as `SetAt` with a new period |
| `TimerLife.Timer.Clear` | src/lib.rs:446-452 | removes the entry and the instant, keeps the remembered waker |
| `TimerLife.Timer.Drop` | src/lib.rs:455-462 | removes the entry of an armed timer |
| `TimerLife.Timer.PollNext` | src/lib.rs:479-520 | the item, the new fields and the change of the effective map in every branch of a poll |
| `TimerLife.DisarmedNeverFires` | src/lib.rs:482-519 | a timer without an instant answers no item, however often it is polled |
| `TimerLife.LastInstantFiresOnce` | src/lib.rs:489-498 | a timer whose next instant is out of range answers at most one item |
| `TimerLife.SetAtFiresOnceIffPeriodOverflows` | src/lib.rs:350-380 | after `set_at` every sequence of polls gets at most one item if and only if the surviving period overflows from the instant |
| `TimerLife.LongestPeriodAlwaysOverflows` | src/lib.rs:234-236 | timers with the longest period fire once after every `set_at` |
| `TimerLife.PendingPollIsRememberedIffSet` | src/lib.rs:352-380 | a later set registers the waker of a pending poll if and only if the timer was set when polled, or remembered that waker already |
| `TimerSystem.CallsHaveShape` | src/lib.rs:370-520 | every call removes the old key unless the timer keeps it, and inserts at most the new one, last |
| `TimerSystem.InvHolds` | src/lib.rs:144-521 | the invariant of timers and store holds in every state of every interleaving |
| `TimerSystem.TimerAndStoreInStep` | src/lib.rs:145-155 | between calls an armed timer's exact entry is in the store with its waker, or was taken at its instant or later |
| `TimerSystem.NothingLeaks` | src/lib.rs:455-462 | with no call in progress a key is in the store if and only if it is the key of an armed timer that has not been dropped and has not fired |
| `TimerSystem.EveryPollRegistersTheTask` | src/lib.rs:484-519 | every poll that leaves the timer set, whether it answers an item or not, leaves it armed with the polling waker and its entry in the store; one that ends it leaves no registration |
| `TimerSystem.SetRenewsTheRegistration` | src/lib.rs:370-452 | setting renews a registration with its waker at the new instant and makes none where there is none; clearing keeps the waker |
| `TimerSystem.RepeatedPollChangesNothing` | src/lib.rs:505-518 | a pending poll by the task that is registered already pushes nothing and changes nothing |
| `TimerSystem.PendingPollLeavesTaskRegistered` | src/lib.rs:499-519 | a pending poll of a set timer leaves the polling task's waker registered under the timer's key |
| `TimerSystem.NoTimerFiresTwiceOrEarly` | src/reactor.rs:213-243 | no two passes of a run take the same entry; what is recorded as taken stays so, with a time at or after its instant (that a pass takes due entries only is the rule of the step here and proved by `StoreSystem.StepsRefineTheMap`) |
| `TimerSystem.IntervalsDoNotDrift` | src/lib.rs:482-498 | the items since the last set are exactly `start + k * period` with the period that the last creation or `set_interval_at` was given, none before the clock reached it, ending exactly on overflow |
| `TimerSystem.PollAnswersExactlyWhenDue` | src/lib.rs:484-498 | a poll answers the next item of the progression if and only if the clock has reached it |
| `StoreSystem.InvHolds` | src/reactor.rs:149-302 | the invariant of inserters, drainers and the reactor holds in every interleaving |
| `StoreSystem.SplitCovers` | src/reactor.rs:213-232 | after the split every entry left in the map is due no earlier than the wait's intended end |
| `StoreSystem.NoDeadlineIsOverslept` | src/reactor.rs:280-302 | during the wait every registered timer due before its intended end has a pending notification or an inserter about to notify |
| `StoreSystem.WaitIsWithinItsLimit` | src/reactor.rs:280-302 | the intended end of the wait is within the caller's limit, and is that limit, now, or a registered timer's instant |
| `StoreSystem.DrainPopsUpToCapacity` | src/reactor.rs:249-262 | a thread that drains a full queue pops at most `capacity` operations and stops only after that many or at an empty queue, however others push |
| `StoreSystem.QuietWaitEndsInTime` | src/reactor.rs:285-302 | without a notification or such an inserter the wait ends no later than the earliest registered timer |
| `StoreSystem.StepsRefineTheMap` | src/reactor.rs:149-263 | every step of every thread acts on the effective map as the pushed operation, as nothing, or (split) as the removal of exactly the due entries whose insertion is not still queued; so every due entry not pushed since the drain began is gone |
| `StoreSystem.SplitTakesDue` | src/reactor.rs:219-220 | splitting the drained part of the store removes from the effective map exactly the due entries that no queued operation inserts |
| `Directions.Poller.Modify` | src/reactor/unix.rs:43-49 | an accepted `modify` replaces the interest of that handle; a rejected one changes nothing |
| `Directions.Direction.IsEmpty` | src/reactor.rs:409-411 | true exactly when no waker is stored in the slot or the slab |
| `Directions.Direction.DrainInto` | src/reactor.rs:414-423 | the stored wakers are appended, slot first and then by key; slab entries stay occupied |
| `Directions.Direction.Receive` | src/reactor.rs:323-327 | an event sets the tick and drains the direction |
| `Directions.EmptyIffNothingDrained` | src/reactor.rs:407-424 | a direction is empty if and only if draining it yields nothing; afterwards it is empty |
| `Directions.DrainedInOrder` | src/reactor.rs:414-423 | the poll slot's waker leaves first and those of the slab in the order of their keys |
| `Directions.WritersAreCollectedFirst` | src/reactor.rs:322-328 | of the wakers an event collects the writers' come first, and nobody else's are collected |
| `Directions.SlotPollConservesWakers` | src/reactor.rs:440-482 | a poll that is not ready leaves its waker in the slot and answers the one it displaces; counted over the direction, no waker is lost or doubled; interest changes exactly if nobody waited |
| `Directions.SlotAnswersOnce` | src/reactor.rs:443-451 | after a ready answer the slot is not ready again until a waker is stored |
| `Directions.FuturePollConservesWakers` | src/reactor.rs:613-667 | a poll that is not ready leaves its waker in the future's own entry in place of the one before and moves no other; a ready one changes nothing |
| `Directions.FutureDropConservesWakers` | src/reactor.rs:669-680 | a drop takes the future's own waker away, if it is still stored, and no other |
| `Directions.EventConservesWakers` | src/reactor.rs:322-328 | an event moves exactly the wakers of its directions from the source to the list |
| `Directions.Source.HandleEvent` | src/reactor.rs:319-345 | both directions after an event, the wakers in the source's order, and the renewed interest or the error |
| `Directions.Source.PollReady` | src/reactor.rs:440-482 | `poll_ready` in every branch: readiness, the stored and the replaced waker, ticks, interest, error |
| `Directions.Ready.Register` | src/reactor.rs:635-645 | the first poll takes a slab entry and remembers the ticks, later polls replace the waker |
| `Directions.Ready.Poll` | src/reactor.rs:613-667 | `Ready::poll` in every branch |
| `Directions.Ready.Drop` | src/reactor.rs:669-680 | dropping frees the future's own entry if it has one |
| `IoReactor.Reactor.constructor` | src/reactor.rs:98-105 | no sources and ticker zero |
| `IoReactor.Reactor.Handle` | src/reactor.rs:317-346 | one event of the list: looked up by key, delivered, interest renewed, or skipped when the key is vacant |
| `IoReactor.Reactor.HandleEvents` | src/reactor.rs:313-349 | the whole list, ending at the first failed renewal |
| `IoReactor.FailureStays` | src/reactor.rs:343-343 | after a failed renewal no later event has any effect |
| `IoReactor.EventsConserveWakers` | src/reactor.rs:317-346 | for every waker, collected plus stored copies stay constant over the list of events |
| `IoReactor.HandledSourceIsCovered` | src/reactor.rs:330-344 | after an event the source's interest is armed in every direction that still has waiters |
| `IoReactor.Reactor.AfterWait` | src/reactor.rs:301-366 | `react` after the wait for every outcome of the wait |
| `IoReactor.Reactor.React` | src/reactor.rs:274-367 | one call: first pass, timeout, ticker bump with wrap-around, and the rest as `AfterWait` |
| `IoReactor.WaitersLeft` | src/reactor.rs:319-344 | while nothing fails, a direction still has waiters exactly if it had some before the loop and no event so far was for it |
| `IoReactor.LoopFailsIffRejected` | src/reactor.rs:330-344 | the loop fails exactly if the poller rejects the renewal for an event that leaves a waiter, told from the table and the events alone |
| `IoReactor.ReactConservesWakers` | src/reactor.rs:280-366 | the call fails exactly under that condition; without it exactly the wakers that left timers and sources are woken, each once; with it nobody is woken and the collected ones are gone |
| `IoReactor.EventGivesItsTick` | src/reactor.rs:322-328 | an event sets the tick of its directions to the tick of this call and of no other direction; entries, remembered ticks and handles stay |
| `IoReactor.LoopGivesItsTick` | src/reactor.rs:317-328 | after the loop a direction carries this call's tick if some event was for it, and otherwise the one it had |
| `IoReactor.LoopArmsItsSources` | src/reactor.rs:330-344 | after a loop without failure every source that had an event is armed for all that still wait, and no other source's interest changed |
| `IoReactor.TimedOutWaitFiresWhatIsDue` | src/reactor.rs:301-366 | a wait that ends without events, and was not told to return at once, leaves no timer due by then and wakes each such timer's waker once; however else it ends no timer is touched |
| `IoReactor.LosesWakersIff` | src/reactor.rs:343-364 | a call loses wakers exactly if some had been collected before a rejected renewal |
| `LostWakers.RejectedRenewalLosesWakers` | src/reactor.rs:343-364 | a call in which a fired timer's waker and a drained reader's are neither woken nor stored afterwards |
| `IoReactor.Reactor.InsertIo` | src/reactor.rs:115-137 | a registered source at its key, or, when the poller refuses, a slab without it |
| `IoReactor.Reactor.RemoveIo` | src/reactor.rs:140-144 | the entry leaves the slab and the poller whatever the poller answers |
| `IoReactor.NewNonblocking` | src/lib.rs:682-691 | a handle exists exactly when the source was registered; otherwise the inserted source is removed, once, and the poller is as before |
| `IoReactor.Async.IntoInner` | src/lib.rs:879-883 | the source is removed exactly once, on the error path too |
| `IoReactor.Async.Drop` | src/lib.rs:1159-1169 | the source is removed if and only if the handle still owns its inner object |
| `IoSystem.InvHolds` | src/reactor.rs:115-680 | the invariant of sources, futures and the reactor holds in every interleaving |
| `IoSystem.WaitersAreCovered` | src/reactor.rs:302-346 | every direction with a stored waker is armed, about to be armed, or has an event in flight, unless a `modify` failed on its account |
| `IoSystem.PendingPollIsStoredAndAttended` | src/reactor.rs:440-482 | a poll that is not ready, of the slot or of a future, leaves its task's waker stored, and attended unless a `modify` failed on that source's account |
| `IoSystem.FirstPollIsRemembered` | src/reactor.rs:635-645 | the entry and the ticks that a future takes at its first poll stay the same for the rest of its life |
| `IoSystem.AcceptedModifiesCoverEverybody` | src/reactor.rs:453-479 | while every `modify` succeeds no stored waker is ever without cover |
| `IoSystem.RejectionEndsTheLoopIff` | src/reactor.rs:330-344 | a rejection ends the loop exactly if the handled event leaves a waiter of its source |
| `IoSystem.FailedRenewalDropsTheRest` | src/reactor.rs:343-343 | after a failed renewal every source's waiter, the rejected one's included, is covered if and only if it was armed or about to be; who still waits is exact too |
| `IoSystem.FailedModifyKeepsTheWaiter` | src/reactor.rs:453-479 | after a failed `modify` of a poll all wakers are still stored, and cover is exactly what it was without that source's promise to be armed |
| `IoSystem.UncoveredStep` | src/reactor.rs:453-479 | no step gives an uncovered waiter cover, polls of its own direction included, except a first poll of the other direction or a fetch on account of that one |
| `IoSystem.StrandedForGood` | src/reactor.rs:613-667 | an uncovered waiter of a disarmed source stays uncovered over any run in which it waits on and nobody polls the other direction |
| `RejectedRenewal.RejectedRenewalStrandsAWaiter` | src/reactor.rs:343-343 | there is a run in which a failed renewal leaves the waiter of its own source and that of another source uncovered and disarmed |
| `IoSystem.FreshIffNewAndNotWrapped` | src/reactor.rs:624-631 | the comparison of machine words succeeds if and only if the delivery is newer and no whole number of wraps away |
| `IoSystem.ReadyIffFreshDelivery` | src/reactor.rs:624-645 | while fewer rounds than the ticker's word has values separate the remembered delivery from now, for any width, a polled future is ready if and only if a round begun after its first poll has delivered an event in its direction |
| `IoSystem.ReadyIffFreshAndNotWrapped` | src/reactor.rs:624-645 | the same without the bound, with the exact wrap-around condition |
| `IoSystem.ReadyMeansOwnEvent` | src/reactor.rs:115-144 | readiness always comes from an event fetched for the future's own source in a fresh round, however keys are reused |
| `IoSystem.SlotReadyIffFreshDelivery` | src/reactor.rs:443-465 | the same exactness for the poll slot, counted from the last time its waker was stored |
| `IoSystem.SlotReadyIffFreshAndNotWrapped` | src/reactor.rs:443-465 | the same without the bound, with the exact wrap-around condition |
| `IoSystem.SlotReadyMeansOwnEvent` | src/reactor.rs:443-465 | readiness of the poll slot too always comes from an event fetched for its own source in a fresh round |
| `WrappedTicker.FullWrapIsOverlooked` | src/reactor.rs:292-297 | for every width there is a run in which a delivery a full wrap after the poll is not reported as ready |
| `IoSystem.FutureCanAlwaysBePolled` | src/reactor.rs:635-645 | the slab entry that a live future remembers is always there, so polling it never indexes a missing one |
| `IoSystem.ReadyStrandsNobody` | src/reactor.rs:444-465 | readiness is never answered while the slot, or the future's own entry, still holds a waker |
| `IoSystem.DropRemovesOnlyItsOwn` | src/reactor.rs:669-680 | polled futures own distinct entries; a drop frees its own and leaves every other future's as it was |
| `IoSystem.NoEntryOutlivesItsFuture` | src/reactor.rs:669-680 | a direction without futures has no occupied slab entry |
| `IoSystem.DeregisteredExactlyOnce` | src/reactor.rs:115-144 | a source leaves the slab at most once, at a key that still holds it, is gone exactly when removed, and stays gone |
| `BlockOnSystem.InvHolds` | src/driver.rs:114-294 | flags, lock, tokens, wakers and counters satisfy the invariant in every interleaving |
| `BlockOnSystem.MoveKeepsConsistent` | src/driver.rs:202-292 | one thread's own step keeps flags, place and counters consistent |
| `BlockOnSystem.MoveTracksLock` | src/driver.rs:219-283 | the reactor lock is held exactly at the places between taking and dropping it |
| `BlockOnSystem.NoLostWakeup` | src/driver.rs:166-173 | between the last token check and the return of the wait, a set token means a pending notification or a waker on its way |
| `BlockOnSystem.WakeupArrives` | src/driver.rs:166-173 | that waker needs at most three steps of its own, never blocked, and then the notification is pending |
| `BlockOnSystem.PollingWakerHoldsTheLock` | src/driver.rs:166-172 | a waker body on a thread with the polling flag runs under the reactor lock, and no thread is near the wait |
| `BlockOnSystem.FlagWithoutLockIffHogged` | src/driver.rs:241-283 | the polling flag is set without the lock exactly in the branch that stops hogging the reactor |
| `BlockOnSystem.OneThreadWaits` | src/driver.rs:187-199 | at most one thread is near the poller's wait |
| `BlockOnSystem.PollsArePaidFor` | src/driver.rs:202-292 | polls equal one plus consumed tokens, bounded by newly set tokens plus the initial one; a finished future is not polled |
| `BlockOnSystem.EveryPollFollowsOneToken` | src/driver.rs:202-292 | every later poll is started by the thread's own step, with exactly one token consumed per poll |
| `BlockOnSystem.ConsumedTokenLeadsToPoll` | src/driver.rs:215-291 | after a token has been consumed the thread polls with its sixth step at the latest, is never blocked before that, and nothing but a poll ends this, whatever others do |
| `BlockOnSystem.SetTokenLeadsToPoll` | src/driver.rs:202-292 | a set token leads to a poll with the thread's ninth step at the latest, from anywhere in the call, and the thread is never blocked before that |
| `BlockOnSystem.UnparkSetsTheToken` | src/driver.rs:164-166 | every wake leaves the token of its target set, and touches no other token |
| `BlockOnSystem.UnwokenThreadSleeps` | src/driver.rs:232-291 | without a token a thread is in the poller's wait or parks by its ninth step: it does not spin |
| `BlockOnSystem.NobodyParksInVain` | src/driver.rs:268-290 | a thread parks only while another one holds the reactor, or after it has served it for its time and given it up |
| `BlockOnSystem.FreeReactorIsTaken` | src/driver.rs:219-233 | a thread that tries for the reactor gets it exactly if it is free; if not it polls or parks, depending on whether it has consumed a token |
| `BlockOnSystem.QuickPassWaits` | src/driver.rs:219-228 | a thread that takes the reactor for a quick pass goes through the poller's wait before anything else |
| `BlockOnSystem.WaitLeadsToWakeLoop` | src/reactor.rs:361-364 | whoever returns from the wait goes through the wake loop next, under the reactor lock |
| `BlockOnSystem.OnlyTheBlockedAreNotified` | src/driver.rs:166-171 | the poller is notified only on behalf of a blocked thread, and never by a thread that polls it |
| `BlockOnSystem.ReadyFutureReturns` | src/driver.rs:204-211 | the call returns with its next step exactly after the future has answered ready |
| `BlockOnSystem.ReturnResetsTheToken` | src/driver.rs:204-211 | a call returns only after its future finished, with the token reset, the flags cleared and without the reactor lock |
| `Helper.MainLoop.OneTurn` | src/driver.rs:55-97 | one turn of the loop: when it goes for the reactor, how long it parks, the next state |
| `Helper.MainLoop.RunToReaction` | src/driver.rs:55-97 | in a quiet world the loop goes for the reactor within 11 turns and 20,225 microseconds of parking |
| `Helper.ReactsByLatest` | src/driver.rs:58-76 | the turn of the first reaction, from any `sleeps` and `last_tick` |
| `Helper.ReactsWithinEleven` | src/driver.rs:58-76 | one of the first eleven turns goes for the reactor, from any state |
| `Helper.PausesGrow` | src/driver.rs:78-82 | the ten pauses of an undisturbed helper, one by one |
| `Helper.NextTurn` | src/driver.rs:55-96 | what the turn after each turn does: it goes for the reactor only if nobody has served it since, and starts over after a notification and after `react` |
| `Helper.ParkedIsBounded` | src/driver.rs:78-96 | the parking before that turn is at most 20,225 microseconds |
| `Helper.BoundsAreTight` | src/driver.rs:58-96 | both bounds are reached when others keep the lock |

## Left out

- The polling backends and `Registration`: thin calls into the system, represented by the abstract poller and its answers.
- Socket creation and the `AsyncRead`/`AsyncWrite` wrappers: loops that try a system call and wait for readiness in between; they keep no state of their own.
- Panic catching, mutex poisoning, weak memory orderings and wakers that re-enter the reactor.
- BlockOnSystem: `block_on` is a state machine with one step per atomic access instead of a method with nested loops, because other threads act between any two accesses; `helper.dfy` keeps the main loop as a loop.
- BlockOnSystem: `react` appears in it as its wait and its wake loop; which wakers the loop wakes is arbitrary.
- TimerOps: ids of timers are unbounded, so the wrap-around of the id generator, which is as wide as the machine word, is not modelled.
- Environment: instants are not negative, and `will_wake` is equality of handles.
- TimerLife.Timer: its methods call the store undisturbed; calls of timers that others interleave with are in `TimerSystem`.
- TimerSystem.NoTimerFiresTwiceOrEarly: that a pass takes no entry early is the rule of its `Collect` step, justified by `StoreSystem.StepsRefineTheMap`.
- IoSystem: the loop over the slab in `drain_into` and the order of wakers are in `direction.dfy` only.
- The unpark of the helper by `block_on` and the count of active calls appear only as inputs of the helper's loop.
- Termination of the future given to `block_on`, and fairness of the scheduler.
