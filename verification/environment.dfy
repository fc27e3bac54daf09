/** The world outside the reactor, as every other module sees it: wakers, the clock, machine words
    and the entries of a slab.

    The assumptions the models share are stated here once.
    - The clock never goes back. Every step that reads it takes a reading that is at least the
      previous one.
    - A notification of the poller is sticky: it ends the current wait or, if nobody waits, the
      next one.
    - The poller refuses to add a handle that it already watches.
    - The poller is one-shot: fetching an event of a source disarms its interest in both
      directions until the next `modify`; after `delete` no event of the source is fetched.
    - `unpark` answers true exactly when it newly sets the token, and parking ends only by
      consuming the token.
    - Mutexes exclude each other and atomics are sequentially consistent.
*/
module Environment {

  datatype Option<+T> = None | Some(value: T)

  /** The identity of a task handle. Two wakers `will_wake` each other when they are equal. */
  type Waker = nat

  /** Nanoseconds since the origin of the monotone clock. */
  type Instant = nat

  /** The largest instant: 2^63 - 1 whole seconds and 999_999_999 nanoseconds. */
  const MAX_INSTANT: Instant := 0x7fff_ffff_ffff_ffff * 1_000_000_000 + 999_999_999

  /** The largest duration: 2^64 - 1 whole seconds and 999_999_999 nanoseconds. */
  const MAX_DURATION: nat := 0xffff_ffff_ffff_ffff * 1_000_000_000 + 999_999_999

  /** `Instant::checked_add`. */
  function CheckedAdd(at: Instant, period: nat): Option<Instant> {
    if at + period <= MAX_INSTANT then Some(at + period) else None
  }

  type Positive = n: nat | 0 < n witness 1

  /** The number of values of the machine word that counts reactor rounds. Its width differs between
      the platforms; whatever is proved holds for every width. */
  const WORDS: Positive

  /** An entry of a slab. */
  datatype Slot<+T> = Vacant | Occupied(value: T)

  /** The keys a slab may hand out for its next entry: any vacant one, or a new one at the end. */
  predicate Available<T>(slots: seq<Slot<T>>, key: nat) {
    key == |slots| || (key < |slots| && slots[key].Vacant?)
  }

  /** The slab after storing `value` under an available key. */
  function Put<T>(slots: seq<Slot<T>>, key: nat, value: T): (r: seq<Slot<T>>)
    requires Available(slots, key)
    ensures |r| >= |slots| && key < |r| && r[key] == Occupied(value)
    ensures forall i | 0 <= i < |slots| && i != key :: r[i] == slots[i]
  {
    if key == |slots| then slots + [Occupied(value)] else slots[key := Occupied(value)]
  }

  predicate Holds<T>(slots: seq<Slot<T>>, key: nat) {
    key < |slots| && slots[key].Occupied?
  }
}
