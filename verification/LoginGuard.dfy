/** The login policy over the attempt store, and what it means for whole histories of one key. */
module LoginGuard {
  import opened Wrappers
  import opened LoginAttempts

  const SECOND: int := 1_000_000_000

  /** The limits of a guard; the configuration replaces non-positive ones by defaults. */
  datatype Policy = Policy(maxFailures: int, window: int, lockout: int)

  predicate Sensible(p: Policy) {
    p.maxFailures > 0 && p.window > 0 && p.lockout > 0
  }

  function RetryAfterSeconds(d: int): int {
    if d <= 0 then 1 else (d + SECOND - 1) / SECOND
  }

  class LoginAttemptGuard {
    const policy: Policy
    const store: InMemoryLoginAttemptStore

    constructor (policy: Policy, store: InMemoryLoginAttemptStore)
      ensures this.policy == policy && this.store == store
    {
      this.policy := policy;
      this.store := store;
    }

    /** How long to wait, and whether the attempt may go on. */
    method Allow(key: LoginKey, now: int) returns (wait: int, allowed: bool)
      requires store.Valid()
      modifies store.Repr
      ensures store.Valid() && fresh(store.Repr - old(store.Repr))
      ensures var s := Pruned(StateAt(old(store.View), key), now, policy.window);
              store.View == WithState(old(store.View), key, s) && (wait, allowed) == Judgement(s, now)
    {
      hide Pruned;
      var s := store.Snapshot(key, now, policy.window);
      if s.lockedUntil.Some? && s.lockedUntil.value > now {
        return s.lockedUntil.value - now, false;
      }
      return 0, true;
    }

    method RecordFailure(key: LoginKey, now: int)
      requires store.Valid()
      modifies store.Repr
      ensures store.Valid() && fresh(store.Repr - old(store.Repr))
      ensures store.View == old(store.View)[key :=
                Recorded(StateAt(old(store.View), key), now, policy.window, policy.lockout, policy.maxFailures)]
    {
      store.RecordFailure(key, now, policy.window, policy.lockout, policy.maxFailures);
    }

    method Reset(key: LoginKey)
      requires store.Valid()
      modifies store
      ensures store.Valid() && store.Repr == old(store.Repr) && store.View == old(store.View) - {key}
    {
      store.Reset(key);
    }
  }

  function Judgement(s: AttemptSnapshot, now: int): (r: (int, bool)) {
    if s.lockedUntil.Some? && s.lockedUntil.value > now then (s.lockedUntil.value - now, false) else (0, true)
  }

  // ---------------------------------------------------------------- histories of one key

  datatype Event = Failure(at: int) | Check(at: int) | Cleared

  /** The state of a key after one more event. */
  function Stepped(s: AttemptSnapshot, e: Event, p: Policy): AttemptSnapshot {
    match e
    case Failure(at) => Recorded(s, at, p.window, p.lockout, p.maxFailures)
    case Check(at) => Pruned(s, at, p.window)
    case Cleared => EMPTY
  }

  /** The stored state of a key after a history, oldest event first. */
  function StateOf(h: seq<Event>, p: Policy): AttemptSnapshot
    decreases |h|
  {
    if h == [] then EMPTY
    else Stepped(StateOf(h[..|h| - 1], p), h[|h| - 1], p)
  }

  /** Every failure since the last reset, with nothing forgotten. */
  function Since(h: seq<Event>): seq<int>
    decreases |h|
  {
    if h == [] then []
    else
      match h[|h| - 1]
      case Failure(at) => Since(h[..|h| - 1]) + [at]
      case Check(_) => Since(h[..|h| - 1])
      case Cleared => []
  }

  /** The clock never goes back, up to `now`. */
  predicate Ordered(h: seq<Event>, now: int)
    decreases |h|
  {
    h != [] ==>
      match h[|h| - 1]
      case Cleared => Ordered(h[..|h| - 1], now)
      case e => e.at <= now && Ordered(h[..|h| - 1], e.at)
  }

  /** How many of the times lie in (low, high]. */
  function Count(times: seq<int>, low: int, high: int): nat
    decreases |times|
  {
    if times == [] then 0
    else Count(times[..|times| - 1], low, high) + if low < times[|times| - 1] <= high then 1 else 0
  }

  /** Failure i came with at least maxFailures failures in the window that ends with it. */
  predicate Locks(since: seq<int>, p: Policy, i: nat)
    requires i < |since|
  {
    Count(since, since[i] - p.window, since[i]) >= p.maxFailures
  }

  predicate LockedAt(since: seq<int>, p: Policy, now: int) {
    exists i :: 0 <= i < |since| && Locks(since, p, i) && since[i] + p.lockout > now
  }

  predicate Sorted(times: seq<int>) {
    forall i, j :: 0 <= i <= j < |times| ==> times[i] <= times[j]
  }

  // ---------------------------------------------------------------- many keys

  datatype Keyed = Keyed(key: LoginKey, event: Event)

  /** The store's table after the call that the event stands for. */
  function ViewStep(v: View, k: Keyed, p: Policy): View {
    match k.event
    case Failure(at) => v[k.key := Recorded(StateAt(v, k.key), at, p.window, p.lockout, p.maxFailures)]
    case Check(at) => WithState(v, k.key, Pruned(StateAt(v, k.key), at, p.window))
    case Cleared => v - {k.key}
  }

  function ViewAfter(h: seq<Keyed>, p: Policy): View
    decreases |h|
  {
    if h == [] then map[] else ViewStep(ViewAfter(h[..|h| - 1], p), h[|h| - 1], p)
  }

  function EventsOf(h: seq<Keyed>, key: LoginKey): seq<Event>
    decreases |h|
  {
    if h == [] then []
    else
      var events := EventsOf(h[..|h| - 1], key);
      if h[|h| - 1].key == key then events + [h[|h| - 1].event] else events
  }

  lemma ViewStepAt(v: View, k: Keyed, p: Policy, key: LoginKey)
    ensures StateAt(ViewStep(v, k, p), key)
         == if key == k.key then Stepped(StateAt(v, key), k.event, p) else StateAt(v, key)
  {
    hide Recorded, Pruned;
  }

  /** Each key's entry is what its own history alone would leave. */
  lemma {:induction false} KeysAreIndependent(h: seq<Keyed>, p: Policy, key: LoginKey)
    ensures StateAt(ViewAfter(h, p), key) == StateOf(EventsOf(h, key), p)
    decreases |h|
  {
    hide ViewStep, Stepped, StateAt;
    if h == [] {
      NothingStored(key);
    } else {
      var init, k := h[..|h| - 1], h[|h| - 1];
      KeysAreIndependent(init, p, key);
      ViewStepAt(ViewAfter(init, p), k, p, key);
      var events := EventsOf(init, key);
      assert (events + [k.event])[..|events|] == events;
    }
  }

  lemma NothingStored(key: LoginKey)
    ensures StateAt(map[], key) == EMPTY
  {
  }

  // ---------------------------------------------------------------- counting and pruning

  lemma {:induction false} SinceSorted(h: seq<Event>, now: int)
    requires Ordered(h, now)
    ensures Sorted(Since(h)) && forall i :: 0 <= i < |Since(h)| ==> Since(h)[i] <= now
    decreases |h|
  {
    if h != [] {
      match h[|h| - 1] {
        case Cleared =>
        case Failure(at) => SinceSorted(h[..|h| - 1], at);
        case Check(at) => SinceSorted(h[..|h| - 1], at);
      }
    }
  }

  /** Pruning twice is pruning by the later cutoff. */
  lemma {:induction false} LaterTwice(times: seq<int>, a: int, b: int)
    requires a <= b
    ensures Later(Later(times, a), b) == Later(times, b)
    decreases |times|
  {
    if times != [] {
      var init, last := times[..|times| - 1], times[|times| - 1];
      LaterTwice(init, a, b);
      if last > a {
        var kept := Later(init, a) + [last];
        assert kept[..|kept| - 1] == Later(init, a);
      }
    }
  }

  lemma LaterAppend(times: seq<int>, t: int, cutoff: int)
    ensures Later(times + [t], cutoff) == Later(times, cutoff) + if t > cutoff then [t] else []
  {
    assert (times + [t])[..|times|] == times;
  }

  lemma CountAppend(times: seq<int>, t: int, low: int, high: int)
    ensures Count(times + [t], low, high) == Count(times, low, high) + if low < t <= high then 1 else 0
  {
    assert (times + [t])[..|times|] == times;
  }

  /** As long as nothing is newer than `high`, the pruned list is the count. */
  lemma {:induction false} LaterCounts(times: seq<int>, low: int, high: int)
    requires forall i :: 0 <= i < |times| ==> times[i] <= high
    ensures |Later(times, low)| == Count(times, low, high)
    decreases |times|
  {
    if times != [] {
      LaterCounts(times[..|times| - 1], low, high);
    }
  }

  // ---------------------------------------------------------------- locking

  /** The latest failure that completed a full window when it was recorded. */
  function LastLock(since: seq<int>, p: Policy): Option<int>
    decreases |since|
  {
    if since == [] then None
    else
      var last := since[|since| - 1];
      if Count(since, last - p.window, last) >= p.maxFailures then Some(last) else LastLock(since[..|since| - 1], p)
  }

  function Until(lock: Option<int>, lockout: int): Option<int> {
    if lock.None? then None else Some(lock.value + lockout)
  }

  lemma {:induction false} LastLockLocks(since: seq<int>, p: Policy)
    requires LastLock(since, p).Some?
    ensures exists i :: 0 <= i < |since| && since[i] == LastLock(since, p).value && Locks(since, p, i)
    decreases |since|
  {
    var n := |since| - 1;
    var last := since[n];
    if Count(since, last - p.window, last) >= p.maxFailures {
      assert Locks(since, p, n);
    } else {
      LastLockLocks(since[..n], p);
      var i :| 0 <= i < n && since[..n][i] == LastLock(since, p).value && Locks(since[..n], p, i);
      assert since == since[..n] + [last];
      CountAppend(since[..n], last, since[i] - p.window, since[i]);
      assert Locks(since, p, i);
    }
  }

  lemma {:induction false} LocksBeforeLast(since: seq<int>, p: Policy, i: nat)
    requires Sorted(since) && i < |since| && Locks(since, p, i)
    ensures LastLock(since, p).Some? && LastLock(since, p).value >= since[i]
    decreases |since|
  {
    hide Count;
    var n := |since| - 1;
    var last := since[n];
    if Count(since, last - p.window, last) < p.maxFailures {
      assert since[i] < last;
      assert since == since[..n] + [last];
      CountAppend(since[..n], last, since[i] - p.window, since[i]);
      assert Locks(since[..n], p, i);
      LocksBeforeLast(since[..n], p, i);
    }
  }

  lemma {:induction false} LockedIsLastLock(since: seq<int>, p: Policy, now: int)
    requires Sorted(since)
    ensures LockedAt(since, p, now) <==> StillLocked(Until(LastLock(since, p), p.lockout), now).Some?
  {
    if LockedAt(since, p, now) {
      var i :| 0 <= i < |since| && Locks(since, p, i) && since[i] + p.lockout > now;
      LocksBeforeLast(since, p, i);
    }
    if LastLock(since, p).Some? {
      LastLockLocks(since, p);
    }
  }

  /** The pruned, compacted store remembers exactly what the whole history says, at any later time. */
  lemma {:induction false} StoreRemembers(h: seq<Event>, p: Policy, now: int)
    requires Sensible(p) && Ordered(h, now)
    ensures Pruned(StateOf(h, p), now, p.window)
         == AttemptSnapshot(Later(Since(h), now - p.window), StillLocked(Until(LastLock(Since(h), p), p.lockout), now))
    decreases |h|
  {
    hide Count, Later, LastLock;
    if h == [] {
      NothingRemembered(p, now);
    } else {
      var init := h[..|h| - 1];
      match h[|h| - 1] {
        case Cleared =>
          NothingRemembered(p, now);
        case Check(at) =>
          StoreRemembers(init, p, at);
          LaterTwice(Since(init), at - p.window, now - p.window);
        case Failure(at) =>
          StoreRemembers(init, p, at);
          FailureRemembered(init, p, at, now);
      }
    }
  }

  lemma NothingRemembered(p: Policy, now: int)
    ensures Later([], now - p.window) == [] && LastLock([], p) == None
  {
  }

  lemma FailureRemembered(init: seq<Event>, p: Policy, at: int, now: int)
    requires Sensible(p) && Ordered(init, at) && at <= now
    requires Pruned(StateOf(init, p), at, p.window)
          == AttemptSnapshot(Later(Since(init), at - p.window),
                             StillLocked(Until(LastLock(Since(init), p), p.lockout), at))
    ensures Pruned(Recorded(StateOf(init, p), at, p.window, p.lockout, p.maxFailures), now, p.window)
         == AttemptSnapshot(Later(Since(init) + [at], now - p.window),
                            StillLocked(Until(LastLock(Since(init) + [at], p), p.lockout), now))
  {
    hide StateOf, Later, Count, LastLock;
    var since := Since(init);
    SinceSorted(init, at);
    hide Since, Ordered;
    LaterTwice(since, at - p.window, now - p.window);
    LaterAppend(Later(since, at - p.window), at, now - p.window);
    LaterAppend(since, at, now - p.window);
    LockRemembered(since, p, at, now);
  }

  lemma LockRemembered(since: seq<int>, p: Policy, at: int, now: int)
    requires Sensible(p) && at <= now && forall i :: 0 <= i < |since| ==> since[i] <= at
    ensures var locked := if |Later(since, at - p.window)| + 1 >= p.maxFailures then Some(at + p.lockout)
                          else StillLocked(Until(LastLock(since, p), p.lockout), at);
            StillLocked(locked, now) == StillLocked(Until(LastLock(since + [at], p), p.lockout), now)
  {
    hide Later, Count, LastLock;
    LaterCounts(since, at - p.window, at);
    CountAppend(since, at, at - p.window, at);
    LastLockAppend(since, p, at);
  }

  lemma LastLockAppend(since: seq<int>, p: Policy, at: int)
    ensures LastLock(since + [at], p)
         == if Count(since + [at], at - p.window, at) >= p.maxFailures then Some(at) else LastLock(since, p)
  {
    hide Count;
    assert (since + [at])[..|since|] == since;
  }

  /**
   * Under a clock that never goes back, the list that is kept in place equals the failures since the
   * last reset that lie in the window, and an attempt is refused exactly if some failure since the
   * reset completed a full window less than a lockout ago.
   */
  lemma {:induction false} GuardRefinesHistory(h: seq<Event>, p: Policy, now: int)
    requires Sensible(p) && Ordered(h, now)
    ensures var s := Pruned(StateOf(h, p), now, p.window);
            && s.failures == Later(Since(h), now - p.window)
            && (Judgement(s, now).1 <==> !LockedAt(Since(h), p, now))
  {
    StoreRemembers(h, p, now);
    SinceSorted(h, now);
    LockedIsLastLock(Since(h), p, now);
    hide StateOf, Later, LastLock, LockedAt;
  }

  lemma {:induction false} ChecksChangeNothing(h: seq<Event>, checks: seq<Event>)
    requires forall i :: 0 <= i < |checks| ==> checks[i].Check?
    ensures Since(h + checks) == Since(h)
    decreases |checks|
  {
    if checks == [] {
      assert h + checks == h;
    } else {
      assert (h + checks)[..|h + checks| - 1] == h + checks[..|checks| - 1];
      ChecksChangeNothing(h, checks[..|checks| - 1]);
    }
  }

  /**
   * Without a new failure, and however often it is checked meanwhile, the attempt is admitted exactly
   * once the time that was told is over. The advertised seconds are enough, and no fewer are.
   */
  lemma RetryAfterIsExact(h: seq<Event>, checks: seq<Event>, p: Policy, now: int, later: int)
    requires Sensible(p) && Ordered(h, now) && Ordered(h + checks, later)
    requires forall i :: 0 <= i < |checks| ==> checks[i].Check?
    requires !Judgement(Pruned(StateOf(h, p), now, p.window), now).1
    ensures var wait := Judgement(Pruned(StateOf(h, p), now, p.window), now).0;
            var admitted := Judgement(Pruned(StateOf(h + checks, p), later, p.window), later).1;
            && (admitted <==> later >= now + wait)
            && (later >= now + RetryAfterSeconds(wait) * SECOND ==> admitted)
            && (later <= now + (RetryAfterSeconds(wait) - 1) * SECOND ==> !admitted)
  {
    StoreRemembers(h, p, now);
    StoreRemembers(h + checks, p, later);
    ChecksChangeNothing(h, checks);
    hide StateOf, Later, LastLock, Since, Ordered;
  }

  // ---------------------------------------------------------------- guarded histories

  /** Every failure was recorded at a moment at which the guard admitted the attempt. */
  predicate Guarded(h: seq<Event>, p: Policy)
    decreases |h|
  {
    h != [] ==>
      && Guarded(h[..|h| - 1], p)
      && (h[|h| - 1].Failure? ==>
            var at := h[|h| - 1].at;
            Judgement(Pruned(StateOf(h[..|h| - 1], p), at, p.window), at).1)
  }

  /** No window that ends with a failure holds more failures than the limit. */
  predicate Bounded(since: seq<int>, p: Policy) {
    forall i :: 0 <= i < |since| ==> Count(since, since[i] - p.window, since[i]) <= p.maxFailures
  }

  lemma {:induction false} CountMonotone(times: seq<int>, low: int, high: int, low': int, high': int)
    requires low' <= low && high <= high'
    ensures Count(times, low, high) <= Count(times, low', high')
    decreases |times|
  {
    if times != [] {
      CountMonotone(times[..|times| - 1], low, high, low', high');
    }
  }

  lemma {:induction false} CountNothing(times: seq<int>, low: int, high: int)
    requires forall i :: 0 <= i < |times| ==> times[i] <= low
    ensures Count(times, low, high) == 0
    decreases |times|
  {
    if times != [] {
      CountNothing(times[..|times| - 1], low, high);
    }
  }

  /** If nothing locks any more, fewer failures than the limit are left in the window. */
  lemma {:induction false} UnlockedHasRoom(since: seq<int>, p: Policy, now: int)
    requires Sensible(p) && p.lockout >= p.window && Sorted(since)
    requires forall i :: 0 <= i < |since| ==> since[i] <= now
    requires !LockedAt(since, p, now)
    ensures Count(since, now - p.window, now) < p.maxFailures
  {
    if since == [] {
      CountNothing(since, now - p.window, now);
    } else {
      var n := |since| - 1;
      if since[n] <= now - p.window {
        CountNothing(since, now - p.window, now);
      } else {
        assert !Locks(since, p, n);
        CountUpToLast(since, now - p.window, now);
        CountMonotone(since, now - p.window, since[n], since[n] - p.window, since[n]);
      }
    }
  }

  /** Above the newest time there is nothing to count. */
  lemma {:induction false} CountUpToLast(times: seq<int>, low: int, high: int)
    requires Sorted(times) && times != [] && times[|times| - 1] <= high
    ensures Count(times, low, high) == Count(times, low, times[|times| - 1])
  {
    LaterCounts(times, low, high);
    LaterCounts(times, low, times[|times| - 1]);
  }

  /**
   * With a lockout at least as long as the window, and every failure recorded only after it was
   * admitted, the stored list never exceeds the limit and no window of time between two resets holds
   * more failures than that.
   */
  lemma {:induction false} GuardedFailuresBounded(h: seq<Event>, p: Policy, now: int, start: int)
    requires Sensible(p) && p.lockout >= p.window && Ordered(h, now) && Guarded(h, p)
    ensures |StateOf(h, p).failures| <= p.maxFailures
    ensures Bounded(Since(h), p)
    ensures Count(Since(h), start, start + p.window) <= p.maxFailures
    decreases |h|
  {
    hide Count, Later, Sorted, Bounded, LockedAt;
    if h == [] {
      NothingCounted(p, start);
    } else {
      var init := h[..|h| - 1];
      match h[|h| - 1] {
        case Cleared =>
          NothingCounted(p, start);
        case Check(at) =>
          PrunedShrinks(StateOf(init, p), at, p);
          GuardedFailuresBounded(init, p, at, start);
        case Failure(at) =>
          GuardedFailuresBounded(init, p, at, start);
          GuardRefinesHistory(init, p, at);
          SinceSorted(init, at);
          UnlockedHasRoom(Since(init), p, at);
          LaterCounts(Since(init), at - p.window, at);
          OneMoreBounded(Since(init), at, p, start);
      }
    }
  }

  lemma NothingCounted(p: Policy, start: int)
    ensures Bounded([], p) && Count([], start, start + p.window) == 0
  {
  }

  lemma PrunedShrinks(s: AttemptSnapshot, at: int, p: Policy)
    ensures |Pruned(s, at, p.window).failures| <= |s.failures|
  {
  }

  lemma OneMoreBounded(since: seq<int>, at: int, p: Policy, start: int)
    requires Sensible(p) && Bounded(since, p) && Sorted(since) && forall i :: 0 <= i < |since| ==> since[i] <= at
    requires Count(since, at - p.window, at) < p.maxFailures
    requires Count(since, start, start + p.window) <= p.maxFailures
    ensures Bounded(since + [at], p) && Count(since + [at], start, start + p.window) <= p.maxFailures
  {
    hide Count, Later, Sorted;
    var more := since + [at];
    forall i | 0 <= i < |more| ensures Count(more, more[i] - p.window, more[i]) <= p.maxFailures {
      CountAppend(since, at, more[i] - p.window, more[i]);
    }
    CountAppend(since, at, start, start + p.window);
    if start < at <= start + p.window {
      LaterCounts(since, start, start + p.window);
      LaterCounts(since, start, at);
      CountMonotone(since, start, at, at - p.window, at);
    }
  }
}
