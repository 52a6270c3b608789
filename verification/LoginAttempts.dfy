/** The in-memory store of failed logins and the guard that reads it. Times and durations are nanoseconds. */
module LoginAttempts {
  import opened Wrappers

  /** Recent failures of one key, oldest first, and how long it is locked out. */
  datatype AttemptSnapshot = AttemptSnapshot(failures: seq<int>, lockedUntil: Option<int>)

  const EMPTY := AttemptSnapshot([], None)

  /** A user name and client address, interned: the store only ever compares keys. */
  type LoginKey = int

  type View = map<LoginKey, AttemptSnapshot>

  /** The times after the cutoff, in their order. */
  function Later(times: seq<int>, cutoff: int): (kept: seq<int>)
    ensures |kept| <= |times|
    decreases |times|
  {
    if times == [] then []
    else
      var kept := Later(times[..|times| - 1], cutoff);
      if times[|times| - 1] > cutoff then kept + [times[|times| - 1]] else kept
  }

  function StillLocked(lockedUntil: Option<int>, now: int): Option<int> {
    if lockedUntil.Some? && lockedUntil.value > now then lockedUntil else None
  }

  function Pruned(s: AttemptSnapshot, now: int, window: int): AttemptSnapshot {
    AttemptSnapshot(Later(s.failures, now - window), StillLocked(s.lockedUntil, now))
  }

  function StateAt(v: View, key: LoginKey): AttemptSnapshot {
    if key in v then v[key] else EMPTY
  }

  /** An entry that says nothing leaves the table. */
  function WithState(v: View, key: LoginKey, s: AttemptSnapshot): View {
    if s == EMPTY then v - {key} else v[key := s]
  }

  /** One more failure now, on top of what was kept; enough of them lock the key. */
  function Grown(kept: AttemptSnapshot, now: int, lockout: int, maxFailures: int): AttemptSnapshot {
    var failures := kept.failures + [now];
    AttemptSnapshot(failures, if |failures| >= maxFailures then Some(now + lockout) else kept.lockedUntil)
  }

  function Recorded(s: AttemptSnapshot, now: int, window: int, lockout: int, maxFailures: int): AttemptSnapshot {
    Grown(Pruned(s, now, window), now, lockout, maxFailures)
  }

  lemma LaterSnoc(times: seq<int>, n: nat, cutoff: int)
    requires n < |times|
    ensures Later(times[..n + 1], cutoff)
         == Later(times[..n], cutoff) + if times[n] > cutoff then [times[n]] else []
  {
    assert times[..n + 1][..n] == times[..n];
  }

  // ---------------------------------------------------------------- the table entries

  /** A growable list of times, as a slice over its backing array, with the lock beside it. */
  class Attempts {
    var buf: array<int>
    var count: nat
    var lockedUntil: Option<int>
    ghost var State: AttemptSnapshot

    constructor ()
      ensures Valid() && fresh(buf) && State == EMPTY
    {
      buf := new int[0];
      count := 0;
      lockedUntil := None;
      State := EMPTY;
    }

    ghost predicate Valid()
      reads this, buf
    {
      count <= buf.Length && State == AttemptSnapshot(buf[..count], lockedUntil)
    }

    /** Drops the old failures by moving the kept ones to the front of the same array. */
    method Compact(cutoff: int)
      requires Valid()
      modifies this`count, this`State, buf
      ensures Valid() && State == old(State).(failures := Later(old(State).failures, cutoff))
    {
      ghost var was := buf[..count];
      var kept := 0;
      for i := 0 to count
        invariant kept <= i && count == |was| <= buf.Length && State == old(State)
        invariant buf[..kept] == Later(was[..i], cutoff)
        invariant buf[i..count] == was[i..]
      {
        assert buf[i] == buf[i..count][0] == was[i];
        LaterSnoc(was, i, cutoff);
        assert was[i + 1..] == was[i..][1..] == buf[i + 1..count];
        if buf[i] > cutoff {
          buf[kept] := buf[i];
          kept := kept + 1;
        }
      }
      assert was[..count] == was;
      count := kept;
      State := State.(failures := buf[..count]);
    }

    method Prune(now: int, window: int)
      requires Valid()
      modifies this`count, this`lockedUntil, this`State, buf
      ensures Valid() && State == Pruned(old(State), now, window)
    {
      Compact(now - window);
      if lockedUntil.Some? && lockedUntil.value <= now {
        lockedUntil := None;
        State := State.(lockedUntil := None);
      }
    }

    method Append(time: int)
      requires Valid()
      modifies this`buf, this`count, this`State, buf
      ensures Valid() && (buf == old(buf) || fresh(buf))
      ensures State == old(State).(failures := old(State).failures + [time])
    {
      if count == buf.Length {
        var bigger := new int[2 * count + 1];
        forall i | 0 <= i < count {
          bigger[i] := buf[i];
        }
        assert bigger[..count] == buf[..count];
        buf := bigger;
      }
      buf[count] := time;
      count := count + 1;
      State := State.(failures := State.failures + [time]);
    }

    method Grow(now: int, lockout: int, maxFailures: int)
      requires Valid()
      modifies this`buf, this`count, this`State, this`lockedUntil, buf
      ensures Valid() && (buf == old(buf) || fresh(buf))
      ensures State == Grown(old(State), now, lockout, maxFailures)
    {
      Append(now);
      if count >= maxFailures {
        lockedUntil := Some(now + lockout);
        State := State.(lockedUntil := lockedUntil);
      }
    }
  }

  // ---------------------------------------------------------------- the store

  class InMemoryLoginAttemptStore {
    var attempts: map<LoginKey, Attempts>
    ghost var View: View
    ghost var Repr: set<object>

    constructor ()
      ensures Valid() && fresh(Repr) && View == map[]
    {
      attempts := map[];
      View := map[];
      Repr := {this};
    }

    /** Every entry and every array belongs to one key only, and holds what View says of it. */
    ghost predicate Valid()
      reads this, Repr
    {
      && this in Repr
      && (forall k :: k in attempts <==> k in View)
      && (forall k :: k in attempts ==> attempts[k] in Repr && attempts[k].buf in Repr)
      && (forall k :: k in attempts ==> attempts[k].Valid() && attempts[k].State == View[k])
      && (forall k, l :: k in attempts && l in attempts && k != l ==>
            attempts[k] != attempts[l] && attempts[k].buf != attempts[l].buf)
    }

    method PruneEntry(key: LoginKey, now: int, window: int)
      requires Valid() && key in attempts
      modifies this`View, attempts[key], attempts[key].buf
      ensures Valid() && View == old(View)[key := Pruned(old(View)[key], now, window)]
    {
      hide Pruned;
      var entry := attempts[key];
      entry.Prune(now, window);
      View := View[key := entry.State];
    }

    method DropEntry(key: LoginKey)
      requires Valid()
      modifies this`attempts, this`View
      ensures Valid() && attempts == old(attempts) - {key} && View == old(View) - {key}
    {
      attempts := attempts - {key};
      View := View - {key};
    }

    /** The entry of a key after pruning; none if nothing is left of it. */
    method PrunedState(key: LoginKey, now: int, window: int) returns (entry: Attempts?)
      requires Valid()
      modifies Repr
      ensures Valid() && Repr == old(Repr)
      ensures View == WithState(old(View), key, Pruned(StateAt(old(View), key), now, window))
      ensures if key in attempts then entry == attempts[key] else entry == null
    {
      hide Pruned;
      if key !in attempts {
        PrunedEmpty(now, window);
        assert View - {key} == View;
        return null;
      }
      PruneEntry(key, now, window);
      entry := attempts[key];
      if entry.count == 0 && entry.lockedUntil.None? {
        assert entry.State == EMPTY;
        DropEntry(key);
        return null;
      }
      assert |entry.State.failures| == entry.count;
    }

    method Snapshot(key: LoginKey, now: int, window: int) returns (s: AttemptSnapshot)
      requires Valid()
      modifies Repr
      ensures Valid() && fresh(Repr - old(Repr))
      ensures s == Pruned(StateAt(old(View), key), now, window)
      ensures View == WithState(old(View), key, s)
    {
      hide Pruned;
      var entry := PrunedState(key, now, window);
      if entry == null {
        return EMPTY;
      }
      return AttemptSnapshot(entry.buf[..entry.count], entry.lockedUntil);
    }

    /** Gives a key that has no entry an empty one. */
    method AddEntry(key: LoginKey) returns (entry: Attempts)
      requires Valid() && key !in attempts
      modifies this
      ensures Valid() && fresh(Repr - old(Repr))
      ensures attempts == old(attempts)[key := entry] && View == old(View)[key := EMPTY]
    {
      entry := new Attempts();
      attempts := attempts[key := entry];
      View := View[key := EMPTY];
      Repr := Repr + {entry, entry.buf};
    }

    method GrowEntry(key: LoginKey, now: int, lockout: int, maxFailures: int)
      requires Valid() && key in attempts
      modifies this`View, this`Repr, attempts[key], attempts[key].buf
      ensures Valid() && fresh(Repr - old(Repr))
      ensures View == old(View)[key := Grown(old(View)[key], now, lockout, maxFailures)]
    {
      hide Grown;
      var entry := attempts[key];
      entry.Grow(now, lockout, maxFailures);
      View := View[key := entry.State];
      Repr := Repr + {entry.buf};
    }

    /** The entry to record in: the pruned one, or an empty one if nothing is left of it. */
    method EntryFor(key: LoginKey, now: int, window: int)
      requires Valid()
      modifies Repr
      ensures Valid() && fresh(Repr - old(Repr)) && key in attempts
      ensures View == old(View)[key := Pruned(StateAt(old(View), key), now, window)]
    {
      hide Pruned;
      ghost var v := View;
      ghost var kept := Pruned(StateAt(v, key), now, window);
      var entry := PrunedState(key, now, window);
      if entry == null {
        entry := AddEntry(key);
      }
      assert View[key] == kept;
      Overwritten(v, key, kept, kept);
    }

    method RecordFailure(key: LoginKey, now: int, window: int, lockout: int, maxFailures: int)
      requires Valid()
      modifies Repr
      ensures Valid() && fresh(Repr - old(Repr))
      ensures View == old(View)[key := Recorded(StateAt(old(View), key), now, window, lockout, maxFailures)]
    {
      hide Pruned, Grown;
      EntryFor(key, now, window);
      GrowEntry(key, now, lockout, maxFailures);
    }

    method Reset(key: LoginKey)
      requires Valid()
      modifies this
      ensures Valid() && Repr == old(Repr) && View == old(View) - {key}
    {
      DropEntry(key);
    }
  }

  lemma Overwritten(v: View, key: LoginKey, s: AttemptSnapshot, t: AttemptSnapshot)
    ensures WithState(v, key, s)[key := t] == v[key := t]
  {
  }

  lemma PrunedEmpty(now: int, window: int)
    ensures Pruned(EMPTY, now, window) == EMPTY
  {
  }
}
