/**
 * The keyed limiter: a table from key to the number of tasks running under
 * it. A task is admitted when its key is absent or below the cap, and is
 * dropped (never queued) when the key is at the cap; a finished task
 * decrements its key, which is removed once it reaches zero.
 *
 * The table itself is specified by the pure functions Admit and Release; the
 * class KeyedSemaphore keeps its map equal to them.
 */
module Semaphore {

  /** key -> running tasks */
  type Table = map<string, int>

  /** The running count of a key, 0 when it is absent. */
  function Count(t: Table, key: string): int {
    if key in t then t[key] else 0
  }

  /** Every stored key has at least one running task, and at most `max` when max ≥ 1. */
  ghost predicate Bounded(t: Table, max: int) {
    forall k :: k in t ==> 1 <= t[k] && (max >= 1 ==> t[k] <= max)
  }

  /** Add's decision and the table after it. */
  function Admit(t: Table, max: int, key: string): (bool, Table) {
    if key in t then
      if t[key] == max then (false, t) else (true, t[key := t[key] + 1])
    else (true, t[key := 1])
  }

  /** A finished task: the deferred decrement, then clean's delete at zero. */
  function Release(t: Table, key: string): Table
    requires key in t
  {
    var d := t[key := t[key] - 1];
    if d[key] == 0 then d - {key} else d
  }

  /** Admission changes at most the key's own entry. */
  lemma AdmitOnlyTouchesKey(t: Table, max: int, key: string, other: string)
    requires other != key
    ensures var t' := Admit(t, max, key).1;
            (other in t' <==> other in t) && (other in t ==> t'[other] == t[other])
  {
  }

  /** Release changes at most the key's own entry. */
  lemma ReleaseOnlyTouchesKey(t: Table, key: string, other: string)
    requires key in t && other != key
    ensures var t' := Release(t, key);
            (other in t' <==> other in t) && (other in t ==> t'[other] == t[other])
  {
  }

  /**
   * Admission on a bounded table: an absent key starts at 1, a key at the cap
   * is rejected with the table unchanged, any other key goes up by one; and
   * the table stays bounded.
   */
  lemma AdmitBounded(t: Table, max: int, key: string)
    requires Bounded(t, max)
    ensures var (ok, t') := Admit(t, max, key);
            && Bounded(t', max)
            && (ok <==> Count(t, key) != max || key !in t)
            && (ok ==> key in t' && t'[key] == Count(t, key) + 1)
            && (!ok ==> t' == t)
  {
  }

  /** Release on a bounded table keeps it bounded and lowers the key's count by one. */
  lemma ReleaseBounded(t: Table, max: int, key: string)
    requires Bounded(t, max) && key in t
    ensures Bounded(Release(t, key), max)
    ensures Count(Release(t, key), key) == t[key] - 1
    ensures key !in Release(t, key) <==> t[key] == 1
  {
  }

  /** Releasing a task right after admitting it restores the table. */
  lemma AdmitThenRelease(t: Table, max: int, key: string)
    requires Bounded(t, max)
    requires Admit(t, max, key).0
    ensures var t' := Admit(t, max, key).1; key in t' && Release(t', key) == t
  {
    var t' := Admit(t, max, key).1;
    if key in t {
      assert Release(t', key) == t[key := t[key]];
      assert t[key := t[key]] == t;
    } else {
      assert Release(t', key) == t;
    }
  }

  // ------------------------------------------------- repeated submissions

  /** n submissions under one key, back to back: (accepted count, final table). */
  function AdmitMany(t: Table, max: int, key: string, n: nat): (nat, Table)
    decreases n
  {
    if n == 0 then (0, t)
    else
      var (ok, t1) := Admit(t, max, key);
      var (m, t2) := AdmitMany(t1, max, key, n - 1);
      (if ok then m + 1 else m, t2)
  }

  /** m completions under one key. */
  function ReleaseMany(t: Table, key: string, m: nat): Table
    requires Count(t, key) >= m
    decreases m
  {
    if m == 0 then t
    else
      var t1 := Release(t, key);
      assert Count(t1, key) == Count(t, key) - 1;
      ReleaseMany(t1, key, m - 1)
  }

  function Min(a: int, b: int): int { if a <= b then a else b }

  /**
   * n submissions under a key already running c tasks accept exactly as many
   * as the cap leaves room for (all of them when max < 1), and leave the key
   * at c plus that number.
   */
  lemma {:induction false} AdmitManyCount(t: Table, max: int, key: string, n: nat)
    requires Bounded(t, max)
    ensures var (m, t') := AdmitMany(t, max, key, n);
            var c := Count(t, key);
            && m == (if max >= 1 then Min(c + n, max) - c else n)
            && Count(t', key) == c + m
            && Bounded(t', max)
    decreases n
  {
    if n > 0 {
      AdmitBounded(t, max, key);
      var (ok, t1) := Admit(t, max, key);
      AdmitManyCount(t1, max, key, n - 1);
    }
  }

  /** Completing m tasks of a key lowers its count by m; the key is gone once all complete. */
  lemma {:induction false} ReleaseManyCount(t: Table, max: int, key: string, m: nat)
    requires Bounded(t, max) && Count(t, key) >= m
    ensures Bounded(ReleaseMany(t, key, m), max)
    ensures Count(ReleaseMany(t, key, m), key) == Count(t, key) - m
    ensures Count(t, key) == m ==> key !in ReleaseMany(t, key, m)
    decreases m
  {
    if m > 0 {
      ReleaseBounded(t, max, key);
      ReleaseManyCount(Release(t, key), max, key, m - 1);
    }
  }

  /**
   * For a key not yet in the table: n submissions accept min(n, max) tasks
   * (n when max < 1), and once all accepted tasks complete the key is absent
   * again.
   */
  lemma AcceptedThenAllComplete(t: Table, max: int, key: string, n: nat)
    requires Bounded(t, max) && key !in t
    ensures var (m, t') := AdmitMany(t, max, key, n);
            && m == (if max >= 1 then Min(n, max) else n)
            && Count(t', key) == m
            && key !in ReleaseMany(t', key, m)
  {
    AdmitManyCount(t, max, key, n);
    var (m, t') := AdmitMany(t, max, key, n);
    ReleaseManyCount(t', max, key, m);
  }

  // -------------------------------------------------------------- the class

  /** KeyedSemaphore: the table, its cap, and the log of spawned tasks (the `go s.run` events). */
  class KeyedSemaphore<T> {
    const maxPerKey: int
    var counters: Table
    var spawned: seq<(string, T)>

    ghost predicate Valid()
      reads this
    {
      Bounded(counters, maxPerKey)
    }

    /** NewKeyedSemaphore */
    constructor(maxPerKey: int)
      ensures this.maxPerKey == maxPerKey
      ensures counters == map[] && spawned == []
      ensures Valid()
    {
      this.maxPerKey := maxPerKey;
      counters := map[];
      spawned := [];
    }

    /** Add: admit and spawn the task, or drop it. */
    method Add(key: string, task: T) returns (ok: bool)
      requires Valid()
      modifies this
      ensures Valid()
      ensures (ok, counters) == Admit(old(counters), maxPerKey, key)
      ensures spawned == if ok then old(spawned) + [(key, task)] else old(spawned)
    {
      AdmitBounded(counters, maxPerKey, key);
      if key in counters {
        if counters[key] == maxPerKey {
          return false;
        }
        counters := counters[key := counters[key] + 1];
      } else {
        counters := counters[key := 1];
      }
      spawned := spawned + [(key, task)];
      ok := true;
    }

    /** clean: delete the key once nothing runs under it. */
    method Clean(key: string)
      modifies this
      ensures counters == if key in old(counters) && old(counters)[key] == 0 then old(counters) - {key} else old(counters)
      ensures spawned == old(spawned)
    {
      if key in counters && counters[key] == 0 {
        counters := counters - {key};
      }
    }

    /** The end of run: the deferred decrement of the key's count, then clean. */
    method Complete(key: string)
      requires Valid() && key in counters
      modifies this
      ensures Valid()
      ensures counters == Release(old(counters), key)
      ensures spawned == old(spawned)
    {
      ReleaseBounded(counters, maxPerKey, key);
      counters := counters[key := counters[key] - 1];
      Clean(key);
    }
  }
}
