/**
 * Q, the second limiter of the semaphore package: the same key -> running
 * table as KeyedSemaphore under other names (`cur`, `max`), specified by the
 * same Admit and Release functions.
 */
module SemaphoreQ {
  import opened Semaphore

  class Q<T> {
    const max: int
    var cur: Table
    var spawned: seq<(string, T)>

    ghost predicate Valid()
      reads this
    {
      Bounded(cur, max)
    }

    /** NewQ */
    constructor(max: int)
      ensures this.max == max
      ensures cur == map[] && spawned == []
      ensures Valid()
    {
      this.max := max;
      cur := map[];
      spawned := [];
    }

    /** Add: admit and spawn execFunc, or drop it when the key is at max. */
    method Add(key: string, execFunc: T) returns (ok: bool)
      requires Valid()
      modifies this
      ensures Valid()
      ensures (ok, cur) == Admit(old(cur), max, key)
      ensures spawned == if ok then old(spawned) + [(key, execFunc)] else old(spawned)
    {
      AdmitBounded(cur, max, key);
      if key in cur {
        if cur[key] == max {
          return false;
        }
        cur := cur[key := cur[key] + 1];
      } else {
        cur := cur[key := 1];
      }
      spawned := spawned + [(key, execFunc)];
      ok := true;
    }

    /** clean */
    method Clean(key: string)
      modifies this
      ensures cur == if key in old(cur) && old(cur)[key] == 0 then old(cur) - {key} else old(cur)
      ensures spawned == old(spawned)
    {
      if key in cur && cur[key] == 0 {
        cur := cur - {key};
      }
    }

    /** The end of run: decrement, then clean. */
    method Complete(key: string)
      requires Valid() && key in cur
      modifies this
      ensures Valid()
      ensures cur == Release(old(cur), key)
      ensures spawned == old(spawned)
    {
      ReleaseBounded(cur, max, key);
      cur := cur[key := cur[key] - 1];
      Clean(key);
    }
  }
}
