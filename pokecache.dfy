/**
 * The expiring cache of internal/pokecache/cache.go: a string-keyed map of
 * byte payloads stamped with their creation time, and the sweep that the
 * reaper goroutine runs on every tick. Time is an integer clock `now`
 * supplied by the caller; the goroutine, ticker and lock are not modelled.
 */
module PokeCache {
  import opened Common

  /** One cached payload and the time it was stored (cacheEntry). */
  datatype Entry = Entry(createdAt: int, value: Bytes)

  /** How long ago the entry was stored, as `time.Since(createdAt)`. */
  function Age(e: Entry, now: int): int
  {
    now - e.createdAt
  }

  /** The reaper's deletion test: strictly older than the interval. */
  predicate Expired(e: Entry, now: int, interval: int)
  {
    Age(e, now) > interval
  }

  /** newCacheEntry: the payload, stamped with the current time. */
  function NewEntry(value: Bytes, now: int): (e: Entry)
    ensures e.value == value
    ensures Age(e, now) == 0 && !Expired(e, now, 0)
  {
    Entry(now, value)
  }

  /** The map that one sweep of the reaper leaves behind. */
  function Swept(entries: map<string, Entry>, now: int, interval: int): (r: map<string, Entry>)
    ensures r.Keys <= entries.Keys
  {
    map k | k in entries && !Expired(entries[k], now, interval) :: entries[k]
  }

  /** A sweep keeps exactly the entries whose age is at most the interval, unaltered. */
  lemma SweptKeepsExactlyFresh(entries: map<string, Entry>, now: int, interval: int, k: string)
    ensures k in Swept(entries, now, interval) <==> k in entries && now - entries[k].createdAt <= interval
    ensures k in Swept(entries, now, interval) ==> Swept(entries, now, interval)[k] == entries[k]
  {
  }

  /** The boundary is strict: an entry exactly `interval` old survives; one tick older does not. */
  lemma SweptBoundary(entries: map<string, Entry>, interval: int, k: string)
    requires k in entries
    ensures k in Swept(entries, entries[k].createdAt + interval, interval)
    ensures k !in Swept(entries, entries[k].createdAt + interval + 1, interval)
  {
  }

  /** Sweeping twice at the same time is the same as sweeping once. */
  lemma SweptIdempotent(entries: map<string, Entry>, now: int, interval: int)
    ensures Swept(Swept(entries, now, interval), now, interval) == Swept(entries, now, interval)
  {
  }

  /** The cache (Cache): the entry map and the reaper's interval. */
  class Cache {
    var entries: map<string, Entry>
    /** The interval passed to NewCache, captured by the reaper goroutine. */
    const interval: int

    /** NewCache: an empty cache; the reaper is the separate Reap step. */
    constructor (interval: int)
      requires interval > 0
      ensures this.interval == interval
      ensures entries == map[]
    {
      this.interval := interval;
      entries := map[];
    }

    /** Add: insert or replace the entry for `key`, stamped with `now`. */
    method Add(key: string, value: Bytes, now: int)
      modifies this
      ensures entries == old(entries)[key := NewEntry(value, now)]
    {
      entries := entries[key := NewEntry(value, now)];
    }

    /** Get: the stored payload and true, or `(nil, false)`; never evicts, whatever the age. */
    method Get(key: string) returns (value: Bytes, ok: bool)
      ensures ok <==> key in entries
      ensures ok ==> value == entries[key].value
      ensures !ok ==> value == []
    {
      if key in entries {
        value, ok := entries[key].value, true;
      } else {
        value, ok := [], false;
      }
    }

    /** One tick of reapLoop: delete every entry whose age exceeds the interval. */
    method Reap(now: int)
      modifies this
      ensures entries == Swept(old(entries), now, interval)
    {
      var pending := entries.Keys;
      while pending != {}
        invariant pending <= old(entries).Keys
        invariant entries.Keys <= old(entries).Keys
        invariant forall k :: k in entries ==> entries[k] == old(entries)[k]
        invariant forall k :: k in old(entries) ==>
          (k in entries <==> k in pending || !Expired(old(entries)[k], now, interval))
        decreases pending
      {
        var key :| key in pending;
        if Expired(entries[key], now, interval) {
          entries := entries - {key};
        }
        pending := pending - {key};
      }
      assert entries.Keys == Swept(old(entries), now, interval).Keys;
    }
  }
}
