/**
 * The observable contract of the handler's `node-cache` instance, created with
 * a standard time-to-live of 600 seconds: a key maps to the last value set for
 * it together with the time it was set, and an entry older than the
 * time-to-live is never reported. Time is an explicit parameter, in
 * milliseconds, as the library's clock is.
 */
module TtlCache {
  import opened Wrappers

  /** `stdTTL` given when the cache is created. */
  const StdTtlSeconds: nat := 600

  /** The time-to-live in the clock's unit (milliseconds). */
  const TtlMillis: nat := StdTtlSeconds * 1000

  datatype Entry<V> = Entry(value: V, insertedAt: nat)

  /** An entry is still served up to and including its expiry instant. */
  predicate Alive<V>(e: Entry<V>, now: nat)
  {
    now <= e.insertedAt + TtlMillis
  }

  /** What `has`/`get` report for `key` at time `now`. */
  function Find<V>(entries: map<string, Entry<V>>, key: string, now: nat): Option<V>
  {
    if key in entries && Alive(entries[key], now) then Some(entries[key].value) else None
  }

  /** What `set(key, value)` at time `now` leaves behind. */
  function Put<V>(entries: map<string, Entry<V>>, key: string, value: V, now: nat): map<string, Entry<V>>
  {
    entries[key := Entry(value, now)]
  }

  /** A value set at `t` is served exactly until `t + TtlMillis`, and never after. */
  lemma FindAfterPut<V>(entries: map<string, Entry<V>>, key: string, value: V, t: nat, now: nat)
    ensures Find(Put(entries, key, value, t), key, now) == if now <= t + TtlMillis then Some(value) else None
  {
  }

  /** Setting one key leaves what every other key reports unchanged. */
  lemma FindAfterPutOther<V>(entries: map<string, Entry<V>>, key: string, other: string, value: V, t: nat, now: nat)
    requires other != key
    ensures Find(Put(entries, key, value, t), other, now) == Find(entries, other, now)
  {
  }

  /** A second `set` of the same key overwrites the value and restarts its time-to-live. */
  lemma PutOverwrites<V>(entries: map<string, Entry<V>>, key: string, v1: V, t1: nat, v2: V, t2: nat)
    ensures Put(Put(entries, key, v1, t1), key, v2, t2) == Put(entries, key, v2, t2)
  {
  }

  /** An entry older than the time-to-live is never returned. */
  lemma ExpiredIsNeverFound<V>(entries: map<string, Entry<V>>, key: string, now: nat)
    requires key in entries && now > entries[key].insertedAt + TtlMillis
    ensures Find(entries, key, now) == None
  {
  }

  class Cache<V> {
    var entries: map<string, Entry<V>>

    constructor ()
      ensures entries == map[]
    {
      entries := map[];
    }

    /** `cache.has(key)`: a live entry exists. */
    method Has(key: string, now: nat) returns (present: bool)
      ensures present <==> key in entries && now <= entries[key].insertedAt + TtlMillis
      ensures present == Find(entries, key, now).Some?
    {
      present := key in entries && Alive(entries[key], now);
    }

    /** `cache.get(key)`: the live value, or absent. */
    method Get(key: string, now: nat) returns (r: Option<V>)
      ensures r.Some? <==> key in entries && now <= entries[key].insertedAt + TtlMillis
      ensures r.Some? ==> r.value == entries[key].value
      ensures r == Find(entries, key, now)
    {
      if key in entries && Alive(entries[key], now) {
        r := Some(entries[key].value);
      } else {
        r := None;
      }
    }

    /** `cache.set(key, value)`: stores with the standard time-to-live, overwriting. */
    method Set(key: string, value: V, now: nat)
      modifies this
      ensures entries == Put(old(entries), key, value, now)
    {
      entries := entries[key := Entry(value, now)];
    }
  }
}
