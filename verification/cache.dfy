/** The in-memory cache of app/utils/cache.py. Times are real seconds, passed in
    by the caller in place of time.time(). */
module Cache {
  import opened Wrappers

  datatype Entry<V> = Entry(value: V, expires: real)
  type Entries<V> = map<string, Entry<V>>

  function Peek<V>(entries: Entries<V>, key: string, now: real): Option<V> {
    if key in entries && now <= entries[key].expires then Some(entries[key].value) else None
  }

  function AfterGet<V>(entries: Entries<V>, key: string, now: real): Entries<V> {
    if key in entries && now > entries[key].expires then entries - {key} else entries
  }

  function AfterSet<V>(entries: Entries<V>, key: string, value: V, now: real, ttl: real): Entries<V> {
    entries[key := Entry(value, now + ttl)]
  }

  class TTLCache<V> {
    var entries: Entries<V>
    const ttl: real

    constructor (ttl: real)
      ensures entries == map[] && this.ttl == ttl
    {
      this.ttl := ttl;
      entries := map[];
    }

    method Get(key: string, now: real) returns (value: Option<V>)
      modifies this
      ensures value == Peek(old(entries), key, now)
      ensures entries == AfterGet(old(entries), key, now)
    {
      if key !in entries {
        return None;
      }
      var e := entries[key];
      if now > e.expires {
        entries := entries - {key};
        return None;
      }
      return Some(e.value);
    }

    method Set(key: string, value: V, now: real)
      modifies this
      ensures entries == AfterSet(old(entries), key, value, now, ttl)
    {
      entries := entries[key := Entry(value, now + ttl)];
    }

    method Invalidate(key: string)
      modifies this
      ensures entries == old(entries) - {key}
    {
      entries := entries - {key};
    }
  }
}
