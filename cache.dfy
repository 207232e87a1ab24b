/** Abstract stand-ins for the bounded cache and the refresh ticker, whose implementations
    are not part of this model: each is described only as far as the facade relies on it. */
module CacheAndTicker {
  import opened Wrappers

  /** `after` is `before` with `key` set to `value` and possibly other residents evicted;
      a key that was already resident is overwritten and nothing else changes. */
  ghost predicate AddedTo<V>(before: map<string, Option<V>>, after: map<string, Option<V>>, key: string, value: V)
  {
    && key in after && after[key] == Some(value)
    && (forall k :: k in after && k != key ==> k in before && after[k] == before[k])
    && (key in before ==> after == before[key := Some(value)])
  }

  /** `after` keeps some of the residents of `before`, unchanged, and adds nothing. */
  ghost predicate Shrunk<V>(before: map<string, Option<V>>, after: map<string, Option<V>>)
  {
    forall k :: k in after ==> k in before && after[k] == before[k]
  }

  lemma ShrunkFromEmpty<V>(before: map<string, Option<V>>, after: map<string, Option<V>>)
    requires before == map[] && Shrunk(before, after)
    ensures after == map[]
  {
    assert after.Keys == {};
  }

  /** A bounded key-value cache. A value may be nil (None). Adding a key that is not
      resident may evict other residents (which ones is not modelled); overwriting a
      resident key evicts nothing. */
  class Cache<V> {
    var entries: map<string, Option<V>>
    var limit: int

    constructor (limit: int)
      ensures entries == map[] && this.limit == limit
    {
      entries := map[];
      this.limit := limit;
    }

    method Get(key: string) returns (value: Option<V>, found: bool)
      ensures found == (key in entries)
      ensures found ==> value == entries[key]
      ensures !found ==> value.None?
    {
      if key in entries {
        value, found := entries[key], true;
      } else {
        value, found := None, false;
      }
    }

    method Add(key: string, value: V)
      modifies this
      ensures limit == old(limit)
      ensures AddedTo(old(entries), entries, key, value)
    {
      if key !in entries && 0 < limit <= |entries| {
        var victim :| victim in entries;
        entries := entries - {victim};
      }
      entries := entries[key := Some(value)];
    }

    method Delete(key: string)
      modifies this
      ensures entries == old(entries) - {key} && limit == old(limit)
    {
      entries := entries - {key};
    }

    /** A snapshot of the resident keys, each once, in no particular order. */
    method Keys() returns (keys: seq<string>)
      ensures forall k :: k in keys <==> k in entries
      ensures forall i, j :: 0 <= i < j < |keys| ==> keys[i] != keys[j]
    {
      keys := [];
      var rest := entries.Keys;
      while rest != {}
        invariant rest <= entries.Keys
        invariant forall k :: k in keys <==> k in entries && k !in rest
        invariant forall i, j :: 0 <= i < j < |keys| ==> keys[i] != keys[j]
        decreases |rest|
      {
        var k :| k in rest;
        keys := keys + [k];
        rest := rest - {k};
      }
    }

    /** Records the new limit and returns the old one; residents may be dropped lazily
        but nothing is added or changed. */
    method UpdateCacheLimit(newLimit: int) returns (oldLimit: int)
      modifies this
      ensures oldLimit == old(limit) && limit == newLimit
      ensures Shrunk(old(entries), entries)
    {
      oldLimit := limit;
      limit := newLimit;
    }
  }

  /** A periodic timer: its interval and whether it is running. */
  class Ticker {
    var interval: int
    var running: bool

    constructor (interval: int)
      ensures this.interval == interval && !running
    {
      this.interval := interval;
      running := false;
    }

    method Start()
      modifies this
      ensures running && interval == old(interval)
    {
      running := true;
    }

    method Stop()
      modifies this
      ensures !running && interval == old(interval)
    {
      running := false;
    }

    /** Replaces the interval, returning the previous one; does not fire. */
    method Reset(newInterval: int) returns (previous: int)
      modifies this
      ensures previous == old(interval) && interval == newInterval && running == old(running)
    {
      previous := interval;
      interval := newInterval;
    }
  }
}
