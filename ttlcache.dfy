/**
 * The part of the expiring key-value cache the proxy relies on: items that
 * carry an absolute expiry time, a lookup that treats an expired item as
 * absent, and an insert that stamps the default lifetime. Times are
 * nanoseconds on the process clock, passed in explicitly.
 */
module TtlCache {
  import opened Wrappers

  /** The default lifetime of an item: two minutes. */
  const DEFAULT_EXPIRATION: nat := 2 * 60 * 1_000_000_000

  datatype Item<V> = Item(value: V, expiration: nat)

  /** An item found at `now` is served until its expiration has passed (equal counts as live). */
  function Lookup<V>(items: map<string, Item<V>>, key: string, now: nat): (r: Option<V>)
    ensures r.Some? <==> key in items && now <= items[key].expiration
    ensures r.Some? ==> r.value == items[key].value
  {
    if key in items && now <= items[key].expiration then Some(items[key].value) else None
  }

  /** Insert `value` under `key` with the default lifetime, replacing any earlier item (last writer wins). */
  function Store<V>(items: map<string, Item<V>>, key: string, value: V, now: nat): (r: map<string, Item<V>>)
    ensures r.Keys == items.Keys + {key}
    ensures r[key] == Item(value, now + DEFAULT_EXPIRATION)
    ensures forall k :: k in items && k != key ==> r[k] == items[k]
  {
    items[key := Item(value, now + DEFAULT_EXPIRATION)]
  }

  /** Read-your-writes: a stored value is served for two minutes and absent afterwards. */
  lemma StoreThenLookup<V>(items: map<string, Item<V>>, key: string, value: V, now: nat, later: nat)
    requires now <= later
    ensures later <= now + DEFAULT_EXPIRATION ==> Lookup(Store(items, key, value, now), key, later) == Some(value)
    ensures later > now + DEFAULT_EXPIRATION ==> Lookup(Store(items, key, value, now), key, later) == None
  {
  }

  /** Storing under one key never changes what another key serves. */
  lemma StoreOtherKey<V>(items: map<string, Item<V>>, key: string, other: string, value: V, now: nat, at: nat)
    requires other != key
    ensures Lookup(Store(items, key, value, now), other, at) == Lookup(items, other, at)
  {
  }

  /** Expiry is monotone: once an item is absent it stays absent until it is stored again. */
  lemma ExpiredStaysExpired<V>(items: map<string, Item<V>>, key: string, now: nat, later: nat)
    requires now <= later
    requires Lookup(items, key, now) == None
    ensures Lookup(items, key, later) == None
  {
  }

  /** The cache object shared by every request: its items are replaced, never mutated in place. */
  class Cache<V> {
    var items: map<string, Item<V>>

    /** `cache.New`: an empty cache. */
    constructor ()
      ensures items == map[]
    {
      items := map[];
    }

    /** `Cache.Get`: the live value under `key`, if any; nothing changes. */
    method Get(key: string, now: nat) returns (r: Option<V>)
      ensures r == Lookup(items, key, now)
    {
      if key in items && now <= items[key].expiration {
        r := Some(items[key].value);
      } else {
        r := None;
      }
    }

    /** `Cache.Set` with the default expiration. */
    method Set(key: string, value: V, now: nat)
      modifies this
      ensures items == Store(old(items), key, value, now)
    {
      items := items[key := Item(value, now + DEFAULT_EXPIRATION)];
    }
  }
}
