/** The in-memory cache of the data manager (`CacheItem` and `Cache` in
    utils/data_manager.py): a bounded, insertion-ordered dictionary of items
    that expire a fixed number of clock ticks after they are written and are
    evicted least-recently-accessed first when the cache is full. The clock
    (`time.time()`) is the parameter `now`. */
module DataCache {
  import opened Wrappers
  import Dicts

  /** A cached value, its absolute expiry time (None: never expires), and the
      times it was created and last read. */
  datatype Item<V> = Item(key: string, value: V, expireTime: Option<int>, createdAt: int, lastAccessed: int)

  /** `CacheItem.is_expired`: strictly past the expiry time. */
  predicate IsExpired<V>(item: Item<V>, now: int) {
    item.expireTime.Some? && now > item.expireTime.value
  }

  /** The expiry `Cache.set` computes: an explicit ttl wins, then the cache's
      default ttl, otherwise the item never expires. */
  function ExpireTime(ttl: Option<int>, defaultTtl: Option<int>, now: int): (r: Option<int>)
    ensures r.None? <==> ttl.None? && defaultTtl.None?
    ensures ttl.Some? ==> r == Some(now + ttl.value)
    ensures ttl.None? && defaultTtl.Some? ==> r == Some(now + defaultTtl.value)
  {
    match ttl
    case Some(t) => Some(now + t)
    case None => (match defaultTtl case Some(d) => Some(now + d) case None => None)
  }

  /** The position `min(cache.keys(), key=last_accessed)` picks among the first
      `n` entries: Python's `min` keeps the first of several equal keys. */
  function OldestIndex<V>(entries: seq<(string, Item<V>)>, n: nat): (b: nat)
    requires 1 <= n <= |entries|
    ensures b < n
    decreases n
  {
    if n == 1 then 0
    else
      var b := OldestIndex(entries, n - 1);
      if entries[n - 1].1.lastAccessed < entries[b].1.lastAccessed then n - 1 else b
  }

  /** The chosen entry was accessed no later than any other, and strictly
      earlier than every entry before it. */
  lemma {:induction false} OldestIsLeastRecent<V>(entries: seq<(string, Item<V>)>, n: nat)
    requires 1 <= n <= |entries|
    ensures forall j :: 0 <= j < n ==>
      entries[OldestIndex(entries, n)].1.lastAccessed <= entries[j].1.lastAccessed
    ensures forall j :: 0 <= j < OldestIndex(entries, n) ==>
      entries[OldestIndex(entries, n)].1.lastAccessed < entries[j].1.lastAccessed
    decreases n
  {
    if n > 1 {
      OldestIsLeastRecent(entries, n - 1);
    }
  }

  /** The key `_evict` removes, if the cache is not empty. */
  function OldestKey<V>(entries: seq<(string, Item<V>)>): (k: Option<string>)
    ensures k.None? <==> entries == []
    ensures k.Some? ==> Dicts.HasKey(entries, k.value)
  {
    if entries == [] then None
    else
      var b := OldestIndex(entries, |entries|);
      assert Dicts.Keys(entries)[b] == entries[b].0 by { Dicts.KeysAt(entries, b); }
      Some(entries[b].0)
  }

  /** The entries after `_evict`. */
  function Evicted<V>(entries: seq<(string, Item<V>)>): seq<(string, Item<V>)> {
    match OldestKey(entries)
    case None => entries
    case Some(k) => Dicts.Remove(entries, k)
  }

  /** What `Cache.get(key)` returns: the value of a present item that has
      not expired. */
  function Lookup<V>(entries: seq<(string, Item<V>)>, key: string, now: int): Option<V> {
    match Dicts.Get(entries, key)
    case None => None
    case Some(item) => if IsExpired(item, now) then None else Some(item.value)
  }

  /** The entries after `Cache.get(key)`: an expired item is deleted, a live
      one records the access. */
  function AfterGet<V>(entries: seq<(string, Item<V>)>, key: string, now: int): seq<(string, Item<V>)> {
    match Dicts.Get(entries, key)
    case None => entries
    case Some(item) =>
      if IsExpired(item, now) then Dicts.Remove(entries, key)
      else Dicts.Put(entries, key, item.(lastAccessed := now))
  }

  /** Whether `Cache.set(key, …)` evicts first: the cache is at or above its
      bound and the key is new. */
  predicate MustEvict<V>(entries: seq<(string, Item<V>)>, maxSize: int, key: string) {
    |entries| >= maxSize && !Dicts.HasKey(entries, key)
  }

  /** The entries after `Cache.set(key, value, ttl)`. */
  function AfterSet<V>(entries: seq<(string, Item<V>)>, maxSize: int, defaultTtl: Option<int>,
                       key: string, value: V, ttl: Option<int>, now: int): seq<(string, Item<V>)>
  {
    var kept := if MustEvict(entries, maxSize, key) then Evicted(entries) else entries;
    Dicts.Put(kept, key, Item(key, value, ExpireTime(ttl, defaultTtl, now), now, now))
  }

  /** The most entries a cache with bound `maxSize` can hold: a bound below
      one still lets `set` store the item it was given. */
  function Capacity(maxSize: int): (c: nat)
    ensures c >= 1 && c >= maxSize
  {
    if maxSize >= 1 then maxSize else 1
  }

  /** Invariant of the entries: no key twice, each item records its own key,
      and no more entries than the capacity. */
  predicate WellFormed<V>(entries: seq<(string, Item<V>)>, maxSize: int) {
    Dicts.DistinctKeys(entries) &&
    (forall i :: 0 <= i < |entries| ==> entries[i].1.key == entries[i].0) &&
    |entries| <= Capacity(maxSize)
  }

  /** A value just written is read back until its expiry time has passed. */
  lemma SetThenGet<V>(entries: seq<(string, Item<V>)>, maxSize: int, defaultTtl: Option<int>,
                      key: string, value: V, ttl: Option<int>, now: int, later: int)
    ensures var e := ExpireTime(ttl, defaultTtl, now);
            Lookup(AfterSet(entries, maxSize, defaultTtl, key, value, ttl, now), key, later) ==
              if e.Some? && later > e.value then None else Some(value)
  {
  }

  /** `set` never loses another key unless it evicted that key, and it evicts
      only when the cache is full and the key is new. */
  lemma SetKeepsOthers<V>(entries: seq<(string, Item<V>)>, maxSize: int, defaultTtl: Option<int>,
                          key: string, value: V, ttl: Option<int>, now: int, other: string)
    requires other != key
    requires !MustEvict(entries, maxSize, key) || OldestKey(entries) != Some(other)
    ensures Dicts.Get(AfterSet(entries, maxSize, defaultTtl, key, value, ttl, now), other) ==
            Dicts.Get(entries, other)
  {
    var kept := if MustEvict(entries, maxSize, key) then Evicted(entries) else entries;
    Dicts.PutOther(kept, key, Item(key, value, ExpireTime(ttl, defaultTtl, now), now, now), other);
    if MustEvict(entries, maxSize, key) && entries != [] {
      Dicts.RemoveOther(entries, OldestKey(entries).value, other);
    }
  }

  /** When `set` evicts, the key it drops is the least recently accessed one
      (`OldestIsLeastRecent` says which), the new key is added, and the
      dropped key is gone afterwards. */
  lemma SetEvictsLeastRecent<V>(entries: seq<(string, Item<V>)>, maxSize: int, defaultTtl: Option<int>,
                                key: string, value: V, ttl: Option<int>, now: int)
    requires MustEvict(entries, maxSize, key) && entries != []
    ensures OldestKey(entries) == Some(entries[OldestIndex(entries, |entries|)].0)
    ensures !Dicts.HasKey(AfterSet(entries, maxSize, defaultTtl, key, value, ttl, now), OldestKey(entries).value)
  {
    var k := OldestKey(entries).value;
    var kept := Dicts.Remove(entries, k);
    var item := Item(key, value, ExpireTime(ttl, defaultTtl, now), now, now);
    assert AfterSet(entries, maxSize, defaultTtl, key, value, ttl, now) == Dicts.Put(kept, key, item);
    if Dicts.HasKey(kept, key) {
      Dicts.RemoveKeys(entries, k, key);
    }
  }

  /** `set` keeps the entries well formed: in particular the cache never
      grows past its bound. */
  lemma {:induction false} SetKeepsBound<V>(entries: seq<(string, Item<V>)>, maxSize: int, defaultTtl: Option<int>,
                                            key: string, value: V, ttl: Option<int>, now: int)
    requires WellFormed(entries, maxSize)
    ensures WellFormed(AfterSet(entries, maxSize, defaultTtl, key, value, ttl, now), maxSize)
  {
    var kept := if MustEvict(entries, maxSize, key) then Evicted(entries) else entries;
    var item := Item(key, value, ExpireTime(ttl, defaultTtl, now), now, now);
    if MustEvict(entries, maxSize, key) && entries != [] {
      Dicts.RemoveDistinct(entries, OldestKey(entries).value);
      RemoveKeepsKeyed(entries, OldestKey(entries).value);
    }
    assert ItemsKeyed(kept);
    Dicts.PutDistinct(kept, key, item);
    Dicts.PutLength(kept, key, item);
    PutKeepsKeyed(kept, key, item);
  }

  /** `get` keeps the entries well formed and never adds a key. */
  lemma {:induction false} GetKeepsBound<V>(entries: seq<(string, Item<V>)>, maxSize: int, key: string, now: int)
    requires WellFormed(entries, maxSize)
    ensures WellFormed(AfterGet(entries, key, now), maxSize)
    ensures |AfterGet(entries, key, now)| <= |entries|
  {
    match Dicts.Get(entries, key)
    case None =>
    case Some(item) =>
      if IsExpired(item, now) {
        Dicts.RemoveDistinct(entries, key);
        RemoveKeepsKeyed(entries, key);
      } else {
        var item' := item.(lastAccessed := now);
        assert item.key == key by { GetKeyed(entries, key); }
        Dicts.PutDistinct(entries, key, item');
        Dicts.PutLength(entries, key, item');
        PutKeepsKeyed(entries, key, item');
      }
  }

  /** After `get`, each entry is an old entry, or the item read with only its
      access time changed. */
  lemma AfterGetEntries<V>(entries: seq<(string, Item<V>)>, key: string, now: int)
    ensures forall e :: e in AfterGet(entries, key, now) ==>
      e in entries || (exists item :: (key, item) in entries && e == (key, item.(lastAccessed := now)))
  {
    match Dicts.Get(entries, key)
    case None =>
    case Some(item) =>
      if IsExpired(item, now) {
        Dicts.RemoveEntries(entries, key);
      } else {
        Dicts.PutEntries(entries, key, item.(lastAccessed := now));
      }
  }

  /** After `set`, each entry is an old entry or the item written. */
  lemma AfterSetEntries<V>(entries: seq<(string, Item<V>)>, maxSize: int, defaultTtl: Option<int>,
                           key: string, value: V, ttl: Option<int>, now: int)
    ensures forall e :: e in AfterSet(entries, maxSize, defaultTtl, key, value, ttl, now) ==>
      e in entries || e == (key, Item(key, value, ExpireTime(ttl, defaultTtl, now), now, now))
  {
    var kept := if MustEvict(entries, maxSize, key) then Evicted(entries) else entries;
    if MustEvict(entries, maxSize, key) && entries != [] {
      Dicts.RemoveEntries(entries, OldestKey(entries).value);
    }
    Dicts.PutEntries(kept, key, Item(key, value, ExpireTime(ttl, defaultTtl, now), now, now));
  }

  predicate ItemsKeyed<V>(entries: seq<(string, Item<V>)>) {
    forall i :: 0 <= i < |entries| ==> entries[i].1.key == entries[i].0
  }

  lemma {:induction false} GetKeyed<V>(entries: seq<(string, Item<V>)>, key: string)
    requires ItemsKeyed(entries) && Dicts.Get(entries, key).Some?
    ensures Dicts.Get(entries, key).value.key == key
  {
    if entries[0].0 != key {
      GetKeyed(entries[1..], key);
    }
  }

  lemma {:induction false} PutKeepsKeyed<V>(entries: seq<(string, Item<V>)>, key: string, item: Item<V>)
    requires ItemsKeyed(entries) && item.key == key
    ensures ItemsKeyed(Dicts.Put(entries, key, item))
  {
    if entries != [] && entries[0].0 != key {
      PutKeepsKeyed(entries[1..], key, item);
      assert Dicts.Put(entries, key, item) == [entries[0]] + Dicts.Put(entries[1..], key, item);
    }
  }

  lemma {:induction false} RemoveKeepsKeyed<V>(entries: seq<(string, Item<V>)>, key: string)
    requires ItemsKeyed(entries)
    ensures ItemsKeyed(Dicts.Remove(entries, key))
  {
    if entries != [] {
      RemoveKeepsKeyed(entries[1..], key);
      if entries[0].0 != key {
        assert Dicts.Remove(entries, key) == [entries[0]] + Dicts.Remove(entries[1..], key);
      }
    }
  }

  /** `Cache`: the dictionary of items, the size bound and the default time
      to live. */
  class Cache<V> {
    var entries: seq<(string, Item<V>)>
    const maxSize: int
    const defaultTtl: Option<int>

    predicate Valid()
      reads this
    {
      WellFormed(entries, maxSize)
    }

    /** `Cache(max_size, default_ttl)`; the data manager uses the defaults 100
        and 3600. */
    constructor (maxSize: int, defaultTtl: Option<int>)
      ensures Valid() && entries == []
      ensures this.maxSize == maxSize && this.defaultTtl == defaultTtl
    {
      entries := [];
      this.maxSize := maxSize;
      this.defaultTtl := defaultTtl;
    }

    /** `Cache.get`. */
    method Get(key: string, now: int) returns (r: Option<V>)
      requires Valid()
      modifies this
      ensures Valid()
      ensures r == Lookup(old(entries), key, now)
      ensures entries == AfterGet(old(entries), key, now)
    {
      GetKeepsBound(entries, maxSize, key, now);
      match Dicts.Get(entries, key)
      case None =>
        r := None;
      case Some(item) =>
        if IsExpired(item, now) {
          entries := Dicts.Remove(entries, key);
          r := None;
        } else {
          entries := Dicts.Put(entries, key, item.(lastAccessed := now));
          r := Some(item.value);
        }
    }

    /** `Cache.set`. */
    method Set(key: string, value: V, ttl: Option<int>, now: int)
      requires Valid()
      modifies this
      ensures Valid()
      ensures entries == AfterSet(old(entries), maxSize, defaultTtl, key, value, ttl, now)
    {
      SetKeepsBound(entries, maxSize, defaultTtl, key, value, ttl, now);
      if |entries| >= maxSize && !Dicts.HasKey(entries, key) {
        Evict();
      }
      var expireTime := ExpireTime(ttl, defaultTtl, now);
      entries := Dicts.Put(entries, key, Item(key, value, expireTime, now, now));
    }

    /** `Cache.delete`: True exactly when the key was present. */
    method Delete(key: string) returns (deleted: bool)
      requires Valid()
      modifies this
      ensures Valid()
      ensures deleted == Dicts.HasKey(old(entries), key)
      ensures entries == Dicts.Remove(old(entries), key)
    {
      deleted := Dicts.HasKey(entries, key);
      Dicts.RemoveDistinct(entries, key);
      RemoveKeepsKeyed(entries, key);
      if deleted {
        entries := Dicts.Remove(entries, key);
      }
    }

    /** `Cache.clear`. */
    method Clear()
      requires Valid()
      modifies this
      ensures Valid() && entries == []
    {
      entries := [];
    }

    /** `Cache._evict`: drop the least recently accessed item. */
    method Evict()
      requires Valid()
      modifies this
      ensures entries == Evicted(old(entries))
      ensures Valid()
    {
      match OldestKey(entries)
      case None =>
      case Some(k) =>
        Dicts.RemoveDistinct(entries, k);
        RemoveKeepsKeyed(entries, k);
        entries := Dicts.Remove(entries, k);
    }
  }
}
