/** The multi-key TTL cache: a `Map` from key to `{data, timestamp}` that expires entries
    lazily when they are read. The clock reading `now` is passed in for `Date.now()`. */
module CacheService {
  import opened Wrappers
  import opened Records
  import opened Collections

  /** One hour, in milliseconds. */
  const CacheDuration: int := 3600000

  /** The key used when a caller gives none. */
  const DefaultKey: string := "default"

  datatype Entry = Entry(data: Payload, timestamp: int)

  /** What a successful `get` returns. */
  datatype Hit = Hit(data: Payload, timestamp: int, age: int)

  /** One row of `getInfo`; `count` is `data.length`, absent for a single detail record. */
  datatype InfoRow = InfoRow(key: string, count: Option<nat>, age: int, isValid: bool)

  datatype Info = Info(totalKeys: nat, keys: seq<InfoRow>)

  /** An entry older than the TTL, by a strict comparison. */
  predicate Expired(entries: map<string, Entry>, key: string, now: int) {
    key in entries && now - entries[key].timestamp > CacheDuration
  }

  /** What `get(key)` returns at time `now`. */
  function Lookup(entries: map<string, Entry>, key: string, now: int): (r: Option<Hit>)
    ensures r.Some? <==> key in entries && !Expired(entries, key, now)
    ensures r.Some? ==> r.value.data == entries[key].data && r.value.timestamp == entries[key].timestamp
    ensures r.Some? ==> r.value.age == now - r.value.timestamp <= CacheDuration
  {
    if key !in entries || Expired(entries, key, now) then None
    else Some(Hit(entries[key].data, entries[key].timestamp, now - entries[key].timestamp))
  }

  /** The store without `key`. */
  function Without(entries: map<string, Entry>, key: string): (m: map<string, Entry>)
    ensures key !in m
    ensures forall k :: k in m <==> k in entries && k != key
    ensures forall k :: k in m ==> m[k] == entries[k]
  {
    map k | k in entries && k != key :: entries[k]
  }

  /** A value stored at time `t` comes back from a read at the same instant, unchanged and
      with age 0. */
  lemma SetThenGet(entries: map<string, Entry>, key: string, data: Payload, t: int)
    ensures Lookup(entries[key := Entry(data, t)], key, t) == Some(Hit(data, t, 0))
  {
  }

  /** The expiry test is strict: an entry exactly one TTL old is still served, and one a
      millisecond older is not. */
  lemma ExpiryBoundary(entries: map<string, Entry>, key: string)
    requires key in entries
    ensures Lookup(entries, key, entries[key].timestamp + CacheDuration).Some?
    ensures Lookup(entries, key, entries[key].timestamp + CacheDuration + 1).None?
  {
  }

  /** Writing or evicting one key never changes what another key reads. */
  lemma OtherKeysIndependent(entries: map<string, Entry>, key: string, other: string, e: Entry, now: int)
    requires other != key
    ensures Lookup(entries[key := e], other, now) == Lookup(entries, other, now)
    ensures Lookup(Without(entries, key), other, now) == Lookup(entries, other, now)
  {
  }

  /** What `getInfo` reports at `now`: the number of stored keys, and one row per key in
      insertion order with its payload length, its age, and whether that age is within the
      TTL; entries that have expired but were not read since are listed, flagged invalid. */
  predicate Describes(info: Info, entries: map<string, Entry>, order: seq<string>, now: int) {
    info.totalKeys == |entries| == |order| == |info.keys| &&
    forall i :: 0 <= i < |info.keys| ==>
      info.keys[i].key == order[i] && order[i] in entries &&
      info.keys[i].count == entries[order[i]].data.Length() &&
      info.keys[i].age == now - entries[order[i]].timestamp &&
      (info.keys[i].isValid <==> info.keys[i].age <= CacheDuration)
  }

  lemma {:induction false} NoDupCard(s: seq<string>)
    requires NoDup(s)
    ensures |set x | x in s| == |s|
  {
    if s != [] {
      var t := s[..|s| - 1];
      assert NoDup(t);
      NoDupCard(t);
      assert (set x | x in s) == (set x | x in t) + {s[|s| - 1]};
      assert s[|s| - 1] !in t;
    }
  }

  class Cache {
    /** The stored entries. */
    var entries: map<string, Entry>
    /** The keys in the `Map`'s insertion order. */
    var order: seq<string>

    ghost predicate Valid()
      reads this
    {
      NoDup(order) && forall k :: k in entries <==> k in order
    }

    constructor ()
      ensures Valid() && entries == map[] && order == []
    {
      entries := map[];
      order := [];
    }

    /** `set(data, key)`: store `data` stamped `now`, replacing any earlier entry; a key
        already present keeps its place in the iteration order. */
    method Set(data: Payload, key: string, now: int)
      requires Valid()
      modifies this
      ensures Valid()
      ensures entries == old(entries)[key := Entry(data, now)]
      ensures order == if key in old(entries) then old(order) else old(order) + [key]
    {
      if key !in entries {
        order := order + [key];
      }
      entries := entries[key := Entry(data, now)];
    }

    /** `clear(key)`: None empties the store, Some(k) deletes k alone. */
    method Clear(key: Option<string>)
      requires Valid()
      modifies this
      ensures Valid()
      ensures key.None? ==> entries == map[] && order == []
      ensures key.Some? ==> entries == Without(old(entries), key.value)
      ensures key.Some? ==> order == RemoveValue(old(order), key.value)
    {
      if key.None? {
        entries := map[];
        order := [];
      } else {
        entries := Without(entries, key.value);
        order := RemoveValue(order, key.value);
      }
    }

    /** `get(key)`: the stored data with its timestamp and age, or None when the key is
        absent or expired; an expired entry is deleted, and nothing else changes. */
    method Get(key: string, now: int) returns (r: Option<Hit>)
      requires Valid()
      modifies this
      ensures Valid()
      ensures r == Lookup(old(entries), key, now)
      ensures Expired(old(entries), key, now) ==>
                entries == Without(old(entries), key) && order == RemoveValue(old(order), key)
      ensures !Expired(old(entries), key, now) ==> entries == old(entries) && order == old(order)
    {
      if key !in entries {
        return None;
      }
      var item := entries[key];
      var age := now - item.timestamp;
      if age > CacheDuration {
        Clear(Some(key));
        return None;
      }
      r := Some(Hit(item.data, item.timestamp, age));
    }

    /** `isValid(key)`: whether `get(key)` would return data, with the same eviction. */
    method IsValid(key: string, now: int) returns (b: bool)
      requires Valid()
      modifies this
      ensures Valid()
      ensures b <==> key in old(entries) && !Expired(old(entries), key, now)
      ensures Expired(old(entries), key, now) ==>
                entries == Without(old(entries), key) && order == RemoveValue(old(order), key)
      ensures !Expired(old(entries), key, now) ==> entries == old(entries) && order == old(order)
    {
      var r := Get(key, now);
      b := r.Some?;
    }

    /** `getInfo()`: one row per stored key in insertion order, expired entries included
        and flagged; the store is only read. */
    method GetInfo(now: int) returns (info: Info)
      requires Valid()
      ensures Describes(info, entries, order, now)
    {
      var rows: seq<InfoRow> := [];
      var i := 0;
      while i < |order|
        invariant 0 <= i <= |order| && |rows| == i
        invariant forall j :: 0 <= j < i ==>
                    rows[j].key == order[j] && order[j] in entries &&
                    rows[j].count == entries[order[j]].data.Length() &&
                    rows[j].age == now - entries[order[j]].timestamp &&
                    (rows[j].isValid <==> rows[j].age <= CacheDuration)
      {
        var key := order[i];
        var value := entries[key];
        var age := now - value.timestamp;
        rows := rows + [InfoRow(key, value.data.Length(), age, age <= CacheDuration)];
        i := i + 1;
      }
      NoDupCard(order);
      assert entries.Keys == set x | x in order;
      info := Info(|entries|, rows);
    }
  }
}
