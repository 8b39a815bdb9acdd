/** The bounded least-recently-used document cache the loader relies on
    (mnemonist's `LRUCacheWithDelete`), as the contract of its operations:
    `has`, `peek`, `get`, `set`, `delete` and `capacity`. The cache's own
    linked arrays are not modelled; its state is a map of entries plus the
    recency order of their keys. */
module Lru {
  import opened Wrappers
  import opened Seqs

  /** The entries of a cache and the recency order of their keys: `order[0]`
      is the least recently used key, the last one the most recently used. */
  datatype LruState<V> = LruState(entries: map<string, V>, order: seq<string>)

  /** The order lists every key exactly once and the cache holds at most `capacity` entries. */
  ghost predicate WellFormed<V>(s: LruState<V>, capacity: nat) {
    && NoDuplicates(s.order)
    && (forall k :: k in s.entries <==> k in s.order)
    && |s.order| <= capacity
  }

  /** `key` moved to the most recently used position. */
  function Touch(order: seq<string>, key: string): seq<string> {
    Remove(order, key) + [key]
  }

  /** `has(key)` and `peek(key)` read without touching the recency order. */
  function PeekState<V>(s: LruState<V>, key: string): Option<V> {
    if key in s.entries then Some(s.entries[key]) else None
  }

  /** `get(key)`: the value, and the key promoted to most recently used when present. */
  function GetState<V>(s: LruState<V>, key: string): (LruState<V>, Option<V>) {
    if key in s.entries then (LruState(s.entries, Touch(s.order, key)), Some(s.entries[key]))
    else (s, None)
  }

  /** True when storing a new key must first evict the least recently used entry. */
  predicate Evicts<V>(s: LruState<V>, capacity: nat, key: string) {
    key !in s.entries && |s.order| >= capacity && |s.order| > 0
  }

  /** `set(key, value)`: replace and promote an existing key; otherwise add the key
      as most recently used, evicting the least recently used entry when full. */
  function PutState<V>(s: LruState<V>, capacity: nat, key: string, value: V): LruState<V> {
    if key in s.entries then LruState(s.entries[key := value], Touch(s.order, key))
    else if Evicts(s, capacity, key) then
      LruState((s.entries - {s.order[0]})[key := value], s.order[1..] + [key])
    else LruState(s.entries[key := value], s.order + [key])
  }

  /** `delete(key)`: the state without `key`, and whether an entry was removed. */
  function DeleteState<V>(s: LruState<V>, key: string): (LruState<V>, bool) {
    if key in s.entries then (LruState(s.entries - {key}, Remove(s.order, key)), true)
    else (s, false)
  }

  /** `set` keeps the cache well formed and within its capacity. */
  lemma PutWellFormed<V>(s: LruState<V>, capacity: nat, key: string, value: V)
    requires WellFormed(s, capacity) && capacity > 0
    ensures WellFormed(PutState(s, capacity, key, value), capacity)
  {
    var t := PutState(s, capacity, key, value);
    if key in s.entries {
      NoDuplicatesAppend(Remove(s.order, key), key);
    } else if Evicts(s, capacity, key) {
      var rest := s.order[1..];
      assert s.order == [s.order[0]] + rest;
      assert s.order[0] !in rest;
      NoDuplicatesAppend(rest, key);
      forall k ensures k in t.entries <==> k in t.order {
        assert k in t.order <==> k == key || k in rest;
      }
    } else {
      NoDuplicatesAppend(s.order, key);
    }
  }

  /** After `set`, the key holds the new value and is the most recently used. */
  lemma PutStores<V>(s: LruState<V>, capacity: nat, key: string, value: V)
    requires WellFormed(s, capacity) && capacity > 0
    ensures key in PutState(s, capacity, key, value).entries
    ensures PutState(s, capacity, key, value).entries[key] == value
    ensures PeekState(PutState(s, capacity, key, value), key) == Some(value)
    ensures Last(PutState(s, capacity, key, value).order) == key
  {
  }

  function Last(s: seq<string>): string {
    if s == [] then "" else s[|s| - 1]
  }

  /** `set` changes no other entry; it drops one only when the cache was full and
      the key new, and the entry dropped is the least recently used one. */
  lemma PutEvictsOnlyLeastRecent<V>(s: LruState<V>, capacity: nat, key: string, value: V, k: string)
    requires WellFormed(s, capacity) && capacity > 0 && k != key
    ensures k in PutState(s, capacity, key, value).entries ==>
      k in s.entries && PutState(s, capacity, key, value).entries[k] == s.entries[k]
    ensures k in s.entries && k !in PutState(s, capacity, key, value).entries <==>
      Evicts(s, capacity, key) && k == s.order[0]
  {
  }

  /** `set` keeps the relative recency of all other keys, minus the evicted one. */
  lemma {:induction false} PutKeepsOtherOrder<V>(s: LruState<V>, capacity: nat, key: string, value: V)
    requires WellFormed(s, capacity) && capacity > 0
    ensures Remove(PutState(s, capacity, key, value).order, key) ==
      if Evicts(s, capacity, key) then s.order[1..] else Remove(s.order, key)
  {
    var t := PutState(s, capacity, key, value);
    if key in s.entries {
      RemoveAppend(Remove(s.order, key), [key], key);
    } else if Evicts(s, capacity, key) {
      RemoveAppend(s.order[1..], [key], key);
    } else {
      RemoveAppend(s.order, [key], key);
    }
  }

  /** The keys of `recent` are exactly the keys of `order` from position `n` on:
      the most recently used ones. */
  predicate RecentFrom(order: seq<string>, n: nat, recent: set<string>) {
    && n <= |order|
    && (forall k :: k in order[..n] ==> k !in recent)
    && (forall k :: k in order[n..] ==> k in recent)
  }

  /** When the keys of a set `recent`, fewer than the capacity, are the most
      recently used ones, `set` keeps them so with `key` added, and what it
      evicts is not one of them. */
  lemma PutKeepsRecentLast<V>(s: LruState<V>, capacity: nat, key: string, value: V,
                              recent: set<string>, m: nat) returns (n: nat)
    requires WellFormed(s, capacity) && capacity > 0 && |recent| < capacity
    requires RecentFrom(s.order, m, recent)
    ensures Evicts(s, capacity, key) ==> s.order[0] !in recent
    ensures RecentFrom(PutState(s, capacity, key, value).order, n, recent + {key})
  {
    if key in s.entries {
      n := TouchKeepsRecentLast(s.order, m, recent, key);
    } else if Evicts(s, capacity, key) {
      n := EvictKeepsRecentLast(s.order, m, recent, key);
    } else {
      n := m;
      AppendKeepsRecentLast(s.order, m, recent, key);
    }
  }

  lemma TouchKeepsRecentLast(order: seq<string>, m: nat, recent: set<string>, key: string) returns (n: nat)
    requires RecentFrom(order, m, recent)
    ensures RecentFrom(Touch(order, key), n, recent + {key})
  {
    var a, b := order[..m], order[m..];
    assert order == a + b;
    RemoveAppend(a, b, key);
    n := |Remove(a, key)|;
    assert Touch(order, key) == Remove(a, key) + (Remove(b, key) + [key]);
    RecentAfterAppend(Remove(a, key), Remove(b, key), key, recent);
  }

  lemma EvictKeepsRecentLast(order: seq<string>, m: nat, recent: set<string>, key: string) returns (n: nat)
    requires NoDuplicates(order) && key !in order && |order| > |recent|
    requires RecentFrom(order, m, recent)
    ensures order[0] !in recent
    ensures RecentFrom(order[1..] + [key], n, recent + {key})
  {
    RecentFitIn(order, m, recent);
    var a, b := order[..m], order[m..];
    assert order == a + b;
    n := m - 1;
    assert order[1..] + [key] == a[1..] + (b + [key]);
    RecentAfterAppend(a[1..], b, key, recent);
  }

  lemma AppendKeepsRecentLast(order: seq<string>, m: nat, recent: set<string>, key: string)
    requires key !in order && RecentFrom(order, m, recent)
    ensures RecentFrom(order + [key], m, recent + {key})
  {
    var a, b := order[..m], order[m..];
    assert order == a + b;
    assert order + [key] == a + (b + [key]);
    RecentAfterAppend(a, b, key, recent);
  }

  /** At most `|recent|` keys of a duplicate-free order lie in `recent`. */
  lemma RecentFitIn(order: seq<string>, m: nat, recent: set<string>)
    requires NoDuplicates(order) && m <= |order|
    requires forall k :: k in order[m..] ==> k in recent
    ensures |order| - m <= |recent|
  {
    var b := order[m..];
    assert forall i, j :: 0 <= i < j < |b| ==> b[i] == order[m + i] && b[j] == order[m + j];
    NoDuplicatesWithin(b, recent);
  }

  /** Appending `key` after the recent keys `b` keeps the older keys `a` first. */
  lemma RecentAfterAppend(a: seq<string>, b: seq<string>, key: string, recent: set<string>)
    requires forall k :: k in a ==> k !in recent + {key}
    requires forall k :: k in b ==> k in recent
    ensures RecentFrom(a + (b + [key]), |a|, recent + {key})
  {
    var t := a + (b + [key]);
    assert t[..|a|] == a;
    assert t[|a|..] == b + [key];
  }

  /** `get` returns what `peek` would, changes no entry, and makes the key the most
      recently used; `peek` changes nothing at all. */
  lemma GetPromotes<V>(s: LruState<V>, capacity: nat, key: string)
    requires WellFormed(s, capacity)
    ensures GetState(s, key).1 == PeekState(s, key)
    ensures GetState(s, key).0.entries == s.entries
    ensures WellFormed(GetState(s, key).0, capacity)
    ensures key in s.entries ==> Last(GetState(s, key).0.order) == key
    ensures key !in s.entries ==> GetState(s, key).0 == s
    ensures Remove(GetState(s, key).0.order, key) == Remove(s.order, key)
  {
    if key in s.entries {
      NoDuplicatesAppend(Remove(s.order, key), key);
      RemoveAppend(Remove(s.order, key), [key], key);
    }
  }

  /** `delete` reports whether the key was present and leaves every other entry alone. */
  lemma DeleteRemoves<V>(s: LruState<V>, capacity: nat, key: string)
    requires WellFormed(s, capacity)
    ensures DeleteState(s, key).1 <==> key in s.entries
    ensures key !in DeleteState(s, key).0.entries
    ensures forall k :: k != key ==> PeekState(DeleteState(s, key).0, k) == PeekState(s, k)
    ensures WellFormed(DeleteState(s, key).0, capacity)
    ensures !DeleteState(s, key).1 ==> DeleteState(s, key).0 == s
    ensures DeleteState(s, key).0.order == Remove(s.order, key)
  {
  }

  /** The cache object shared by the loader's components. */
  class LruCache<V> {
    const capacity: nat
    var entries: map<string, V>
    var order: seq<string>

    function State(): LruState<V>
      reads this
    {
      LruState(entries, order)
    }

    ghost predicate Valid()
      reads this
    {
      capacity > 0 && WellFormed(State(), capacity)
    }

    /** mnemonist refuses a capacity that is not positive. */
    constructor (capacity: nat)
      requires capacity > 0
      ensures Valid() && this.capacity == capacity
      ensures State() == LruState(map[], [])
    {
      this.capacity := capacity;
      entries := map[];
      order := [];
    }

    /** `has(key)`: membership, without promotion. */
    function Has(key: string): (r: bool)
      requires Valid()
      reads this
      ensures r <==> Peek(key).Some?
    {
      key in entries
    }

    /** `peek(key)`: the value, without promotion. */
    function Peek(key: string): (r: Option<V>)
      requires Valid()
      reads this
      ensures r.Some? <==> key in order
      ensures r.Some? ==> key in entries && r.value == entries[key]
    {
      PeekState(State(), key)
    }

    method Get(key: string) returns (value: Option<V>)
      requires Valid()
      modifies this
      ensures Valid()
      ensures (State(), value) == GetState(old(State()), key)
    {
      GetPromotes(State(), capacity, key);
      if key in entries {
        value := Some(entries[key]);
        order := Touch(order, key);
      } else {
        value := None;
      }
    }

    method Set(key: string, value: V)
      requires Valid()
      modifies this
      ensures Valid()
      ensures State() == PutState(old(State()), capacity, key, value)
    {
      PutWellFormed(State(), capacity, key, value);
      if key in entries {
        order := Touch(order, key);
      } else if Evicts(State(), capacity, key) {
        entries := entries - {order[0]};
        order := order[1..] + [key];
      } else {
        order := order + [key];
      }
      entries := entries[key := value];
    }

    method Delete(key: string) returns (removed: bool)
      requires Valid()
      modifies this
      ensures Valid()
      ensures (State(), removed) == DeleteState(old(State()), key)
    {
      DeleteRemoves(State(), capacity, key);
      removed := key in entries;
      if removed {
        entries := entries - {key};
        order := Remove(order, key);
      }
    }
  }
}
