/** What an LRU cache of equal-sized payloads holds after a serial trace of reads. */
module LruTraces {
  import opened Wrappers
  import opened Arithmetic
  import opened Lru

  // ----- Keys by recency -----

  function Remove<K(==)>(keys: seq<K>, k: K): (r: seq<K>)
    ensures k !in r && |r| <= |keys|
  {
    if keys == [] then []
    else
      var front, last := Remove(keys[..|keys| - 1], k), keys[|keys| - 1];
      if last == k then front else front + [last]
  }

  ghost predicate Distinct<K>(keys: seq<K>) {
    forall i, j :: 0 <= i < j < |keys| ==> keys[i] != keys[j]
  }

  lemma {:induction false} RemoveMissing<K>(keys: seq<K>, k: K)
    requires k !in keys
    ensures Remove(keys, k) == keys
  {
    if keys != [] {
      var front, last := keys[..|keys| - 1], keys[|keys| - 1];
      assert keys == front + [last];
      RemoveMissing(front, k);
    }
  }

  lemma {:induction false} RemoveKeeps<K>(keys: seq<K>, k: K)
    ensures forall x :: x in Remove(keys, k) <==> x in keys && x != k
    ensures Distinct(keys) ==> Distinct(Remove(keys, k))
  {
    if keys != [] {
      var front, last := keys[..|keys| - 1], keys[|keys| - 1];
      assert keys == front + [last];
      RemoveKeeps(front, k);
      var rest := Remove(front, k);
      assert forall i :: 0 <= i < |rest| ==> rest[i] in rest;
    }
  }

  /** The distinct keys of a trace, the most recently read last. */
  function Recency<K(==)>(trace: seq<K>): seq<K> {
    if trace == [] then []
    else
      var k := trace[|trace| - 1];
      Remove(Recency(trace[..|trace| - 1]), k) + [k]
  }

  lemma {:induction false} RecencyDistinct<K>(trace: seq<K>)
    ensures Distinct(Recency(trace))
    ensures forall x :: x in Recency(trace) <==> x in trace
  {
    if trace != [] {
      var front, k := trace[..|trace| - 1], trace[|trace| - 1];
      assert trace == front + [k];
      RecencyDistinct(front);
      RemoveKeeps(Recency(front), k);
    }
  }

  /** The last `n` of them. */
  function Suffix<K>(keys: seq<K>, n: nat): (r: seq<K>)
    ensures |r| == if n < |keys| then n else |keys|
  {
    if n == 0 || keys == [] then [] else Suffix(keys[..|keys| - 1], n - 1) + [keys[|keys| - 1]]
  }

  lemma {:induction false} SuffixIsSlice<K>(keys: seq<K>, n: nat)
    ensures Suffix(keys, n) == if n < |keys| then keys[|keys| - n..] else keys
  {
    if n > 0 && keys != [] {
      var front, last := keys[..|keys| - 1], keys[|keys| - 1];
      SuffixIsSlice(front, n - 1);
      assert keys == front + [last];
    }
  }

  lemma {:induction false} SuffixGrows<K>(keys: seq<K>, n: nat, m: nat)
    requires n <= m
    ensures forall x :: x in Suffix(keys, n) ==> x in Suffix(keys, m)
  {
    if n > 0 && keys != [] {
      SuffixGrows(keys[..|keys| - 1], n - 1, m - 1);
    }
  }

  lemma {:induction false} SuffixMembers<K>(keys: seq<K>, n: nat)
    ensures forall x :: x in Suffix(keys, n) ==> x in keys
  {
    if n > 0 && keys != [] {
      SuffixMembers(keys[..|keys| - 1], n - 1);
    }
  }

  lemma SuffixSnoc<K>(front: seq<K>, last: K, n: nat)
    requires n > 0
    ensures Suffix(front + [last], n) == Suffix(front, n - 1) + [last]
  {
    assert (front + [last])[..|front|] == front;
  }

  lemma SnocSteps<K>(front: seq<K>, last: K, n: nat, k: K)
    ensures Remove(front + [last], k) == if last == k then Remove(front, k) else Remove(front, k) + [last]
    ensures Suffix(front + [last], n) == if n == 0 then [] else Suffix(front, n - 1) + [last]
  {
    assert (front + [last])[..|front|] == front;
  }

  /** Removing a key that is not among the last `n` leaves these as they are. */
  lemma {:induction false} SuffixWithoutStranger<K>(keys: seq<K>, n: nat, k: K)
    requires k !in Suffix(keys, n)
    ensures Suffix(Remove(keys, k), n) == Suffix(keys, n)
  {
    if n > 0 && keys != [] {
      var front, last := keys[..|keys| - 1], keys[|keys| - 1];
      assert last != k;
      SuffixWithoutStranger(front, n - 1, k);
      SnocSteps(Remove(front, k), last, n, k);
    }
  }

  lemma LastRemoved<K>(front: seq<K>, last: K, n: nat)
    requires last !in front && n > 0
    ensures Suffix(Remove(front + [last], last), n - 1) == Remove(Suffix(front + [last], n), last)
  {
    var before := Suffix(front, n - 1);
    SnocSteps(front, last, n, last);
    RemoveMissing(front, last);
    SuffixMembers(front, n - 1);
    RemoveLast(before, last);
  }

  lemma RemoveLast<K>(before: seq<K>, last: K)
    requires last !in before
    ensures Remove(before + [last], last) == before
  {
    SnocSteps(before, last, 0, last);
    RemoveMissing(before, last);
  }

  lemma InnerRemoved<K>(front: seq<K>, last: K, n: nat, k: K)
    requires last != k && n > 1 && Suffix(Remove(front, k), n - 2) == Remove(Suffix(front, n - 1), k)
    ensures Suffix(Remove(front + [last], k), n - 1) == Remove(Suffix(front + [last], n), k)
  {
    SnocSteps(front, last, n, k);
    SnocSteps(Suffix(front, n - 1), last, n, k);
    SnocSteps(Remove(front, k), last, n - 1, k);
  }

  /** Removing one that is among them brings no other one in. */
  lemma {:induction false} SuffixWithoutMember<K>(keys: seq<K>, n: nat, k: K)
    requires Distinct(keys) && n > 0 && k in Suffix(keys, n)
    ensures Suffix(Remove(keys, k), n - 1) == Remove(Suffix(keys, n), k)
  {
    var front, last := keys[..|keys| - 1], keys[|keys| - 1];
    assert keys == front + [last];
    LastIsNew(keys);
    if last == k {
      LastRemoved(front, last, n);
    } else {
      MemberBefore(front, last, n, k);
      SuffixWithoutMember(front, n - 1, k);
      InnerRemoved(front, last, n, k);
    }
  }

  lemma MemberBefore<K>(front: seq<K>, last: K, n: nat, k: K)
    requires n > 0 && k in Suffix(front + [last], n) && k != last
    ensures k in Suffix(front, n - 1) && n > 1
  {
    SnocSteps(front, last, n, k);
  }

  lemma LastIsNew<K>(keys: seq<K>)
    requires Distinct(keys) && keys != []
    ensures keys[|keys| - 1] !in keys[..|keys| - 1]
    ensures Distinct(keys[..|keys| - 1])
  {
  }

  // ----- The cache by its keys -----

  function Keys<K, V>(e: seq<Entry<K, V>>): (keys: seq<K>)
    ensures |keys| == |e| && forall i :: 0 <= i < |e| ==> keys[i] == e[i].key
  {
    seq(|e|, i requires 0 <= i < |e| => e[i].key)
  }

  lemma {:induction false} KeysWithout<K(!new), V(!new)>(e: seq<Entry<K, V>>, k: K)
    ensures Keys(Without(e, k)) == Remove(Keys(e), k)
  {
    if e != [] {
      KeysWithout(e[..|e| - 1], k);
      assert Keys(e)[..|e| - 1] == Keys(e[..|e| - 1]);
    }
  }

  lemma KeysMembers<K(!new), V(!new)>(e: seq<Entry<K, V>>, k: K)
    ensures Lookup(e, k).Some? <==> k in Keys(e)
    ensures Unique(e) <==> Distinct(Keys(e))
  {
  }

  ghost predicate Uniform<K(!new), V(!new)>(e: seq<Entry<K, V>>, size: nat) {
    forall x :: x in e ==> x.size == size
  }

  function Bytes(count: nat, size: nat): nat {
    if count == 0 then 0 else Bytes(count - 1, size) + size
  }

  /** How many payloads of `size` bytes fit. */
  function Slots(capacity: nat, size: nat): nat
    requires size > 0
  {
    if capacity < size then 0 else 1 + Slots(capacity - size, size)
  }

  lemma {:induction false} SlotsIsQuotient(capacity: nat, size: nat)
    requires size > 0
    ensures Slots(capacity, size) == capacity / size
  {
    if capacity >= size {
      SlotsIsQuotient(capacity - size, size);
      var q, r := (capacity - size) / size, (capacity - size) % size;
      assert capacity == (q + 1) * size + r;
      QuotientUnique(capacity, size, q + 1, r);
    } else {
      QuotientUnique(capacity, size, 0, capacity);
    }
  }

  lemma {:induction false} UniformTotal<K(!new), V(!new)>(e: seq<Entry<K, V>>, size: nat)
    requires Uniform(e, size)
    ensures Total(e) == Bytes(|e|, size)
  {
    if e != [] {
      UniformTotal(e[..|e| - 1], size);
    }
  }

  /** One more payload does not fit exactly when the cache is full of them. */
  lemma {:induction false} FullExactly(count: nat, size: nat, capacity: nat)
    requires size > 0
    ensures Bytes(count, size) + size > capacity <==> count >= Slots(capacity, size)
    decreases count
  {
    if capacity >= size && count > 0 {
      FullExactly(count - 1, size, capacity - size);
    }
  }

  lemma SuffixOfTail<K>(keys: seq<K>, n: nat)
    requires n < |keys|
    ensures Suffix(keys, n) == Suffix(keys[1..], n)
  {
    SuffixIsSlice(keys, n);
    SuffixIsSlice(keys[1..], n);
    var tail := keys[1..];
    assert keys[|keys| - n..] == tail[|tail| - n..];
  }

  lemma KeysTail<K(!new), V(!new)>(e: seq<Entry<K, V>>)
    requires e != []
    ensures Keys(e[1..]) == Keys(e)[1..]
  {
  }

  lemma {:induction false} EvictedUniform<K(!new), V(!new)>(e: seq<Entry<K, V>>, size: nat, capacity: nat)
    requires Uniform(e, size) && 0 < size <= capacity
    ensures var n := Slots(capacity, size); n > 0 && Keys(Evicted(e, size, capacity)) == Suffix(Keys(e), n - 1)
    ensures Uniform(Evicted(e, size, capacity), size)
    decreases |e|
  {
    var n := Slots(capacity, size);
    UniformTotal(e, size);
    FullExactly(|e|, size, capacity);
    FullExactly(0, size, capacity);
    if |e| >= n {
      EvictedUniform(e[1..], size, capacity);
      KeysTail(e);
      SuffixOfTail(Keys(e), n - 1);
    } else {
      SuffixIsSlice(Keys(e), n - 1);
    }
  }

  // ----- Serial reads -----

  /** One read through the cache: get, then load and put on a miss. */
  function Read<K(==, !new), V(!new)>(e: seq<Entry<K, V>>, k: K, store: K -> V, size: nat, capacity: nat): seq<Entry<K, V>> {
    if Lookup(e, k).Some? then Touched(e, k) else Stored(e, Entry(k, store(k), size), capacity)
  }

  function ReadAll<K(==, !new), V(!new)>(trace: seq<K>, store: K -> V, size: nat, capacity: nat): seq<Entry<K, V>> {
    if trace == [] then []
    else Read(ReadAll(trace[..|trace| - 1], store, size, capacity), trace[|trace| - 1], store, size, capacity)
  }

  /** The entries are payloads of the store, all of one size, under these keys in this order. */
  ghost predicate Mirrors<K(!new), V(!new)>(e: seq<Entry<K, V>>, store: K -> V, size: nat, keys: seq<K>) {
    Keys(e) == keys && FromStore(e, store, size)
  }

  ghost predicate FromStore<K(!new), V(!new)>(e: seq<Entry<K, V>>, store: K -> V, size: nat) {
    Unique(e) && Uniform(e, size) && forall x :: x in e ==> x.value == store(x.key)
  }

  lemma {:induction false} SuffixOfSuffix<K>(keys: seq<K>, n: nat)
    requires n > 0
    ensures Suffix(Suffix(keys, n), n - 1) == Suffix(keys, n - 1)
  {
    if n > 1 && keys != [] {
      var front, last := keys[..|keys| - 1], keys[|keys| - 1];
      SuffixOfSuffix(front, n - 1);
      SnocSteps(Suffix(front, n - 1), last, n - 1, last);
    }
  }

  lemma KeysSnoc<K, V>(e: seq<Entry<K, V>>, x: Entry<K, V>)
    ensures Keys(e + [x]) == Keys(e) + [x.key]
  {
  }

  lemma HitContents<K(!new), V(!new)>(e: seq<Entry<K, V>>, k: K, store: K -> V, size: nat)
    requires FromStore(e, store, size) && Lookup(e, k).Some?
    ensures FromStore(Touched(e, k), store, size)
  {
    WithoutUnique(e, k);
    SnocUnique(Without(e, k), Lookup(e, k).value);
  }

  lemma HitKeeps<K(!new), V(!new)>(e: seq<Entry<K, V>>, k: K, store: K -> V, size: nat, recent: seq<K>, n: nat)
    requires Distinct(recent) && Mirrors(e, store, size, Suffix(recent, n)) && Lookup(e, k).Some?
    ensures Mirrors(Touched(e, k), store, size, Suffix(Remove(recent, k) + [k], n))
  {
    HitContents(e, k, store, size);
    KeysMembers(e, k);
    KeysWithout(e, k);
    KeysSnoc(Without(e, k), Lookup(e, k).value);
    SuffixWithoutMember(recent, n, k);
    SnocSteps(Remove(recent, k), k, n, k);
  }

  lemma MissContents<K(!new), V(!new)>(e: seq<Entry<K, V>>, k: K, store: K -> V, size: nat, kept: seq<Entry<K, V>>)
    requires FromStore(e, store, size) && !Has(e, k) && |kept| <= |e| && kept == e[|e| - |kept|..]
    ensures FromStore(kept + [Entry(k, store(k), size)], store, size)
  {
    SuffixUnique(e, kept, k);
    SnocUnique(kept, Entry(k, store(k), size));
  }

  lemma MissRecency<K>(recent: seq<K>, n: nat, k: K)
    requires n > 0 && k !in Suffix(recent, n)
    ensures Suffix(Remove(recent, k) + [k], n) == Suffix(Suffix(recent, n), n - 1) + [k]
  {
    SuffixOfSuffix(recent, n);
    SuffixGrows(recent, n - 1, n);
    SuffixWithoutStranger(recent, n - 1, k);
    SuffixSnoc(Remove(recent, k), k, n);
  }

  lemma MissFits<K(!new), V(!new)>(e: seq<Entry<K, V>>, x: Entry<K, V>, store: K -> V, size: nat,
                                   recent: seq<K>, n: nat, kept: seq<Entry<K, V>>)
    requires Mirrors(e, store, size, Suffix(recent, n)) && !Has(e, x.key) && n > 0
    requires x == Entry(x.key, store(x.key), size)
    requires |kept| <= |e| && kept == e[|e| - |kept|..] && Keys(kept) == Suffix(Keys(e), n - 1)
    ensures Mirrors(kept + [x], store, size, Suffix(Remove(recent, x.key) + [x.key], n))
  {
    MissContents(e, x.key, store, size, kept);
    KeysMembers(e, x.key);
    MissRecency(recent, n, x.key);
    KeysSnoc(kept, x);
  }

  lemma MissKeeps<K(!new), V(!new)>(e: seq<Entry<K, V>>, k: K, store: K -> V, size: nat, capacity: nat,
                                    recent: seq<K>, n: nat)
    requires Mirrors(e, store, size, Suffix(recent, n)) && !Has(e, k)
    requires 0 < size && n == Slots(capacity, size)
    ensures Mirrors(Stored(e, Entry(k, store(k), size), capacity), store, size, Suffix(Remove(recent, k) + [k], n))
  {
    if size <= capacity {
      WithoutMissing(e, k);
      EvictedFits(e, size, capacity);
      EvictedUniform(e, size, capacity);
      MissFits(e, Entry(k, store(k), size), store, size, recent, n, Evicted(e, size, capacity));
    } else {
      assert n == 0;
    }
  }

  /** After any trace the cache holds exactly the `capacity / size` most recently read keys. */
  lemma {:induction false} HoldsMostRecent<K(!new), V(!new)>(trace: seq<K>, store: K -> V, size: nat, capacity: nat)
    requires size > 0
    ensures Mirrors(ReadAll(trace, store, size, capacity), store, size, Suffix(Recency(trace), Slots(capacity, size)))
  {
    if trace != [] {
      var front, k := trace[..|trace| - 1], trace[|trace| - 1];
      HoldsMostRecent(front, store, size, capacity);
      RecencyDistinct(front);
      var e := ReadAll(front, store, size, capacity);
      if Lookup(e, k).Some? {
        HitKeeps(e, k, store, size, Recency(front), Slots(capacity, size));
      } else {
        MissKeeps(e, k, store, size, capacity, Recency(front), Slots(capacity, size));
      }
    }
  }

  /** How many reads of a trace find their key among the `n` most recent ones. */
  function Hits<K(==)>(trace: seq<K>, n: nat): nat {
    if trace == [] then 0
    else
      Hits(trace[..|trace| - 1], n) +
      if trace[|trace| - 1] in Suffix(Recency(trace[..|trace| - 1]), n) then 1 else 0
  }

  lemma {:induction false} MoreHits<K>(trace: seq<K>, n: nat, m: nat)
    requires n <= m
    ensures Hits(trace, n) <= Hits(trace, m)
  {
    if trace != [] {
      var front := trace[..|trace| - 1];
      MoreHits(front, n, m);
      SuffixGrows(Recency(front), n, m);
    }
  }

  lemma {:induction false} MorePayloads(size: nat, small: nat, large: nat)
    requires size > 0 && small <= large
    ensures Slots(small, size) <= Slots(large, size)
    decreases large
  {
    if small >= size {
      MorePayloads(size, small - size, large - size);
    }
  }

  /** Inclusion: a larger cache holds everything a smaller one does, and never has fewer hits. */
  lemma LargerIsBetter<K(!new), V(!new)>(trace: seq<K>, store: K -> V, size: nat, small: nat, large: nat)
    requires size > 0 && small <= large
    ensures forall x :: x in Keys(ReadAll(trace, store, size, small)) ==> x in Keys(ReadAll(trace, store, size, large))
    ensures Hits(trace, Slots(small, size)) <= Hits(trace, Slots(large, size))
  {
    var n, m := Slots(small, size), Slots(large, size);
    MorePayloads(size, small, large);
    HoldsMostRecent(trace, store, size, small);
    HoldsMostRecent(trace, store, size, large);
    SuffixGrows(Recency(trace), n, m);
    MoreHits(trace, n, m);
  }

  /** `read_expert` for one expert: the payload is the one in the store, cached or not. */
  method ReadExpert<K(==, !new), V(!new)>(cache: LruCache<K, V>, k: K, store: K -> V, size: nat) returns (payload: V)
    requires cache.Valid() && FromStore(cache.entries, store, size)
    modifies cache
    ensures cache.Valid() && payload == store(k)
    ensures cache.entries == Read(old(cache.entries), k, store, size, cache.capacity)
    ensures cache.hits == old(cache.hits) + if Lookup(old(cache.entries), k).Some? then 1 else 0
  {
    var cached := cache.Get(k);
    if cached.Some? {
      return cached.value;
    }
    payload := store(k);
    cache.Put(k, payload, size);
  }

  /** A serial trace through a fresh cache: contents, payloads and hits are those of the most recent keys. */
  method ReadTrace<K(==, !new), V(!new)>(trace: seq<K>, store: K -> V, size: nat, capacity: nat)
      returns (cache: LruCache<K, V>, payloads: seq<V>)
    requires size > 0
    ensures fresh(cache) && cache.Valid()
    ensures Mirrors(cache.entries, store, size, Suffix(Recency(trace), Slots(capacity, size)))
    ensures |payloads| == |trace| && forall i :: 0 <= i < |trace| ==> payloads[i] == store(trace[i])
    ensures cache.hits == Hits(trace, Slots(capacity, size))
  {
    cache := new LruCache(capacity);
    payloads := [];
    ghost var n := Slots(capacity, size);
    HoldsMostRecent([], store, size, capacity);
    for i := 0 to |trace|
      invariant fresh(cache) && cache.Valid() && cache.capacity == capacity
      invariant cache.entries == ReadAll(trace[..i], store, size, capacity)
      invariant Mirrors(cache.entries, store, size, Suffix(Recency(trace[..i]), n))
      invariant |payloads| == i && forall j :: 0 <= j < i ==> payloads[j] == store(trace[j])
      invariant cache.hits == Hits(trace[..i], n)
    {
      assert trace[..i + 1][..i] == trace[..i];
      KeysMembers(cache.entries, trace[i]);
      HoldsMostRecent(trace[..i + 1], store, size, capacity);
      var payload := ReadExpert(cache, trace[i], store, size);
      payloads := payloads + [payload];
    }
    assert trace[..|trace|] == trace;
  }
}
