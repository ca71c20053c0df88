/** Batched reads through an LRU cache: what one batch leaves behind. */
module LruBatches {
  import opened Wrappers
  import opened Lru
  import opened LruTraces

  /** The lookups of a batch: the cache after them, and the keys that were not there. */
  function Gets<K(==, !new), V(!new)>(e: seq<Entry<K, V>>, batch: seq<K>): (seq<Entry<K, V>>, seq<K>) {
    if batch == [] then (e, [])
    else
      var (after, pending) := Gets(e, batch[..|batch| - 1]);
      var k := batch[|batch| - 1];
      if Lookup(after, k).Some? then (Touched(after, k), pending) else (after, pending + [k])
  }

  function Puts<K(==, !new), V(!new)>(e: seq<Entry<K, V>>, pending: seq<K>, store: K -> V, size: nat, capacity: nat)
      : seq<Entry<K, V>> {
    if pending == [] then e
    else
      var k := pending[|pending| - 1];
      Stored(Puts(e, pending[..|pending| - 1], store, size, capacity), Entry(k, store(k), size), capacity)
  }

  /** `read_experts`: all lookups of a batch come before its first store. */
  function ReadBatch<K(==, !new), V(!new)>(e: seq<Entry<K, V>>, batch: seq<K>, store: K -> V, size: nat, capacity: nat)
      : seq<Entry<K, V>> {
    var (after, pending) := Gets(e, batch);
    Puts(after, pending, store, size, capacity)
  }

  lemma GetsSnoc<K(!new), V(!new)>(e: seq<Entry<K, V>>, batch: seq<K>, k: K)
    ensures var (after, pending) := Gets(e, batch);
      Gets(e, batch + [k]) == if Lookup(after, k).Some? then (Touched(after, k), pending) else (after, pending + [k])
  {
    assert (batch + [k])[..|batch|] == batch;
  }

  lemma PutsSnoc<K(!new), V(!new)>(e: seq<Entry<K, V>>, pending: seq<K>, k: K, store: K -> V, size: nat, capacity: nat)
    ensures Puts(e, pending + [k], store, size, capacity) ==
            Stored(Puts(e, pending, store, size, capacity), Entry(k, store(k), size), capacity)
  {
    assert (pending + [k])[..|pending|] == pending;
  }

  /** A batch of one is a serial read. */
  lemma BatchOfOne<K(!new), V(!new)>(e: seq<Entry<K, V>>, k: K, store: K -> V, size: nat, capacity: nat)
    ensures ReadBatch(e, [k], store, size, capacity) == Read(e, k, store, size, capacity)
  {
    var none: seq<K> := [];
    assert none + [k] == [k];
    GetsSnoc(e, none, k);
    PutsSnoc(e, none, k, store, size, capacity);
  }

  // ----- Keys of a batch -----

  /** `keys` without those of the batch. */
  function Others<K(==)>(keys: seq<K>, batch: seq<K>): (r: seq<K>)
    ensures |r| <= |keys|
  {
    if batch == [] then keys else Remove(Others(keys, batch[..|batch| - 1]), batch[|batch| - 1])
  }

  lemma {:induction false} OthersMembers<K>(keys: seq<K>, batch: seq<K>)
    ensures forall x :: x in Others(keys, batch) <==> x in keys && x !in batch
    ensures Distinct(keys) ==> Distinct(Others(keys, batch))
  {
    if batch != [] {
      var front, k := batch[..|batch| - 1], batch[|batch| - 1];
      assert batch == front + [k];
      OthersMembers(keys, front);
      RemoveKeeps(Others(keys, front), k);
    }
  }

  lemma {:induction false} RemoveBefore<K>(keys: seq<K>, tail: seq<K>, k: K)
    requires k !in tail
    ensures Remove(keys + tail, k) == Remove(keys, k) + tail
  {
    if tail == [] {
      assert keys + tail == keys;
    } else {
      var front, last := tail[..|tail| - 1], tail[|tail| - 1];
      assert tail == front + [last] && keys + tail == (keys + front) + [last];
      RemoveBefore(keys, front, k);
      SnocSteps(keys + front, last, 0, k);
    }
  }

  predicate Tail<K(==)>(keys: seq<K>, n: nat, part: seq<K>) {
    part == if n < |keys| then keys[|keys| - n..] else keys
  }

  lemma TailOfBoth<K>(keys: seq<K>, tail: seq<K>, n: nat, whole: seq<K>, front: seq<K>)
    requires Tail(keys + tail, n, whole)
    requires |tail| <= n && Tail(keys, n - |tail|, front)
    ensures whole == front + tail
  {
  }

  lemma TailOfSecond<K>(keys: seq<K>, tail: seq<K>, n: nat, whole: seq<K>, part: seq<K>)
    requires Tail(keys + tail, n, whole) && |tail| > n && Tail(tail, n, part)
    ensures whole == part
  {
    assert |part| == |whole| && forall i :: 0 <= i < n ==> whole[i] == part[i];
  }

  lemma IsTail<K>(keys: seq<K>, n: nat)
    ensures Tail(keys, n, Suffix(keys, n))
  {
    SuffixIsSlice(keys, n);
  }

  /** The last `n` of a sequence and its tail. */
  lemma SuffixOfBoth<K>(keys: seq<K>, tail: seq<K>, n: nat)
    ensures Suffix(keys + tail, n) == if |tail| <= n then Suffix(keys, n - |tail|) + tail else Suffix(tail, n)
  {
    var all, whole := keys + tail, Suffix(keys + tail, n);
    IsTail(all, n);
    if |tail| <= n {
      IsTail(keys, n - |tail|);
      TailOfBoth(keys, tail, n, whole, Suffix(keys, n - |tail|));
    } else {
      IsTail(tail, n);
      TailOfSecond(keys, tail, n, whole, Suffix(tail, n));
    }
  }

  lemma {:induction false} SuffixAgain<K>(keys: seq<K>, n: nat, m: nat)
    requires n <= m
    ensures Suffix(Suffix(keys, m), n) == Suffix(keys, n)
  {
    if n > 0 && keys != [] {
      var front, last := keys[..|keys| - 1], keys[|keys| - 1];
      SuffixAgain(front, n - 1, m - 1);
      SnocSteps(Suffix(front, m - 1), last, n, last);
    }
  }

  /** Taking keys out of the most recent ones leaves the most recent ones of the others. */
  lemma {:induction false} OthersOfSuffix<K>(keys: seq<K>, batch: seq<K>, n: nat) returns (left: nat)
    requires Distinct(keys) && Distinct(batch)
    ensures left <= n <= left + |batch| && Others(Suffix(keys, n), batch) == Suffix(Others(keys, batch), left)
  {
    if batch == [] {
      left := n;
    } else {
      var front, k := batch[..|batch| - 1], batch[|batch| - 1];
      left := OthersOfSuffix(keys, front, n);
      var others := Others(keys, front);
      OthersMembers(keys, front);
      if k in Suffix(others, left) {
        InSome(others, left, k);
        SuffixWithoutMember(others, left, k);
        left := left - 1;
      } else {
        SuffixWithoutStranger(others, left, k);
        RemoveMissing(Suffix(others, left), k);
      }
    }
  }

  lemma InSome<K>(keys: seq<K>, n: nat, k: K)
    requires k in Suffix(keys, n)
    ensures n > 0
  {
  }

  lemma OthersSnoc<K>(keys: seq<K>, batch: seq<K>, k: K)
    ensures Others(keys, batch + [k]) == Remove(Others(keys, batch), k)
  {
    assert (batch + [k])[..|batch|] == batch;
  }

  lemma RecencySnoc<K>(trace: seq<K>, k: K)
    ensures Recency(trace + [k]) == Remove(Recency(trace), k) + [k]
  {
    assert (trace + [k])[..|trace|] == trace;
  }

  lemma Regroup<K>(a: seq<K>, b: seq<K>, c: seq<K>)
    ensures (a + b) + c == a + (b + c)
  {
  }

  lemma {:induction false} RecencyAfter<K>(trace: seq<K>, batch: seq<K>)
    requires Distinct(batch)
    ensures Recency(trace + batch) == Others(Recency(trace), batch) + batch
    decreases |batch|
  {
    if batch == [] {
      assert trace + batch == trace && Recency(trace) + batch == Recency(trace);
    } else {
      var front, k := batch[..|batch| - 1], batch[|batch| - 1];
      assert batch == front + [k];
      LastIsNew(batch);
      var others := Others(Recency(trace), front);
      RecencyAfter(trace, front);
      Regroup(trace, front, [k]);
      RecencySnoc(trace + front, k);
      RemoveBefore(others, front, k);
      OthersSnoc(Recency(trace), front, k);
      Regroup(Remove(others, k), front, [k]);
    }
  }

  // ----- What a batch leaves -----

  /** Keys of the batch, once each: those that the cache has, and those that it has not. */
  ghost predicate AreHits<K(!new)>(hits: seq<K>, batch: seq<K>, keys: seq<K>) {
    Distinct(hits) && forall x :: x in hits <==> x in batch && x in keys
  }

  ghost predicate AreMisses<K(!new)>(misses: seq<K>, batch: seq<K>, keys: seq<K>) {
    Distinct(misses) && forall x :: x in misses <==> x in batch && x !in keys
  }

  lemma OneMoreHit<K(!new)>(hits: seq<K>, misses: seq<K>, front: seq<K>, k: K, keys: seq<K>)
    requires AreHits(hits, front, keys) && AreMisses(misses, front, keys) && k !in front && k in keys
    ensures AreHits(hits + [k], front + [k], keys) && AreMisses(misses, front + [k], keys)
  {
  }

  lemma OneMoreMiss<K(!new)>(hits: seq<K>, misses: seq<K>, front: seq<K>, k: K, keys: seq<K>)
    requires AreHits(hits, front, keys) && AreMisses(misses, front, keys) && k !in front && k !in keys
    ensures AreHits(hits, front + [k], keys) && AreMisses(misses + [k], front + [k], keys)
  {
  }

  lemma HitMovesUp<K(!new), V(!new)>(after: seq<Entry<K, V>>, others: seq<K>, hits: seq<K>, k: K, store: K -> V, size: nat)
    requires FromStore(after, store, size) && Keys(after) == others + hits && k !in hits && Lookup(after, k).Some?
    ensures FromStore(Touched(after, k), store, size) && |Touched(after, k)| == |after|
    ensures Keys(Touched(after, k)) == Remove(others, k) + (hits + [k])
  {
    HitContents(after, k, store, size);
    WithoutTotal(after, k);
    KeysWithout(after, k);
    KeysSnoc(Without(after, k), Lookup(after, k).value);
    RemoveBefore(others, hits, k);
    Regroup(Remove(others, k), hits, [k]);
  }

  /** A key of the batch is there exactly when it was there before. */
  lemma StillThere<K(!new), V(!new)>(e: seq<Entry<K, V>>, after: seq<Entry<K, V>>, front: seq<K>, hits: seq<K>, k: K)
    requires Keys(after) == Others(Keys(e), front) + hits && k !in front && AreHits(hits, front, Keys(e))
    ensures Lookup(after, k).Some? <==> k in Keys(e)
    ensures k !in Keys(e) ==> Remove(Others(Keys(e), front), k) == Others(Keys(e), front)
    ensures k !in hits
  {
    var others := Others(Keys(e), front);
    OthersMembers(Keys(e), front);
    KeysMembers(after, k);
    assert k in others + hits <==> k in others || k in hits;
    if k !in Keys(e) {
      RemoveMissing(others, k);
    }
  }

  /** The hits of a batch end up youngest, in order; the misses are known. */
  lemma {:induction false} BatchGets<K(!new), V(!new)>(e: seq<Entry<K, V>>, batch: seq<K>, store: K -> V, size: nat)
      returns (hits: seq<K>)
    requires FromStore(e, store, size) && Distinct(batch)
    ensures var (after, pending) := Gets(e, batch);
      && |after| == |e| && FromStore(after, store, size) && Keys(after) == Others(Keys(e), batch) + hits
      && |hits| + |pending| == |batch| && AreHits(hits, batch, Keys(e)) && AreMisses(pending, batch, Keys(e))
      && (hits == [] ==> pending == batch)
    decreases |batch|
  {
    if batch == [] {
      hits := [];
      assert Others(Keys(e), batch) + hits == Keys(e);
    } else {
      var front, k := batch[..|batch| - 1], batch[|batch| - 1];
      assert batch == front + [k];
      LastIsNew(batch);
      hits := BatchGets(e, front, store, size);
      var (after, pending) := Gets(e, front);
      OthersSnoc(Keys(e), front, k);
      StillThere(e, after, front, hits, k);
      if Lookup(after, k).Some? {
        HitMovesUp(after, Others(Keys(e), front), hits, k, store, size);
        OneMoreHit(hits, pending, front, k, Keys(e));
        hits := hits + [k];
      } else {
        OneMoreMiss(hits, pending, front, k, Keys(e));
      }
    }
  }

  lemma {:induction false} BatchPuts<K(!new), V(!new)>(e: seq<Entry<K, V>>, pending: seq<K>, store: K -> V, size: nat,
                                                       capacity: nat)
    requires size > 0 && FromStore(e, store, size) && |e| <= Slots(capacity, size) && Distinct(pending)
    requires forall x :: x in pending ==> x !in Keys(e)
    ensures Mirrors(Puts(e, pending, store, size, capacity), store, size, Suffix(Keys(e) + pending, Slots(capacity, size)))
    decreases |pending|
  {
    var n := Slots(capacity, size);
    if pending == [] {
      assert Keys(e) + pending == Keys(e);
      SuffixIsSlice(Keys(e), n);
    } else {
      var front, k := pending[..|pending| - 1], pending[|pending| - 1];
      BatchPuts(e, front, store, size, capacity);
      var recent := Keys(e) + front;
      assert k !in recent && recent + [k] == Keys(e) + pending;
      RemoveMissing(recent, k);
      SuffixMembers(recent, n);
      var before := Puts(e, front, store, size, capacity);
      KeysMembers(before, k);
      MissKeeps(before, k, store, size, capacity, recent, n);
    }
  }

  /** Any cache after a batch: the other keys, then the hits, then the misses, as many of them as fit. */
  lemma BatchFrom<K(!new), V(!new)>(e: seq<Entry<K, V>>, batch: seq<K>, store: K -> V, size: nat, capacity: nat, n: nat)
      returns (hits: seq<K>, misses: seq<K>)
    requires size > 0 && FromStore(e, store, size) && Distinct(batch) && |e| <= n == Slots(capacity, size)
    ensures |hits| + |misses| == |batch| && (hits == [] ==> misses == batch) && misses == Gets(e, batch).1
    ensures AreHits(hits, batch, Keys(e)) && AreMisses(misses, batch, Keys(e))
    ensures Mirrors(ReadBatch(e, batch, store, size, capacity), store, size,
                    Suffix(Others(Keys(e), batch) + (hits + misses), n))
  {
    hits := BatchGets(e, batch, store, size);
    var (after, pending) := Gets(e, batch);
    misses := pending;
    assert forall x :: x in misses ==> x !in Keys(after) by {
      OthersMembers(Keys(e), batch);
    }
    BatchPuts(after, misses, store, size, capacity);
    Regroup(Others(Keys(e), batch), hits, misses);
  }

  /** The cache after serial reads and a batch, by its keys. */
  function BatchKeys<K(==, !new), V(!new)>(trace: seq<K>, batch: seq<K>, store: K -> V, size: nat, capacity: nat): seq<K> {
    Keys(ReadBatch(ReadAll(trace, store, size, capacity), batch, store, size, capacity))
  }

  /** After serial reads the other keys are in order of recency. */
  lemma BatchOrder<K(!new), V(!new)>(trace: seq<K>, batch: seq<K>, store: K -> V, size: nat, capacity: nat, n: nat)
      returns (hits: seq<K>, misses: seq<K>)
    requires size > 0 && Distinct(batch) && n == Slots(capacity, size)
    ensures |hits| + |misses| == |batch| && (hits == [] ==> misses == batch)
    ensures AreHits(hits, batch, Suffix(Recency(trace), n)) && AreMisses(misses, batch, Suffix(Recency(trace), n))
    ensures BatchKeys(trace, batch, store, size, capacity)
         == Suffix(Others(Suffix(Recency(trace), n), batch) + (hits + misses), n)
  {
    HoldsMostRecent(trace, store, size, capacity);
    hits, misses := BatchFrom(ReadAll(trace, store, size, capacity), batch, store, size, capacity, n);
  }

  /** A batch that fits is all there, with the most recent of the other keys. */
  lemma FittingBatch<K>(recent: seq<K>, batch: seq<K>, order: seq<K>, n: nat)
    requires Distinct(recent) && Distinct(batch) && |order| == |batch| <= n
    ensures Suffix(Others(Suffix(recent, n), batch) + order, n) == Suffix(Others(recent, batch), n - |batch|) + order
  {
    SuffixOfBoth(Others(Suffix(recent, n), batch), order, n);
    var left := OthersOfSuffix(recent, batch, n);
    SuffixAgain(Others(recent, batch), n - |batch|, left);
  }

  lemma TogetherTheBatch<K(!new)>(hits: seq<K>, misses: seq<K>, batch: seq<K>, keys: seq<K>)
    requires AreHits(hits, batch, keys) && AreMisses(misses, batch, keys)
    ensures forall x :: x in hits + misses <==> x in batch
  {
  }

  ghost predicate SameMembers<K(!new)>(a: seq<K>, b: seq<K>) {
    forall x :: x in a <==> x in b
  }

  lemma ReorderedTail<K(!new)>(front: seq<K>, a: seq<K>, b: seq<K>)
    requires SameMembers(a, b)
    ensures SameMembers(front + a, front + b)
  {
  }

  /** A batch of distinct keys that fits leaves the most recent other keys and the batch. */
  lemma BatchContents<K(!new), V(!new)>(trace: seq<K>, batch: seq<K>, store: K -> V, size: nat, capacity: nat, n: nat,
                                        contents: seq<K>)
    requires size > 0 && Distinct(batch) && n == Slots(capacity, size) && |batch| <= n
    requires contents == Suffix(Others(Recency(trace), batch), n - |batch|) + batch
    ensures SameMembers(BatchKeys(trace, batch, store, size, capacity), contents)
  {
    var hits, misses := BatchOrder(trace, batch, store, size, capacity, n);
    RecencyDistinct(trace);
    FittingBatch(Recency(trace), batch, hits + misses, n);
    TogetherTheBatch(hits, misses, batch, Suffix(Recency(trace), n));
    ReorderedTail(Suffix(Others(Recency(trace), batch), n - |batch|), hits + misses, batch);
  }

  /** Which is what serial reads of the same keys would have left. */
  lemma BatchIsSerial<K(!new), V(!new)>(trace: seq<K>, batch: seq<K>, store: K -> V, size: nat, capacity: nat)
    requires size > 0 && Distinct(batch) && |batch| <= Slots(capacity, size)
    ensures SameMembers(BatchKeys(trace, batch, store, size, capacity),
                        Keys(ReadAll(trace + batch, store, size, capacity)))
  {
    var n := Slots(capacity, size);
    var contents := Suffix(Others(Recency(trace), batch), n - |batch|) + batch;
    BatchContents(trace, batch, store, size, capacity, n, contents);
    HoldsMostRecent(trace + batch, store, size, capacity);
    RecencyAfter(trace, batch);
    SuffixOfBoth(Others(Recency(trace), batch), batch, n);
  }

  /** A larger cache holds everything a smaller one does after the trace and the batch. */
  ghost predicate Included<K(!new), V(!new)>(trace: seq<K>, batch: seq<K>, store: K -> V, size: nat, small: nat, large: nat) {
    Within(BatchKeys(trace, batch, store, size, small), BatchKeys(trace, batch, store, size, large))
  }

  /** A batch too large for the cache leaves nothing but keys of its own. */
  lemma OnlyTheBatch<K(!new), V(!new)>(trace: seq<K>, batch: seq<K>, store: K -> V, size: nat, capacity: nat, n: nat)
    requires size > 0 && Distinct(batch) && n == Slots(capacity, size) && |batch| > n
    ensures Within(BatchKeys(trace, batch, store, size, capacity), batch)
  {
    var hits, misses := BatchOrder(trace, batch, store, size, capacity, n);
    SuffixOfBoth(Others(Suffix(Recency(trace), n), batch), hits + misses, n);
    SuffixMembers(hits + misses, n);
    TogetherTheBatch(hits, misses, batch, Suffix(Recency(trace), n));
  }

  ghost predicate Within<K(!new)>(a: seq<K>, b: seq<K>) {
    forall x :: x in a ==> x in b
  }

  lemma MoreOthers<K(!new)>(others: seq<K>, batch: seq<K>, n: nat, m: nat)
    requires n <= m
    ensures Within(Suffix(others, n) + batch, Suffix(others, m) + batch)
  {
    SuffixGrows(others, n, m);
  }

  lemma WithinChain<K(!new)>(a: seq<K>, b: seq<K>, c: seq<K>, d: seq<K>)
    requires SameMembers(a, b) && Within(b, c) && SameMembers(d, c)
    ensures Within(a, d)
  {
  }

  lemma AtTheEnd<K(!new)>(front: seq<K>, tail: seq<K>)
    ensures Within(tail, front + tail)
  {
  }

  lemma FittingBoth<K(!new), V(!new)>(trace: seq<K>, batch: seq<K>, store: K -> V, size: nat, small: nat, large: nat,
                                      n: nat, m: nat)
    requires size > 0 && n == Slots(small, size) && m == Slots(large, size)
    requires Distinct(batch) && |batch| <= n <= m
    ensures Included(trace, batch, store, size, small, large)
  {
    var others := Others(Recency(trace), batch);
    var b, c := Suffix(others, n - |batch|) + batch, Suffix(others, m - |batch|) + batch;
    BatchContents(trace, batch, store, size, small, n, b);
    BatchContents(trace, batch, store, size, large, m, c);
    MoreOthers(others, batch, n - |batch|, m - |batch|);
    WithinChain(BatchKeys(trace, batch, store, size, small), b, c, BatchKeys(trace, batch, store, size, large));
  }

  /**
   Right after serial reads and one batch that fits the larger cache, that one holds what the smaller one
   does. The order of the keys may differ from then on, so later reads can still end it.
   */
  lemma BatchKeepsInclusion<K(!new), V(!new)>(trace: seq<K>, batch: seq<K>, store: K -> V, size: nat, small: nat,
                                              large: nat)
    requires size > 0 && small <= large && Distinct(batch) && |batch| <= Slots(large, size)
    ensures Included(trace, batch, store, size, small, large)
  {
    var n, m := Slots(small, size), Slots(large, size);
    MorePayloads(size, small, large);
    if |batch| <= n {
      FittingBoth(trace, batch, store, size, small, large, n, m);
    } else {
      var others := Suffix(Others(Recency(trace), batch), m - |batch|);
      BatchContents(trace, batch, store, size, large, m, others + batch);
      OnlyTheBatch(trace, batch, store, size, small, n);
      AtTheEnd(others, batch);
    }
  }
}
