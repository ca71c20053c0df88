/**
 Runs of batched reads through two LRU caches of equal-sized payloads. The larger one keeps holding what
 the smaller one does as long as batches stay within the difference of their slots plus one.
 */
module LruRuns {
  import opened Wrappers
  import opened Lru
  import opened LruTraces
  import opened LruBatches

  /** The cache after a run of batches; a serial read is a batch of one. */
  function RunBatches<K(==, !new), V(!new)>(run: seq<seq<K>>, store: K -> V, size: nat, capacity: nat): seq<Entry<K, V>> {
    if run == [] then []
    else ReadBatch(RunBatches(run[..|run| - 1], store, size, capacity), run[|run| - 1], store, size, capacity)
  }

  function RunKeys<K(==, !new), V(!new)>(run: seq<seq<K>>, store: K -> V, size: nat, capacity: nat): seq<K> {
    Keys(RunBatches(run, store, size, capacity))
  }

  /** How many lookups of a run find their key. */
  function RunHits<K(==, !new), V(!new)>(run: seq<seq<K>>, store: K -> V, size: nat, capacity: nat): int {
    if run == [] then 0
    else
      var e := RunBatches(run[..|run| - 1], store, size, capacity);
      RunHits(run[..|run| - 1], store, size, capacity) + |run[|run| - 1]| - |Gets(e, run[|run| - 1]).1|
  }

  ghost predicate BatchesWithin<K>(run: seq<seq<K>>, b: int) {
    forall i :: 0 <= i < |run| ==> Distinct(run[i]) && |run[i]| <= b
  }

  // ----- The keys younger than one -----

  function Younger<K(==)>(keys: seq<K>, x: K): set<K> {
    if keys == [] || keys[|keys| - 1] == x then {}
    else Younger(keys[..|keys| - 1], x) + {keys[|keys| - 1]}
  }

  function Members<K(==)>(keys: seq<K>): set<K> {
    set x | x in keys
  }

  lemma {:induction false} MemberCount<K>(keys: seq<K>)
    ensures |Members(keys)| <= |keys|
    ensures Distinct(keys) ==> |Members(keys)| == |keys|
  {
    if keys != [] {
      var front, last := keys[..|keys| - 1], keys[|keys| - 1];
      assert keys == front + [last];
      MemberCount(front);
      assert Members(keys) == Members(front) + {last};
    }
  }

  lemma {:induction false} SubsetCount<K>(a: set<K>, b: set<K>)
    requires a <= b
    ensures |a| <= |b|
  {
    if a != {} {
      var x :| x in a;
      SubsetCount(a - {x}, b - {x});
    }
  }

  lemma {:induction false} YoungerAreKeys<K>(keys: seq<K>, x: K)
    ensures Younger(keys, x) <= Members(keys) && |Younger(keys, x)| <= |keys|
    ensures x in keys ==> |Younger(keys, x)| < |keys|
  {
    if keys != [] && keys[|keys| - 1] != x {
      var front, last := keys[..|keys| - 1], keys[|keys| - 1];
      assert keys == front + [last];
      YoungerAreKeys(front, x);
    }
  }

  lemma YoungerSnoc<K>(front: seq<K>, last: K, x: K)
    ensures Younger(front + [last], x) == if last == x then {} else Younger(front, x) + {last}
  {
    assert (front + [last])[..|front|] == front;
  }

  /** Behind a tail without the key, everything in the tail is younger. */
  lemma {:induction false} YoungerBehind<K>(keys: seq<K>, tail: seq<K>, x: K)
    ensures x in tail ==> Younger(keys + tail, x) == Younger(tail, x)
    ensures x !in tail ==> Younger(keys + tail, x) == Younger(keys, x) + Members(tail)
  {
    if tail == [] {
      assert keys + tail == keys && Members(tail) == {};
    } else {
      var front, last := tail[..|tail| - 1], tail[|tail| - 1];
      assert tail == front + [last] && keys + tail == (keys + front) + [last];
      YoungerBehind(keys, front, x);
      YoungerSnoc(keys + front, last, x);
      assert Members(tail) == Members(front) + {last};
    }
  }

  lemma {:induction false} YoungerWithout<K>(keys: seq<K>, k: K, x: K)
    requires k != x
    ensures Younger(Remove(keys, k), x) == Younger(keys, x) - {k}
  {
    if keys != [] {
      var front, last := keys[..|keys| - 1], keys[|keys| - 1];
      assert keys == front + [last];
      YoungerWithout(front, k, x);
      SnocSteps(front, last, 0, k);
      YoungerSnoc(Remove(front, k), last, x);
    }
  }

  lemma {:induction false} YoungerOthers<K>(keys: seq<K>, batch: seq<K>, x: K)
    requires x !in batch
    ensures Younger(Others(keys, batch), x) == Younger(keys, x) - Members(batch)
  {
    if batch == [] {
      assert Members(batch) == {};
    } else {
      var front, k := batch[..|batch| - 1], batch[|batch| - 1];
      assert batch == front + [k];
      YoungerOthers(keys, front, x);
      YoungerWithout(Others(keys, front), k, x);
      assert Members(batch) == Members(front) + {k};
    }
  }

  /** Among the last `n` are exactly those with fewer than `n` younger ones. */
  lemma {:induction false} YoungerDecides<K>(keys: seq<K>, n: nat, x: K)
    requires Distinct(keys) && x in keys
    ensures x in Suffix(keys, n) <==> |Younger(keys, x)| < n
    ensures x in Suffix(keys, n) ==> Younger(Suffix(keys, n), x) == Younger(keys, x)
  {
    var front, last := keys[..|keys| - 1], keys[|keys| - 1];
    assert keys == front + [last];
    if n > 0 && last != x {
      LastIsNew(keys);
      YoungerDecides(front, n - 1, x);
    }
    if n > 0 {
      DecidedAbove(front, last, n, x);
    }
  }

  /** One key more on both sides. */
  lemma DecidedAbove<K>(front: seq<K>, last: K, n: nat, x: K)
    requires n > 0 && last !in front && (last != x ==> x in front)
    requires last != x ==> (x in Suffix(front, n - 1) <==> |Younger(front, x)| < n - 1)
    requires last != x && x in Suffix(front, n - 1) ==> Younger(Suffix(front, n - 1), x) == Younger(front, x)
    ensures x in Suffix(front + [last], n) <==> |Younger(front + [last], x)| < n
    ensures x in Suffix(front + [last], n) ==> Younger(Suffix(front + [last], n), x) == Younger(front + [last], x)
  {
    SnocSteps(front, last, n, x);
    YoungerSnoc(front, last, x);
    YoungerSnoc(Suffix(front, n - 1), last, x);
    if last != x {
      YoungerAreKeys(front, x);
      assert last !in Younger(front, x);
    }
  }

  // ----- One batch -----

  /** Every key of the smaller cache is in the larger one, with at most `d` more keys younger than it. */
  ghost predicate InStep<K(!new)>(small: seq<K>, large: seq<K>, d: nat) {
    forall x :: x in small ==> x in large && |Younger(large, x) - Younger(small, x)| <= d
  }

  /** The keys after a batch, in some order of the batch. */
  ghost predicate AfterBatch<K(!new)>(keys: seq<K>, batch: seq<K>, order: seq<K>, n: nat, after: seq<K>) {
    && Distinct(keys) && Distinct(order) && |order| == |batch| && Members(order) == Members(batch)
    && after == Suffix(Others(keys, batch) + order, n)
  }

  lemma DistinctJoin<K(!new)>(a: seq<K>, b: seq<K>)
    requires Distinct(a) && Distinct(b) && forall x :: x in b ==> x !in a
    ensures Distinct(a + b)
  {
    assert forall i :: 0 <= i < |b| ==> b[i] in b && b[i] !in a;
  }

  lemma OthersBefore<K(!new)>(keys: seq<K>, batch: seq<K>, order: seq<K>, n: nat, after: seq<K>)
    requires AfterBatch(keys, batch, order, n, after)
    ensures Distinct(Others(keys, batch) + order)
    ensures forall x :: x in order <==> x in batch
    ensures forall x :: x in Others(keys, batch) <==> x in keys && x !in batch
  {
    OthersMembers(keys, batch);
    assert forall x :: x in order <==> x in Members(order);
    assert forall x :: x in batch <==> x in Members(batch);
    DistinctJoin(Others(keys, batch), order);
  }

  /** A key of the batch has fewer younger ones than the batch has keys. */
  lemma YoungInBatch<K(!new)>(keys: seq<K>, batch: seq<K>, order: seq<K>, n: nat, after: seq<K>, x: K)
    requires AfterBatch(keys, batch, order, n, after) && x in batch
    ensures |Younger(Others(keys, batch) + order, x)| < |batch|
    ensures x in after <==> |Younger(Others(keys, batch) + order, x)| < n
    ensures x in after ==> |Younger(after, x)| < |batch|
  {
    OthersBefore(keys, batch, order, n, after);
    var all := Others(keys, batch) + order;
    assert x in order && x in all;
    YoungerBehind(Others(keys, batch), order, x);
    YoungerAreKeys(order, x);
    YoungerDecides(all, n, x);
  }

  /** Another key has the batch and what was younger before. */
  lemma YoungBehindBatch<K(!new)>(keys: seq<K>, batch: seq<K>, order: seq<K>, n: nat, after: seq<K>, x: K)
    requires AfterBatch(keys, batch, order, n, after) && x !in batch && x in keys
    ensures x in after <==> |Younger(keys, x) + Members(batch)| < n
    ensures x in after ==> Younger(after, x) == Younger(keys, x) + Members(batch)
  {
    OthersBefore(keys, batch, order, n, after);
    var all := Others(keys, batch) + order;
    assert x !in order && x in Others(keys, batch) && x in all;
    YoungerBehind(Others(keys, batch), order, x);
    YoungerOthers(keys, batch, x);
    assert Younger(all, x) == Younger(keys, x) + Members(batch);
    YoungerDecides(all, n, x);
  }

  lemma CloseSets<K(!new)>(a: set<K>, b: set<K>, both: set<K>, d: nat)
    requires |b - a| <= d
    ensures |(b + both) - (a + both)| <= d && |b + both| <= |a + both| + d
  {
    var more := (b + both) - (a + both);
    SubsetCount(more, b - a);
    SubsetCount(b + both, (a + both) + more);
  }

  lemma OneKeyStays<K(!new)>(s: seq<K>, l: seq<K>, batch: seq<K>, os: seq<K>, ol: seq<K>, n: nat, m: nat,
                             s': seq<K>, l': seq<K>, x: K)
    requires AfterBatch(s, batch, os, n, s') && AfterBatch(l, batch, ol, m, l')
    requires n <= m && |batch| <= m - n + 1 && InStep(s, l, m - n) && x in s'
    ensures x in l' && |Younger(l', x) - Younger(s', x)| <= m - n
  {
    OthersBefore(s, batch, os, n, s');
    SuffixMembers(Others(s, batch) + os, n);
    if x in batch {
      YoungInBatch(s, batch, os, n, s', x);
      YoungInBatch(l, batch, ol, m, l', x);
      SubsetCount(Younger(l', x) - Younger(s', x), Younger(l', x));
    } else {
      YoungBehindBatch(s, batch, os, n, s', x);
      YoungBehindBatch(l, batch, ol, m, l', x);
      CloseSets(Younger(s, x), Younger(l, x), Members(batch), m - n);
    }
  }

  lemma BatchKeepsStep<K(!new)>(s: seq<K>, l: seq<K>, batch: seq<K>, os: seq<K>, ol: seq<K>, n: nat, m: nat,
                                s': seq<K>, l': seq<K>)
    requires AfterBatch(s, batch, os, n, s') && AfterBatch(l, batch, ol, m, l')
    requires n <= m && |batch| <= m - n + 1 && InStep(s, l, m - n)
    ensures InStep(s', l', m - n)
  {
    forall x | x in s'
      ensures x in l' && |Younger(l', x) - Younger(s', x)| <= m - n
    {
      OneKeyStays(s, l, batch, os, ol, n, m, s', l', x);
    }
  }

  // ----- Runs -----

  /** The entries are payloads of the store, all of one size, no more than fit. */
  ghost predicate Cached<K(!new), V(!new)>(e: seq<Entry<K, V>>, store: K -> V, size: nat, n: nat) {
    FromStore(e, store, size) && |e| <= n
  }

  lemma KeysDistinct<K(!new), V(!new)>(e: seq<Entry<K, V>>)
    requires Unique(e)
    ensures Distinct(Keys(e))
  {
  }

  lemma BatchIsAfter<K(!new), V(!new)>(e: seq<Entry<K, V>>, batch: seq<K>, store: K -> V, size: nat, capacity: nat, n: nat)
      returns (order: seq<K>)
    requires size > 0 && n == Slots(capacity, size) && Cached(e, store, size, n) && Distinct(batch)
    ensures Cached(ReadBatch(e, batch, store, size, capacity), store, size, n)
    ensures AfterBatch(Keys(e), batch, order, n, Keys(ReadBatch(e, batch, store, size, capacity)))
  {
    var hits, misses := BatchFrom(e, batch, store, size, capacity, n);
    order := hits + misses;
    KeysDistinct(e);
    TogetherTheBatch(hits, misses, batch, Keys(e));
    DistinctJoin(hits, misses);
  }

  lemma {:induction false} RunIsCached<K(!new), V(!new)>(run: seq<seq<K>>, b: int, store: K -> V, size: nat, capacity: nat)
    requires size > 0 && BatchesWithin(run, b)
    ensures Cached(RunBatches(run, store, size, capacity), store, size, Slots(capacity, size))
  {
    if run != [] {
      RunIsCached(run[..|run| - 1], b, store, size, capacity);
      var order := BatchIsAfter(RunBatches(run[..|run| - 1], store, size, capacity), run[|run| - 1], store, size,
                                capacity, Slots(capacity, size));
    }
  }

  lemma {:induction false} RunStaysInStep<K(!new), V(!new)>(run: seq<seq<K>>, store: K -> V, size: nat, small: nat,
                                                            large: nat, n: nat, m: nat)
    requires size > 0 && n == Slots(small, size) && m == Slots(large, size) && n <= m && BatchesWithin(run, m - n + 1)
    ensures InStep(RunKeys(run, store, size, small), RunKeys(run, store, size, large), m - n)
  {
    if run != [] {
      var front, batch := run[..|run| - 1], run[|run| - 1];
      RunStaysInStep(front, store, size, small, large, n, m);
      RunIsCached(front, m - n + 1, store, size, small);
      RunIsCached(front, m - n + 1, store, size, large);
      var es, el := RunBatches(front, store, size, small), RunBatches(front, store, size, large);
      var os := BatchIsAfter(es, batch, store, size, small, n);
      var ol := BatchIsAfter(el, batch, store, size, large, m);
      BatchKeepsStep(Keys(es), Keys(el), batch, os, ol, n, m, RunKeys(run, store, size, small),
                     RunKeys(run, store, size, large));
    }
  }

  /** A larger cache holds everything a smaller one does after the run. */
  ghost predicate Included<K(!new), V(!new)>(run: seq<seq<K>>, store: K -> V, size: nat, small: nat, large: nat) {
    Within(RunKeys(run, store, size, small), RunKeys(run, store, size, large))
  }

  lemma FewerMisses<K(!new)>(more: seq<K>, fewer: seq<K>)
    requires Distinct(more) && Within(more, fewer)
    ensures |more| <= |fewer|
  {
    MemberCount(more);
    MemberCount(fewer);
    SubsetCount(Members(more), Members(fewer));
  }

  /** One batch finds no fewer of its keys in a cache that holds more. */
  lemma MoreFound<K(!new), V(!new)>(es: seq<Entry<K, V>>, el: seq<Entry<K, V>>, batch: seq<K>, store: K -> V, size: nat)
    requires FromStore(es, store, size) && FromStore(el, store, size) && Distinct(batch) && Within(Keys(es), Keys(el))
    ensures |Gets(el, batch).1| <= |Gets(es, batch).1|
  {
    var hs := BatchGets(es, batch, store, size);
    var hl := BatchGets(el, batch, store, size);
    FewerMisses(Gets(el, batch).1, Gets(es, batch).1);
  }

  /**
   As long as no batch has more keys than the difference of the slots plus one, the larger cache holds
   what the smaller one does after every run, and never finds fewer keys.
   */
  lemma {:induction false} RunKeepsInclusion<K(!new), V(!new)>(run: seq<seq<K>>, store: K -> V, size: nat, small: nat,
                                                               large: nat)
    requires size > 0 && small <= large && BatchesWithin(run, Slots(large, size) - Slots(small, size) + 1)
    ensures Included(run, store, size, small, large)
    ensures RunHits(run, store, size, small) <= RunHits(run, store, size, large)
  {
    var n, m := Slots(small, size), Slots(large, size);
    MorePayloads(size, small, large);
    RunStaysInStep(run, store, size, small, large, n, m);
    if run != [] {
      var front := run[..|run| - 1];
      RunKeepsInclusion(front, store, size, small, large);
      RunIsCached(front, m - n + 1, store, size, small);
      RunIsCached(front, m - n + 1, store, size, large);
      MoreFound(RunBatches(front, store, size, small), RunBatches(front, store, size, large), run[|run| - 1], store, size);
    }
  }

  // ----- Larger batches -----

  /** A serial trace as a run. */
  function Serial<K>(trace: seq<K>): (run: seq<seq<K>>)
    ensures |run| == |trace| && forall i :: 0 <= i < |run| ==> run[i] == [trace[i]]
  {
    seq(|trace|, i requires 0 <= i < |trace| => [trace[i]])
  }

  lemma RunSnoc<K(!new), V(!new)>(run: seq<seq<K>>, batch: seq<K>, store: K -> V, size: nat, capacity: nat)
    ensures RunBatches(run + [batch], store, size, capacity)
         == ReadBatch(RunBatches(run, store, size, capacity), batch, store, size, capacity)
  {
    assert (run + [batch])[..|run|] == run;
  }

  /** Serial reads are the reads of a trace. */
  lemma {:induction false} SerialIsTrace<K(!new), V(!new)>(trace: seq<K>, store: K -> V, size: nat, capacity: nat)
    ensures RunBatches(Serial(trace), store, size, capacity) == ReadAll(trace, store, size, capacity)
  {
    if trace != [] {
      var front, k := trace[..|trace| - 1], trace[|trace| - 1];
      SerialIsTrace(front, store, size, capacity);
      assert Serial(trace) == Serial(front) + [[k]];
      RunSnoc(Serial(front), [k], store, size, capacity);
      BatchOfOne(ReadAll(front, store, size, capacity), k, store, size, capacity);
    }
  }

  /** Reading one key that is not there. */
  lemma NewKey<K(!new), V(!new)>(e: seq<Entry<K, V>>, k: K, store: K -> V, size: nat, capacity: nat, n: nat)
    requires size > 0 && n == Slots(capacity, size) && Cached(e, store, size, n) && k !in Keys(e)
    ensures Cached(ReadBatch(e, [k], store, size, capacity), store, size, n)
    ensures Keys(ReadBatch(e, [k], store, size, capacity)) == Suffix(Keys(e) + [k], n)
  {
    var hits, misses := BatchFrom(e, [k], store, size, capacity, n);
    assert hits == [] by {
      if hits != [] {
        First(hits);
      }
    }
    var none: seq<K> := [];
    assert none + [k] == [k] && hits + misses == [k];
    OthersSnoc(Keys(e), none, k);
    RemoveMissing(Keys(e), k);
  }

  lemma First<K>(keys: seq<K>)
    requires keys != []
    ensures keys[0] in keys
  {
  }

  lemma SuffixGoesOn<K>(keys: seq<K>, k: K, n: nat)
    ensures Suffix(Suffix(keys, n) + [k], n) == Suffix(keys + [k], n)
  {
    SnocSteps(Suffix(keys, n), k, n, k);
    SnocSteps(keys, k, n, k);
    if n > 0 {
      SuffixAgain(keys, n - 1, n);
    }
  }

  lemma NextNewKey<K(!new), V(!new)>(e: seq<Entry<K, V>>, keys: seq<K>, front: seq<K>, k: K, store: K -> V, size: nat,
                                     capacity: nat, n: nat)
    requires size > 0 && n == Slots(capacity, size) && Cached(e, store, size, n)
    requires Keys(e) == Suffix(keys + front, n) && k !in keys && k !in front
    ensures Cached(ReadBatch(e, [k], store, size, capacity), store, size, n)
    ensures Keys(ReadBatch(e, [k], store, size, capacity)) == Suffix(keys + (front + [k]), n)
  {
    SuffixMembers(keys + front, n);
    NewKey(e, k, store, size, capacity, n);
    SuffixGoesOn(keys + front, k, n);
    Regroup(keys, front, [k]);
  }

  lemma SerialSnoc<K>(run: seq<seq<K>>, front: seq<K>, k: K)
    ensures run + Serial(front + [k]) == (run + Serial(front)) + [[k]]
  {
  }

  /** Reading new keys one by one after a run. */
  lemma {:induction false} NewKeys<K(!new), V(!new)>(run: seq<seq<K>>, more: seq<K>, keys: seq<K>, store: K -> V,
                                                     size: nat, capacity: nat, n: nat)
    requires size > 0 && n == Slots(capacity, size) && Distinct(more)
    requires Cached(RunBatches(run, store, size, capacity), store, size, n)
    requires keys == RunKeys(run, store, size, capacity) && forall x :: x in more ==> x !in keys
    ensures Cached(RunBatches(run + Serial(more), store, size, capacity), store, size, n)
    ensures RunKeys(run + Serial(more), store, size, capacity) == Suffix(keys + more, n)
    decreases |more|
  {
    if more == [] {
      assert run + Serial(more) == run && keys + more == keys;
      SuffixIsSlice(keys, n);
    } else {
      var front, k := more[..|more| - 1], more[|more| - 1];
      assert more == front + [k];
      LastIsNew(more);
      NewKeys(run, front, keys, store, size, capacity, n);
      SerialSnoc(run, front, k);
      RunSnoc(run + Serial(front), [k], store, size, capacity);
      NextNewKey(RunBatches(run + Serial(front), store, size, capacity), keys, front, k, store, size, capacity, n);
    }
  }

  function Counting(from: nat, count: nat): (keys: seq<nat>)
    ensures |keys| == count && forall i :: 0 <= i < count ==> keys[i] == from + i
  {
    seq(count, i => from + i)
  }

  lemma RecencyOfDistinct(trace: seq<nat>)
    requires Distinct(trace)
    ensures Recency(trace) == trace
  {
    var none: seq<nat> := [];
    RecencyAfter(none, trace);
    OthersMembers(none, trace);
    assert none + trace == trace;
    assert Recency(none) == none && |Others(none, trace)| == 0;
  }

  /** The keys 0 to `n`, read one by one. */
  lemma FirstKeys<V(!new)>(n: nat, store: nat -> V, size: nat, capacity: nat, slots: nat)
    requires size > 0 && slots == Slots(capacity, size)
    ensures Cached(RunBatches(Serial(Counting(0, n + 1)), store, size, capacity), store, size, slots)
    ensures RunKeys(Serial(Counting(0, n + 1)), store, size, capacity) == Suffix(Counting(0, n + 1), slots)
  {
    var trace := Counting(0, n + 1);
    SerialIsTrace(trace, store, size, capacity);
    HoldsMostRecent(trace, store, size, capacity);
    RecencyOfDistinct(trace);
  }

  /** New keys and 0 at the end. */
  function Fatal(n: nat, b: nat): (batch: seq<nat>)
    requires b > 0
    ensures |batch| == b && batch[b - 1] == 0 && Distinct(batch)
    ensures forall x :: x in batch && x <= n ==> x == 0
    ensures forall x :: x in batch ==> x < n + b
  {
    Counting(n + 1, b - 1) + [0]
  }

  /** The run: 0 to `n` one by one, the batch, and `j` more new keys one by one. */
  function FatalRun(n: nat, b: nat, j: nat): seq<seq<nat>>
    requires b > 0
  {
    Serial(Counting(0, n + 1)) + [Fatal(n, b)] + Serial(Counting(n + b, j))
  }

  lemma LastOfSuffix<K>(keys: seq<K>, n: nat)
    requires keys != [] && n > 0
    ensures keys[|keys| - 1] in Suffix(keys, n)
  {
  }

  lemma LastOfAll<K>(others: seq<K>, batch: seq<K>, n: nat)
    requires batch != [] && n > 0
    ensures var after := Suffix(others + batch, n); after != [] && after[|after| - 1] == batch[|batch| - 1]
  {
  }

  lemma ZeroComesLast(others: seq<nat>, batch: seq<nat>, n: nat, after: seq<nat>, more: seq<nat>)
    requires batch != [] && batch[|batch| - 1] == 0 && |more| < n && after == Suffix(others + batch, n)
    ensures 0 in Suffix(after + more, n)
  {
    LastOfAll(others, batch, n);
    SuffixOfBoth(after, more, n);
    LastOfSuffix(after, n - |more|);
  }

  /** Over the slots of the batch the misses push out what was there before. */
  lemma ZeroGoes(others: seq<nat>, misses: seq<nat>, n: nat, after: seq<nat>, more: seq<nat>)
    requires |more| <= n <= |misses| + |more| && after == Suffix(others + ([0] + misses), n)
    requires 0 !in misses && 0 !in more
    ensures 0 !in Suffix(after + more, n)
  {
    SuffixOfBoth(after, more, n);
    SuffixAgain(others + ([0] + misses), n - |more|, n);
    Regroup(others, [0], misses);
    SuffixOfBoth(others + [0], misses, n - |more|);
    SuffixMembers(misses, n - |more|);
    if n - |more| == |misses| {
      assert Suffix(others + [0], 0) == [];
    }
  }

  /** The keys after the whole run, from those after the batch. */
  lemma AfterFatal<V(!new)>(n: nat, b: nat, j: nat, store: nat -> V, size: nat, capacity: nat, slots: nat)
      returns (hits: seq<nat>, misses: seq<nat>, after: seq<nat>)
    requires size > 0 && slots == Slots(capacity, size) && b > 0
    ensures |hits| + |misses| == b && (hits == [] ==> misses == Fatal(n, b))
    ensures AreHits(hits, Fatal(n, b), Suffix(Counting(0, n + 1), slots))
    ensures AreMisses(misses, Fatal(n, b), Suffix(Counting(0, n + 1), slots))
    ensures after == Suffix(Others(Suffix(Counting(0, n + 1), slots), Fatal(n, b)) + (hits + misses), slots)
    ensures RunKeys(FatalRun(n, b, j), store, size, capacity) == Suffix(after + Counting(n + b, j), slots)
  {
    var start: seq<seq<nat>>, batch: seq<nat> := Serial(Counting(0, n + 1)), Fatal(n, b);
    FirstKeys(n, store, size, capacity, slots);
    RunSnoc(start, batch, store, size, capacity);
    hits, misses := BatchFrom(RunBatches(start, store, size, capacity), batch, store, size, capacity, slots);
    after := RunKeys(start + [batch], store, size, capacity);
    AllBelow(n, b, slots, hits, misses, after);
    NewKeys(start + [batch], Counting(n + b, j), after, store, size, capacity, slots);
  }

  lemma AllBelow(n: nat, b: nat, slots: nat, hits: seq<nat>, misses: seq<nat>, after: seq<nat>)
    requires b > 0
    requires AreHits(hits, Fatal(n, b), Suffix(Counting(0, n + 1), slots))
    requires AreMisses(misses, Fatal(n, b), Suffix(Counting(0, n + 1), slots))
    requires after == Suffix(Others(Suffix(Counting(0, n + 1), slots), Fatal(n, b)) + (hits + misses), slots)
    ensures forall x :: x in after ==> x < n + b
  {
    SuffixMembers(Counting(0, n + 1), slots);
    OthersMembers(Suffix(Counting(0, n + 1), slots), Fatal(n, b));
    SuffixMembers(Others(Suffix(Counting(0, n + 1), slots), Fatal(n, b)) + (hits + misses), slots);
  }

  /** The smaller cache misses the whole batch, so 0 comes last and stays for fewer than `n` reads. */
  lemma SmallKeepsZero<V(!new)>(n: nat, b: nat, j: nat, store: nat -> V, size: nat, capacity: nat)
    requires size > 0 && n == Slots(capacity, size) && b > 0 && j < n
    ensures 0 in RunKeys(FatalRun(n, b, j), store, size, capacity)
  {
    var hits, misses, after := AfterFatal(n, b, j, store, size, capacity, n);
    SuffixIsSlice(Counting(0, n + 1), n);
    if hits != [] {
      First(hits);
    }
    assert hits + misses == Fatal(n, b);
    ZeroComesLast(Others(Suffix(Counting(0, n + 1), n), Fatal(n, b)), Fatal(n, b), n, after, Counting(n + b, j));
  }

  lemma OnlyZero(hits: seq<nat>)
    requires Distinct(hits) && 0 in hits && forall x :: x in hits ==> x == 0
    ensures hits == [0]
  {
    if |hits| > 1 {
      FirstTwo(hits);
    }
  }

  lemma FirstTwo<K>(keys: seq<K>)
    requires |keys| > 1
    ensures keys[0] in keys && keys[1] in keys
  {
  }

  /** The larger cache finds 0 before it stores the others, and then has no room for it. */
  lemma LargeLosesZero<V(!new)>(n: nat, b: nat, j: nat, store: nat -> V, size: nat, capacity: nat, m: nat)
    requires size > 0 && m == Slots(capacity, size) && n < m && b > 0 && j <= m <= b - 1 + j
    ensures 0 !in RunKeys(FatalRun(n, b, j), store, size, capacity)
  {
    var hits, misses, after := AfterFatal(n, b, j, store, size, capacity, m);
    SuffixIsSlice(Counting(0, n + 1), m);
    assert Counting(0, n + 1)[0] == 0 && Fatal(n, b)[b - 1] == 0;
    OnlyZero(hits);
    ZeroGoes(Others(Suffix(Counting(0, n + 1), m), Fatal(n, b)), misses, m, after, Counting(n + b, j));
  }

  /** Whatever the two caches, batches of one key more can break inclusion. */
  lemma BatchesBreakInclusion<V(!new)>(b: nat, store: nat -> V, size: nat, small: nat, large: nat)
      returns (run: seq<seq<nat>>)
    requires size > 0 && 0 < Slots(small, size) < Slots(large, size) && b > Slots(large, size) - Slots(small, size) + 1
    ensures BatchesWithin(run, b) && !Included(run, store, size, small, large)
  {
    var n, m := Slots(small, size), Slots(large, size);
    var j := if b > m then 0 else m - b + 1;
    run := FatalRun(n, b, j);
    SmallKeepsZero(n, b, j, store, size, small);
    LargeLosesZero(n, b, j, store, size, large, m);
  }

  // ----- Caches of as many slots -----

  lemma SameEvicted<K(!new), V(!new)>(e: seq<Entry<K, V>>, size: nat, a: nat, b: nat)
    requires Uniform(e, size) && 0 < size <= a && size <= b && Slots(a, size) == Slots(b, size)
    ensures Evicted(e, size, a) == Evicted(e, size, b)
  {
    EvictedUniform(e, size, a);
    EvictedUniform(e, size, b);
    EvictedFits(e, size, a);
    EvictedFits(e, size, b);
    SameLength(Evicted(e, size, a), Evicted(e, size, b));
  }

  lemma SameLength<K, V>(a: seq<Entry<K, V>>, b: seq<Entry<K, V>>)
    requires Keys(a) == Keys(b)
    ensures |a| == |b|
  {
    assert |Keys(a)| == |a| && |Keys(b)| == |b|;
  }

  lemma SameStored<K(!new), V(!new)>(e: seq<Entry<K, V>>, x: Entry<K, V>, store: K -> V, size: nat, a: nat, b: nat)
    requires size > 0 && Slots(a, size) == Slots(b, size) && FromStore(e, store, size) && x.size == size && !Has(e, x.key)
    ensures Stored(e, x, a) == Stored(e, x, b)
  {
    WithoutMissing(e, x.key);
    if size <= a && size <= b {
      SameEvicted(e, size, a, b);
    }
  }

  lemma {:induction false} SamePuts<K(!new), V(!new)>(e: seq<Entry<K, V>>, pending: seq<K>, store: K -> V, size: nat,
                                                      a: nat, b: nat)
    requires size > 0 && Slots(a, size) == Slots(b, size) && Cached(e, store, size, Slots(a, size)) && Distinct(pending)
    requires forall x :: x in pending ==> x !in Keys(e)
    ensures Puts(e, pending, store, size, a) == Puts(e, pending, store, size, b)
    decreases |pending|
  {
    if pending != [] {
      var front, k := pending[..|pending| - 1], pending[|pending| - 1];
      assert pending == front + [k];
      LastIsNew(pending);
      SamePuts(e, front, store, size, a, b);
      BatchPuts(e, front, store, size, a);
      SuffixMembers(Keys(e) + front, Slots(a, size));
      var before := Puts(e, front, store, size, a);
      KeysMembers(before, k);
      SameStored(before, Entry(k, store(k), size), store, size, a, b);
    }
  }

  /** Two caches of as many slots hold the same after every run. */
  lemma {:induction false} SameSlotsSameRun<K(!new), V(!new)>(run: seq<seq<K>>, most: int, store: K -> V, size: nat,
                                                              a: nat, b: nat)
    requires size > 0 && Slots(a, size) == Slots(b, size) && BatchesWithin(run, most)
    ensures RunBatches(run, store, size, a) == RunBatches(run, store, size, b)
  {
    if run != [] {
      var front, batch := run[..|run| - 1], run[|run| - 1];
      SameSlotsSameRun(front, most, store, size, a, b);
      RunIsCached(front, most, store, size, a);
      var e := RunBatches(front, store, size, a);
      var hits := BatchGets(e, batch, store, size);
      OthersMembers(Keys(e), batch);
      SamePuts(Gets(e, batch).0, Gets(e, batch).1, store, size, a, b);
    }
  }

  /**
   Batches of at most `b` keys keep inclusion over every run exactly when they stay within the difference
   of the slots plus one, or the smaller cache has no slot, or the larger one no more.
   */
  lemma InclusionExactly<V(!new)>(b: nat, store: nat -> V, size: nat, small: nat, large: nat)
    requires size > 0 && small <= large
    ensures (forall run: seq<seq<nat>> :: BatchesWithin(run, b) ==> Included(run, store, size, small, large))
      <==> || Slots(small, size) == 0
           || Slots(small, size) == Slots(large, size)
           || b <= Slots(large, size) - Slots(small, size) + 1
  {
    var n, m := Slots(small, size), Slots(large, size);
    MorePayloads(size, small, large);
    if 0 < n < m && b > m - n + 1 {
      var run := BatchesBreakInclusion(b, store, size, small, large);
    } else {
      forall run: seq<seq<nat>> | BatchesWithin(run, b)
        ensures Included(run, store, size, small, large)
      {
        if n == 0 {
          RunIsCached(run, b, store, size, small);
        } else if n == m {
          SameSlotsSameRun(run, b, store, size, small, large);
        } else {
          RunKeepsInclusion(run, store, size, small, large);
        }
      }
    }
  }
}
