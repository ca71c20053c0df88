/**
 The decoded expert cache with a layer-balanced policy: up to `share` entries of every layer are
 protected, and only unprotected entries of crowded layers make room.
 */
module BalancedCache {
  import opened Wrappers
  import opened Lru

  /** An expert by its layer and its number. */
  type Key = (int, int)
  type Protection = map<int, set<Key>>

  function ProtectedOf(p: Protection, layer: int): set<Key> {
    if layer in p then p[layer] else {}
  }

  predicate IsProtected(p: Protection, key: Key) {
    key in ProtectedOf(p, key.0)
  }

  function LayerCount<V>(e: seq<Entry<Key, V>>, layer: int): nat {
    if e == [] then 0
    else LayerCount(e[..|e| - 1], layer) + if e[|e| - 1].key.0 == layer then 1 else 0
  }

  predicate Evictable<V>(e: seq<Entry<Key, V>>, p: Protection, share: nat, i: nat)
    requires i < |e|
  {
    LayerCount(e, e[i].key.0) > share && !IsProtected(p, e[i].key)
  }

  /** The oldest entry that may go, from position `i` on. */
  function Candidate<V>(e: seq<Entry<Key, V>>, p: Protection, share: nat, i: nat): (r: Option<nat>)
    requires i <= |e|
    ensures r.Some? ==> i <= r.value < |e| && Evictable(e, p, share, r.value)
    ensures r.Some? ==> forall j :: i <= j < r.value ==> !Evictable(e, p, share, j)
    ensures r.None? ==> forall j :: i <= j < |e| ==> !Evictable(e, p, share, j)
    decreases |e| - i
  {
    if i == |e| then None
    else if Evictable(e, p, share, i) then Some(i)
    else Candidate(e, p, share, i + 1)
  }

  lemma {:induction false} WithoutShorter<V(!new)>(e: seq<Entry<Key, V>>, key: Key)
    ensures |Without(e, key)| <= |e|
    ensures Has(e, key) ==> |Without(e, key)| < |e|
  {
    if e != [] {
      var front, last := e[..|e| - 1], e[|e| - 1];
      WithoutShorter(front, key);
      assert e == front + [last];
      assert last.key != key && Has(e, key) ==> Has(front, key);
    }
  }

  /** Making room: what is left, and whether it was enough. */
  function Evict<V(!new)>(e: seq<Entry<Key, V>>, p: Protection, share: nat, size: nat, capacity: nat)
      : (r: (bool, seq<Entry<Key, V>>))
    decreases |e|
  {
    if Total(e) + size <= capacity then (true, e)
    else
      match Candidate(e, p, share, 0)
      case None => (false, e)
      case Some(i) =>
        WithoutShorter(e, e[i].key);
        Evict(Without(e, e[i].key), p, share, size, capacity)
  }

  /** Only unprotected entries go; afterwards there is room, or none of them may go any more. */
  lemma {:induction false} EvictFacts<V(!new)>(e: seq<Entry<Key, V>>, p: Protection, share: nat, size: nat,
                                               capacity: nat)
    requires Unique(e)
    ensures var (ok, left) := Evict(e, p, share, size, capacity);
      && Unique(left) && Total(left) <= Total(e) && |left| <= |e|
      && (forall x :: x in left ==> x in e)
      && (forall x :: x in e && IsProtected(p, x.key) ==> x in left)
      && (ok <==> Total(left) + size <= capacity)
      && (!ok ==> Candidate(left, p, share, 0).None?)
    decreases |e|
  {
    if Total(e) + size > capacity {
      var c := Candidate(e, p, share, 0);
      if c.Some? {
        var key := e[c.value].key;
        WithoutShorter(e, key);
        WithoutUnique(e, key);
        WithoutTotal(e, key);
        EvictFacts(Without(e, key), p, share, size, capacity);
      }
    }
  }

  // ----- The state -----

  datatype State<V> = State(entries: seq<Entry<Key, V>>, protection: Protection)

  /** The protected keys of a layer are resident entries of that layer, at most `share`. */
  ghost predicate LayerOk<V(!new)>(s: State<V>, share: nat, layer: int) {
    && |ProtectedOf(s.protection, layer)| <= share
    && forall k :: k in ProtectedOf(s.protection, layer) ==> k.0 == layer && Has(s.entries, k)
  }

  ghost predicate Inv<V(!new)>(s: State<V>, share: nat, capacity: nat) {
    && Ok(s.entries, capacity)
    && (forall layer :: LayerOk(s, share, layer))
    && (forall x :: x in s.entries && !IsProtected(s.protection, x.key) ==>
          |ProtectedOf(s.protection, x.key.0)| == share)
  }

  function Restored<V>(left: seq<Entry<Key, V>>, previous: Option<Entry<Key, V>>): seq<Entry<Key, V>> {
    if previous.Some? then left + [previous.value] else left
  }

  /** The protection of a layer with `key` stored: it gets a free place, or keeps the one it has. */
  function Protect(p: Protection, key: Key, share: nat): Protection {
    var now := ProtectedOf(p, key.0);
    p[key.0 := if key in now || |now| < share then now + {key} else now]
  }

  function Put<V(!new)>(s: State<V>, x: Entry<Key, V>, share: nat, capacity: nat): State<V> {
    if x.size > capacity then s
    else
      var p := s.protection[x.key.0 := ProtectedOf(s.protection, x.key.0)];
      var (ok, left) := Evict(Without(s.entries, x.key), p, share, x.size, capacity);
      if ok then State(left + [x], Protect(p, x.key, share))
      else State(Restored(left, Lookup(s.entries, x.key)), p)
  }

  // ----- What every put keeps -----

  lemma HasMember<V(!new)>(e: seq<Entry<Key, V>>, x: Entry<Key, V>)
    requires x in e
    ensures Has(e, x.key)
  {
  }

  /** The pieces of a put: what is left without the key, and how much it weighs. */
  lemma PutParts<V(!new)>(s: State<V>, x: Entry<Key, V>, share: nat, capacity: nat, p: Protection,
                          rest: seq<Entry<Key, V>>, ok: bool, left: seq<Entry<Key, V>>)
    requires Inv(s, share, capacity) && rest == Without(s.entries, x.key)
    requires forall layer :: ProtectedOf(p, layer) == ProtectedOf(s.protection, layer)
    requires (ok, left) == Evict(rest, p, share, x.size, capacity)
    ensures Unique(left) && !Has(left, x.key)
    ensures forall y :: y in left ==> y in s.entries
    ensures forall k: Key :: k != x.key && IsProtected(p, k) ==> Has(left, k)
    ensures Total(left) + (if Lookup(s.entries, x.key).Some? then Lookup(s.entries, x.key).value.size else 0) <= capacity
    ensures ok ==> Total(left) + x.size <= capacity
  {
    WithoutUnique(s.entries, x.key);
    WithoutTotal(s.entries, x.key);
    EvictFacts(rest, p, share, x.size, capacity);
    forall k: Key | k != x.key && IsProtected(p, k)
      ensures Has(left, k)
    {
      ProtectedStays(s, x, share, capacity, p, rest, left, k);
    }
  }

  lemma ProtectedStays<V(!new)>(s: State<V>, x: Entry<Key, V>, share: nat, capacity: nat, p: Protection,
                                rest: seq<Entry<Key, V>>, left: seq<Entry<Key, V>>, k: Key)
    requires Inv(s, share, capacity) && rest == Without(s.entries, x.key)
    requires forall layer :: ProtectedOf(p, layer) == ProtectedOf(s.protection, layer)
    requires forall y :: y in rest && IsProtected(p, y.key) ==> y in left
    requires k != x.key && IsProtected(p, k)
    ensures Has(left, k)
  {
    assert LayerOk(s, share, k.0);
    var i :| 0 <= i < |s.entries| && s.entries[i].key == k;
    assert s.entries[i] in rest;
    HasMember(left, s.entries[i]);
  }

  /** A put that failed: the key is where it was, or still not there. */
  lemma FailedPutKeeps<V(!new)>(s: State<V>, x: Entry<Key, V>, share: nat, capacity: nat, p: Protection,
                                left: seq<Entry<Key, V>>)
    requires Inv(s, share, capacity) && Left(s, x.key, p, left)
    requires Total(left) + (if Lookup(s.entries, x.key).Some? then Lookup(s.entries, x.key).value.size else 0) <= capacity
    ensures Inv(State(Restored(left, Lookup(s.entries, x.key)), p), share, capacity)
  {
    var previous := Lookup(s.entries, x.key);
    var after := Restored(left, previous);
    if previous.Some? {
      SnocUnique(left, previous.value);
      TotalSnoc(left, previous.value);
      assert previous.value in after;
      HasMember(after, previous.value);
    }
    forall k: Key | IsProtected(p, k)
      ensures Has(after, k)
    {
      assert LayerOk(s, share, k.0);
      if k != x.key {
        var i :| 0 <= i < |left| && left[i].key == k;
        assert after[i] == left[i];
      }
    }
    forall layer
      ensures LayerOk(State(after, p), share, layer)
    {
      assert LayerOk(s, share, layer);
    }
  }

  /** A full layer keeps its protected keys; another one gains at most the new key. */
  lemma ProtectCounts(p: Protection, key: Key, share: nat, layer: int)
    requires |ProtectedOf(p, layer)| <= share
    ensures |ProtectedOf(Protect(p, key, share), layer)| <= share
    ensures |ProtectedOf(p, layer)| == share ==> ProtectedOf(Protect(p, key, share), layer) == ProtectedOf(p, layer)
    ensures forall k :: k in ProtectedOf(p, layer) ==> k in ProtectedOf(Protect(p, key, share), layer)
    ensures forall k :: k in ProtectedOf(Protect(p, key, share), layer) ==>
      k in ProtectedOf(p, layer) || (k == key && layer == key.0)
  {
    var now := ProtectedOf(p, key.0);
    if key in now {
      assert now + {key} == now;
    }
  }

  /** Where a put stands once eviction is over: what is left, and the protection before the new key. */
  ghost predicate Left<V(!new)>(s: State<V>, key: Key, p: Protection, left: seq<Entry<Key, V>>) {
    && Unique(left) && !Has(left, key)
    && (forall layer :: ProtectedOf(p, layer) == ProtectedOf(s.protection, layer))
    && (forall y :: y in left ==> y in s.entries)
    && (forall k: Key :: k != key && IsProtected(p, k) ==> Has(left, k))
  }

  lemma DonePutHolds<V(!new)>(s: State<V>, x: Entry<Key, V>, share: nat, p: Protection, left: seq<Entry<Key, V>>,
                              k: Key)
    requires Left(s, x.key, p, left) && IsProtected(Protect(p, x.key, share), k)
    ensures Has(left + [x], k)
  {
    var after := left + [x];
    if k == x.key {
      assert after[|left|].key == k;
    } else {
      assert IsProtected(p, k);
      var i :| 0 <= i < |left| && left[i].key == k;
      assert after[i] == left[i];
    }
  }

  lemma DonePutLayer<V(!new)>(s: State<V>, x: Entry<Key, V>, share: nat, capacity: nat, p: Protection,
                              left: seq<Entry<Key, V>>, layer: int)
    requires Inv(s, share, capacity) && Left(s, x.key, p, left)
    ensures LayerOk(State(left + [x], Protect(p, x.key, share)), share, layer)
  {
    assert LayerOk(s, share, layer);
    ProtectCounts(p, x.key, share, layer);
    var q := Protect(p, x.key, share);
    forall k | k in ProtectedOf(q, layer)
      ensures k.0 == layer && Has(left + [x], k)
    {
      DonePutHolds(s, x, share, p, left, k);
    }
  }

  lemma DonePutFull<V(!new)>(s: State<V>, x: Entry<Key, V>, share: nat, capacity: nat, p: Protection,
                             left: seq<Entry<Key, V>>, y: Entry<Key, V>)
    requires Inv(s, share, capacity) && Left(s, x.key, p, left)
    requires y in left + [x] && !IsProtected(Protect(p, x.key, share), y.key)
    ensures |ProtectedOf(Protect(p, x.key, share), y.key.0)| == share
  {
    assert LayerOk(s, share, y.key.0);
    ProtectCounts(p, x.key, share, y.key.0);
    if y in left {
      assert y in s.entries && !IsProtected(s.protection, y.key);
    }
  }

  /** A put that went through. */
  lemma DonePutKeeps<V(!new)>(s: State<V>, x: Entry<Key, V>, share: nat, capacity: nat, p: Protection,
                              left: seq<Entry<Key, V>>)
    requires Inv(s, share, capacity) && Left(s, x.key, p, left) && Total(left) + x.size <= capacity
    ensures Inv(State(left + [x], Protect(p, x.key, share)), share, capacity)
  {
    var after, q := left + [x], Protect(p, x.key, share);
    SnocUnique(left, x);
    TotalSnoc(left, x);
    forall layer
      ensures LayerOk(State(after, q), share, layer)
    {
      DonePutLayer(s, x, share, capacity, p, left, layer);
    }
    forall y | y in after && !IsProtected(q, y.key)
      ensures |ProtectedOf(q, y.key.0)| == share
    {
      DonePutFull(s, x, share, capacity, p, left, y);
    }
  }

  /** After every put, also a refused one, the invariant holds. */
  lemma PutKeeps<V(!new)>(s: State<V>, x: Entry<Key, V>, share: nat, capacity: nat)
    requires Inv(s, share, capacity)
    ensures Inv(Put(s, x, share, capacity), share, capacity)
  {
    if x.size <= capacity {
      var p := s.protection[x.key.0 := ProtectedOf(s.protection, x.key.0)];
      var rest := Without(s.entries, x.key);
      var (ok, left) := Evict(rest, p, share, x.size, capacity);
      PutParts(s, x, share, capacity, p, rest, ok, left);
      if ok {
        DonePutKeeps(s, x, share, capacity, p, left);
      } else {
        FailedPutKeeps(s, x, share, capacity, p, left);
      }
    }
  }

  /** Once protected, a key stays protected; the invariant keeps it resident. */
  lemma ProtectionStays<V(!new)>(s: State<V>, x: Entry<Key, V>, share: nat, capacity: nat, k: Key)
    requires Inv(s, share, capacity) && IsProtected(s.protection, k)
    ensures IsProtected(Put(s, x, share, capacity).protection, k) && Has(Put(s, x, share, capacity).entries, k)
  {
    PutKeeps(s, x, share, capacity);
    assert LayerOk(Put(s, x, share, capacity), share, k.0);
  }

  // ----- Runs -----

  datatype Op<V> = GetOp(key: Key) | PutOp(entry: Entry<Key, V>)

  function Step<V(!new)>(s: State<V>, op: Op<V>, share: nat, capacity: nat): State<V> {
    match op
    case GetOp(key) => s.(entries := Touched(s.entries, key))
    case PutOp(entry) => Put(s, entry, share, capacity)
  }

  function Run<V(!new)>(s: State<V>, ops: seq<Op<V>>, share: nat, capacity: nat): State<V> {
    if ops == [] then s else Step(Run(s, ops[..|ops| - 1], share, capacity), ops[|ops| - 1], share, capacity)
  }

  lemma TouchKeeps<V(!new)>(s: State<V>, key: Key, share: nat, capacity: nat)
    requires Inv(s, share, capacity)
    ensures Inv(s.(entries := Touched(s.entries, key)), share, capacity)
  {
    var hit := Lookup(s.entries, key);
    if hit.Some? {
      StaysOk(s.entries, hit.value, capacity);
      var after := Touched(s.entries, key);
      forall x | x in s.entries
        ensures Has(after, x.key)
      {
        if x.key == key {
          assert hit.value in after;
          HasMember(after, hit.value);
        } else {
          assert x in Without(s.entries, key);
          HasMember(after, x);
        }
      }
      forall layer
        ensures LayerOk(s.(entries := after), share, layer)
      {
        assert LayerOk(s, share, layer);
      }
    }
  }

  /** Every run keeps the invariant: the budget holds, protected keys are resident, crowded layers are full. */
  lemma {:induction false} RunKeeps<V(!new)>(ops: seq<Op<V>>, share: nat, capacity: nat)
    ensures Inv(Run(State([], map[]), ops, share, capacity), share, capacity)
  {
    if ops == [] {
      var empty: State<V> := State([], map[]);
      assert forall layer :: LayerOk(empty, share, layer);
    } else {
      var front, op := ops[..|ops| - 1], ops[|ops| - 1];
      RunKeeps(front, share, capacity);
      var s: State<V> := Run(State([], map[]), front, share, capacity);
      match op
      case GetOp(key) => TouchKeeps(s, key, share, capacity);
      case PutOp(entry) => PutKeeps(s, entry, share, capacity);
    }
  }

  /** What is protected at some point of a run is protected, and resident, at every later one. */
  lemma {:induction false} ProtectedForever<V(!new)>(ops: seq<Op<V>>, n: nat, share: nat, capacity: nat, k: Key)
    requires n <= |ops|
    requires IsProtected(Run<V>(State([], map[]), ops[..n], share, capacity).protection, k)
    ensures var last := Run<V>(State([], map[]), ops, share, capacity);
      IsProtected(last.protection, k) && Has(last.entries, k)
  {
    var empty: State<V> := State([], map[]);
    if n == |ops| {
      assert ops[..n] == ops;
      RunKeeps(ops, share, capacity);
      assert LayerOk(Run(empty, ops, share, capacity), share, k.0);
    } else {
      var front, op := ops[..|ops| - 1], ops[|ops| - 1];
      assert front[..n] == ops[..n];
      ProtectedForever(front, n, share, capacity, k);
      RunKeeps(front, share, capacity);
      RunKeeps(ops, share, capacity);
      var s := Run(empty, front, share, capacity);
      match op
      case GetOp(_) =>
      case PutOp(entry) => ProtectionStays(s, entry, share, capacity, k);
      assert LayerOk(Run(empty, ops, share, capacity), share, k.0);
    }
  }

  // ----- The class -----

  class ExpertTensorCache<V(!new)> {
    const capacity: nat
    const share: nat
    var entries: seq<Entry<Key, V>>
    var protectedByLayer: Protection
    var residentBytes: nat
    var hits: nat
    var misses: nat
    var evictions: nat

    function Abstract(): State<V>
      reads this
    {
      State(entries, protectedByLayer)
    }

    ghost predicate Valid()
      reads this
    {
      Inv(Abstract(), share, capacity) && residentBytes == Total(entries)
    }

    constructor (capacity: nat, share: nat)
      ensures Valid() && this.capacity == capacity && this.share == share && Abstract() == State([], map[])
    {
      this.capacity, this.share := capacity, share;
      entries, protectedByLayer, residentBytes, hits, misses, evictions := [], map[], 0, 0, 0, 0;
      new;
      RunKeeps<V>([], share, capacity);
    }

    method Get(key: Key) returns (r: Option<V>)
      requires Valid()
      modifies this
      ensures Valid() && Abstract() == Step(old(Abstract()), GetOp(key), share, capacity)
      ensures match Lookup(old(entries), key)
              case None => r == None && misses == old(misses) + 1 && hits == old(hits)
              case Some(x) => r == Some(x.value) && hits == old(hits) + 1 && misses == old(misses)
    {
      ghost var before := Abstract();
      TouchKeeps(before, key, share, capacity);
      TouchTotal(entries, key);
      var entry := Lookup(entries, key);
      if entry.None? {
        misses := misses + 1;
        r := None;
      } else {
        entries := Touched(entries, key);
        hits := hits + 1;
        r := Some(entry.value.value);
      }
      assert Abstract() == before.(entries := Touched(before.entries, key));
    }

    /** The eviction loop; it ends because every round removes an entry or finds none to remove. */
    method MakeRoom(size: nat) returns (ok: bool)
      requires residentBytes == Total(entries) && Unique(entries)
      modifies `entries, `residentBytes, `evictions
      ensures residentBytes == Total(entries)
      ensures (ok, entries) == Evict(old(entries), protectedByLayer, share, size, capacity)
      ensures |entries| + evictions == |old(entries)| + old(evictions)
    {
      while residentBytes + size > capacity
        invariant residentBytes == Total(entries) && Unique(entries)
        invariant Evict(old(entries), protectedByLayer, share, size, capacity)
               == Evict(entries, protectedByLayer, share, size, capacity)
        invariant |entries| + evictions == |old(entries)| + old(evictions)
        decreases |entries|
      {
        var candidate := Candidate(entries, protectedByLayer, share, 0);
        if candidate.None? {
          return false;
        }
        var victim := entries[candidate.value];
        WithoutTotal(entries, victim.key);
        WithoutUnique(entries, victim.key);
        OnlyEntry(entries, candidate.value);
        entries, residentBytes := Without(entries, victim.key), residentBytes - victim.size;
        evictions := evictions + 1;
      }
      return true;
    }

    method Put(key: Key, value: V, size: nat)
      requires Valid()
      modifies this
      ensures Valid() && hits == old(hits) && misses == old(misses)
      ensures Abstract() == Step(old(Abstract()), PutOp(Entry(key, value, size)), share, capacity)
    {
      PutKeeps(Abstract(), Entry(key, value, size), share, capacity);
      Replace(key, value, size);
    }

    /** The body of a put: pop the key, make room, store or restore. */
    method Replace(key: Key, value: V, size: nat)
      requires Unique(entries) && residentBytes == Total(entries)
      modifies `entries, `protectedByLayer, `residentBytes, `evictions
      ensures residentBytes == Total(entries)
      ensures Abstract() == Step(old(Abstract()), PutOp(Entry(key, value, size)), share, capacity)
    {
      if size > capacity {
        return;
      }
      ghost var before, x := Abstract(), Entry(key, value, size);
      var previous := Lookup(entries, key);
      TakeOut(key, previous);
      ghost var p := protectedByLayer;
      var ok := MakeRoom(size);
      PutValue(before, x, share, capacity, p, ok, entries);
      if ok {
        TotalSnoc(entries, x);
        entries, residentBytes := entries + [Entry(key, value, size)], residentBytes + size;
        protectedByLayer := Protect(protectedByLayer, key, share);
      } else if previous.Some? {
        TotalSnoc(entries, previous.value);
        entries, residentBytes := entries + [previous.value], residentBytes + previous.value.size;
      }
    }

    /** Pops the key and makes sure its layer has a set of protected keys. */
    method TakeOut(key: Key, previous: Option<Entry<Key, V>>)
      requires Unique(entries) && residentBytes == Total(entries) && previous == Lookup(entries, key)
      modifies `entries, `protectedByLayer, `residentBytes
      ensures Unique(entries) && residentBytes == Total(entries) && entries == Without(old(entries), key)
      ensures protectedByLayer == old(protectedByLayer)[key.0 := ProtectedOf(old(protectedByLayer), key.0)]
    {
      WithoutTotal(entries, key);
      WithoutUnique(entries, key);
      entries := Without(entries, key);
      residentBytes := residentBytes - if previous.Some? then previous.value.size else 0;
      protectedByLayer := protectedByLayer[key.0 := ProtectedOf(protectedByLayer, key.0)];
    }
  }

  lemma TouchTotal<V(!new)>(e: seq<Entry<Key, V>>, key: Key)
    requires Unique(e)
    ensures Total(Touched(e, key)) == Total(e)
  {
    WithoutTotal(e, key);
    if Lookup(e, key).Some? {
      TotalSnoc(Without(e, key), Lookup(e, key).value);
    }
  }

  lemma PutValue<V(!new)>(s: State<V>, x: Entry<Key, V>, share: nat, capacity: nat, p: Protection, ok: bool,
                          left: seq<Entry<Key, V>>)
    requires x.size <= capacity && p == s.protection[x.key.0 := ProtectedOf(s.protection, x.key.0)]
    requires (ok, left) == Evict(Without(s.entries, x.key), p, share, x.size, capacity)
    ensures Put(s, x, share, capacity) ==
            if ok then State(left + [x], Protect(p, x.key, share))
            else State(Restored(left, Lookup(s.entries, x.key)), p)
  {
  }

  lemma {:induction false} OnlyEntry<V(!new)>(e: seq<Entry<Key, V>>, i: nat)
    requires Unique(e) && i < |e|
    ensures Lookup(e, e[i].key) == Some(e[i])
  {
    var found := Lookup(e, e[i].key);
    assert Has(e, e[i].key);
    var j :| 0 <= j < |e| && e[j] == found.value;
  }
}
