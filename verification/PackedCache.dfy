/**
 The packed sidecar cache: files on disk, a host layer and a pinned layer above them. One call at a time
 the layers are invisible. With a put between the steps of a get, blocking gets stay right, and the
 pinned layer, which knows its entries by path alone, may not.
 */
module PackedCache {
  import opened Wrappers
  import opened Lru

  type Path = nat
  type Digest = nat

  /** A sidecar file: the digest it was recorded under and its payload; `intact` if its checksums hold. */
  datatype Sidecar = Sidecar(digest: Digest, payload: seq<nat>, intact: bool)

  function HostEntry(path: Path, file: Sidecar): Entry<Path, Sidecar> {
    Entry(path, file, |file.payload|)
  }

  function PinnedEntry(path: Path, payload: seq<nat>): Entry<Path, seq<nat>> {
    Entry(path, payload, |payload|)
  }

  // ----- One call at a time -----

  /** What a get finds without any layer above the files. */
  function Direct(files: map<Path, Sidecar>, path: Path, digest: Digest, nonBlocking: bool, pinnedCapacity: nat)
      : Option<seq<nat>>
  {
    if path in files && files[path].digest == digest && files[path].intact
       && (nonBlocking ==> |files[path].payload| <= pinnedCapacity)
    then Some(files[path].payload) else None
  }

  /** Every cached entry is what the file holds now. */
  ghost predicate Agree(files: map<Path, Sidecar>, host: seq<Entry<Path, Sidecar>>, pinned: seq<Entry<Path, seq<nat>>>) {
    && (forall e :: e in host ==> e.key in files && e.value == files[e.key] && e.size == |e.value.payload|)
    && (forall e :: e in pinned ==> e.key in files && e.value == files[e.key].payload && e.size == |e.value|)
  }

  lemma {:induction false} EvictedMembers<V(!new)>(e: seq<Entry<Path, V>>, size: nat, capacity: nat)
    ensures forall x :: x in Evicted(e, size, capacity) ==> x in e
  {
    if e != [] && Total(e) + size > capacity {
      EvictedMembers(e[1..], size, capacity);
    }
  }

  /** What storing and touching can put into a layer. */
  lemma LayerMembers<V(!new)>(e: seq<Entry<Path, V>>, x: Entry<Path, V>, capacity: nat)
    ensures forall y :: y in Stored(e, x, capacity) ==> y in e || y == x
    ensures forall y :: y in Touched(e, x.key) ==> y in e
  {
    EvictedMembers(Without(e, x.key), x.size, capacity);
  }

  class GLM5XPackedExpertCache {
    const hostCapacity: nat
    const pinnedCapacity: nat
    var files: map<Path, Sidecar>
    var host: seq<Entry<Path, Sidecar>>
    var pinned: seq<Entry<Path, seq<nat>>>
    var hits: nat
    var misses: nat
    var writes: nat

    ghost predicate Valid()
      reads this
    {
      Agree(files, host, pinned) && Ok(host, hostCapacity) && Ok(pinned, pinnedCapacity)
    }

    constructor (files: map<Path, Sidecar>, hostCapacity: nat, pinnedCapacity: nat)
      ensures Valid() && this.files == files && this.hostCapacity == hostCapacity
      ensures this.pinnedCapacity == pinnedCapacity && hits == 0 && misses == 0 && writes == 0
    {
      this.files, this.hostCapacity, this.pinnedCapacity := files, hostCapacity, pinnedCapacity;
      host, pinned, hits, misses, writes := [], [], 0, 0, 0;
    }

    /** Replaces the file atomically and forgets what was cached for the path. */
    method Put(path: Path, file: Sidecar)
      requires Valid()
      modifies this
      ensures Valid() && files == old(files)[path := file]
      ensures writes == old(writes) + 1 && hits == old(hits) && misses == old(misses)
    {
      Dropped(host, path, hostCapacity);
      Dropped(pinned, path, pinnedCapacity);
      files := files[path := file];
      host, pinned := Without(host, path), Without(pinned, path);
      writes := writes + 1;
    }

    /** `_host_get`: the youngest entry from now on. */
    method HostGet(path: Path) returns (r: Option<Sidecar>)
      requires Valid()
      modifies `host
      ensures Valid() && (r.Some? ==> path in files && r.value == files[path])
    {
      if hostCapacity == 0 {
        return None;
      }
      var entry := Lookup(host, path);
      if entry.None? {
        return None;
      }
      StaysOk(host, entry.value, hostCapacity);
      LayerMembers(host, entry.value, hostCapacity);
      host := Touched(host, path);
      return Some(entry.value.value);
    }

    method HostPut(path: Path, file: Sidecar)
      requires Valid() && path in files && files[path] == file
      modifies `host
      ensures Valid()
    {
      if hostCapacity > 0 {
        StaysOk(host, HostEntry(path, file), hostCapacity);
        LayerMembers(host, HostEntry(path, file), hostCapacity);
        host := Stored(host, HostEntry(path, file), hostCapacity);
      }
    }

    /** The pinned copy of a payload: the one that is there, or a new one if it fits. */
    method Pin(path: Path, payload: seq<nat>) returns (sections: Option<seq<nat>>)
      requires Valid() && path in files && payload == files[path].payload
      modifies `pinned
      ensures Valid()
      ensures sections == if |payload| <= pinnedCapacity then Some(payload) else None
    {
      var entry := Lookup(pinned, path);
      if entry.Some? {
        StaysOk(pinned, entry.value, pinnedCapacity);
        LayerMembers(pinned, entry.value, pinnedCapacity);
        OneOfMany(pinned, entry.value);
        pinned := Touched(pinned, path);
        return Some(entry.value.value);
      }
      if |payload| > pinnedCapacity {
        return None;
      }
      StaysOk(pinned, PinnedEntry(path, payload), pinnedCapacity);
      LayerMembers(pinned, PinnedEntry(path, payload), pinnedCapacity);
      pinned := Stored(pinned, PinnedEntry(path, payload), pinnedCapacity);
      return Some(payload);
    }

    /** A get gives what the file on disk holds for that digest, whatever the layers contain. */
    method Get(path: Path, digest: Digest, nonBlocking: bool) returns (r: Option<seq<nat>>)
      requires Valid()
      modifies this
      ensures Valid() && files == old(files) && writes == old(writes)
      ensures r == Direct(files, path, digest, nonBlocking, pinnedCapacity)
      ensures if r.Some? then hits == old(hits) + 1 && misses == old(misses)
              else misses == old(misses) + 1 && hits == old(hits)
    {
      r := Find(path, digest, nonBlocking);
      if r.Some? {
        hits := hits + 1;
      } else {
        misses := misses + 1;
      }
    }

    method Find(path: Path, digest: Digest, nonBlocking: bool) returns (r: Option<seq<nat>>)
      requires Valid()
      modifies `host, `pinned
      ensures Valid() && r == Direct(files, path, digest, nonBlocking, pinnedCapacity)
    {
      var cached := HostGet(path);
      var file: Sidecar;
      if cached.Some? {
        file := cached.value;
      } else if path in files {
        file := files[path];
      } else {
        return None;
      }
      if file.digest != digest || !file.intact {
        return None;
      }
      if nonBlocking {
        var sections := Pin(path, file.payload);
        if sections.None? {
          return None;
        }
      }
      if cached.None? {
        HostPut(path, file);
      }
      return Some(file.payload);
    }
  }

  lemma Dropped<V(!new)>(e: seq<Entry<Path, V>>, path: Path, capacity: nat)
    requires Ok(e, capacity)
    ensures Ok(Without(e, path), capacity)
  {
    WithoutUnique(e, path);
    WithoutTotal(e, path);
  }

  lemma {:induction false} OneOfMany<V(!new)>(e: seq<Entry<Path, V>>, x: Entry<Path, V>)
    requires x in e
    ensures x.size <= Total(e)
  {
    if e[|e| - 1] != x {
      var front := e[..|e| - 1];
      assert e == front + [e[|e| - 1]];
      OneOfMany(front, x);
    }
  }
}
