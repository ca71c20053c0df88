/**
 The files one shard conversion touches, and what a crash may do to them.

 Replacing and unlinking a file are atomic and durable. The partial file is written in place: only
 the bytes in the window [lo, hi) are known to be on stable storage, everything else may come back
 from a crash as anything. `power` is how many more effects the machine survives; an effect that
 finds none left does not happen and reports it.
 */
module Disk {
  import opened Wrappers
  import opened Bytes
  import opened Format

  datatype Completed = Completed(id: nat, offset: nat, length: nat, crc: nat)

  datatype Ledger = Ledger(source: Digest, version: string, fingerprint: Digest, uuid: seq<byte>,
                           completed: seq<Completed>)

  /** A ledger file that does not parse is `Corrupt`. */
  datatype LedgerFile = Corrupt | Parsed(ledger: Ledger)

  datatype Sidecar = Sidecar(format: string, shard: string, source: Digest, tensorCount: nat,
                             tensors: seq<(string, nat)>)

  datatype Marker = Marker(format: string, shard: string, source: Digest)

  datatype Files = Files(
    source: bool,
    partial: Option<seq<byte>>,
    ledger: Option<LedgerFile>,
    output: Option<seq<byte>>,
    sidecar: Option<Sidecar>,
    marker: Option<Marker>)

  /** The contents the partial file may have after a crash. */
  ghost predicate Torn(before: Option<seq<byte>>, lo: nat, hi: nat, after: Option<seq<byte>>) {
    match before
    case None => after.None?
    case Some(b) =>
      0 < hi <= |b| ==>
        && after.Some? && hi <= |after.value|
        && (lo <= hi ==> after.value[lo..hi] == b[lo..hi])
  }

  class Disk {
    var files: Files
    var power: Option<nat>
    var lo: nat
    var hi: nat

    ghost predicate Valid()
      reads this
    {
      files.partial.Some? ==> lo <= hi <= |files.partial.value|
    }

    /** Everything in the partial file is on stable storage. */
    ghost predicate Settled()
      reads this
    {
      files.partial.Some? ==> lo == 0 && hi == |files.partial.value|
    }

    constructor (files: Files, power: Option<nat>)
      ensures this.files == files && this.power == power && Valid() && Settled()
    {
      this.files, this.power := files, power;
      lo, hi := 0, if files.partial.Some? then |files.partial.value| else 0;
    }

    method Spend() returns (alive: bool)
      modifies `power
      ensures alive <==> old(power) != Some(0)
      ensures old(power).None? <==> power.None?
    {
      alive := power != Some(0);
      if power.Some? && alive {
        power := Some(power.value - 1);
      }
    }

    /** Opens the partial file for writing from scratch. */
    method CreatePartial() returns (alive: bool)
      modifies `files, `power, `lo, `hi
      ensures Valid() && lo == 0 && hi == 0 && (power.None? <==> old(power).None?)
      ensures alive <==> old(power) != Some(0)
      ensures files == if alive then old(files).(partial := Some([])) else old(files)
    {
      lo, hi := 0, 0;
      alive := Spend();
      if alive {
        files := files.(partial := Some([]));
      }
    }

    method Append(data: seq<byte>) returns (alive: bool)
      requires Valid() && files.partial.Some?
      modifies `files, `power
      ensures Valid() && (power.None? <==> old(power).None?)
      ensures alive <==> old(power) != Some(0)
      ensures files == if alive then old(files).(partial := Some(old(files.partial.value) + data)) else old(files)
    {
      alive := Spend();
      if alive {
        files := files.(partial := Some(files.partial.value + data));
      }
    }

    /** Overwrites the superblock; while that is going on none of its bytes is safe. */
    method WriteHead(block: seq<byte>) returns (alive: bool)
      requires Valid() && files.partial.Some? && |block| == SUPERBLOCK_BYTES <= hi
      modifies `files, `power, `lo
      ensures Valid() && (power.None? <==> old(power).None?)
      ensures lo == if old(lo) < SUPERBLOCK_BYTES then SUPERBLOCK_BYTES else old(lo)
      ensures alive <==> old(power) != Some(0)
      ensures files == if alive
                       then old(files).(partial := Some(block + old(files.partial.value)[SUPERBLOCK_BYTES..]))
                       else old(files)
    {
      lo := if lo < SUPERBLOCK_BYTES then SUPERBLOCK_BYTES else lo;
      alive := Spend();
      if alive {
        files := files.(partial := Some(block + files.partial.value[SUPERBLOCK_BYTES..]));
      }
    }

    /** Cuts the partial file, or extends it with zeros. */
    method Truncate(end: nat) returns (alive: bool)
      requires Valid() && files.partial.Some? && lo <= end
      modifies `files, `power, `hi
      ensures Valid() && (power.None? <==> old(power).None?)
      ensures hi == if end < old(hi) then end else old(hi)
      ensures alive <==> old(power) != Some(0)
      ensures files == if alive then old(files).(partial := Some(Resized(old(files.partial.value), end))) else old(files)
    {
      hi := if end < hi then end else hi;
      alive := Spend();
      if alive {
        files := files.(partial := Some(Resized(files.partial.value, end)));
      }
    }

    method Fsync() returns (alive: bool)
      requires Valid() && files.partial.Some?
      modifies `power, `lo, `hi
      ensures Valid() && (power.None? <==> old(power).None?)
      ensures alive <==> old(power) != Some(0)
      ensures if alive then lo == 0 && hi == |files.partial.value| else lo == old(lo) && hi == old(hi)
    {
      alive := Spend();
      if alive {
        lo, hi := 0, |files.partial.value|;
      }
    }

    /** Atomic replacement of the ledger by a new version. */
    method ReplaceLedger(ledger: Ledger) returns (alive: bool)
      modifies `files, `power
      ensures power.None? <==> old(power).None?
      ensures alive <==> old(power) != Some(0)
      ensures files == if alive then old(files).(ledger := Some(Parsed(ledger))) else old(files)
    {
      alive := Spend();
      if alive {
        files := files.(ledger := Some(Parsed(ledger)));
      }
    }

    /** Renames the partial file to the output; all of it has to be on stable storage. */
    method Publish() returns (alive: bool)
      requires Valid() && files.partial.Some? && lo == 0 && hi == |files.partial.value|
      modifies `files, `power
      ensures Valid() && (power.None? <==> old(power).None?)
      ensures alive <==> old(power) != Some(0)
      ensures files == if alive then old(files).(output := old(files.partial), partial := None) else old(files)
    {
      alive := Spend();
      if alive {
        files := files.(output := files.partial, partial := None);
      }
    }

    method WriteSidecar(sidecar: Sidecar) returns (alive: bool)
      modifies `files, `power
      ensures power.None? <==> old(power).None?
      ensures alive <==> old(power) != Some(0)
      ensures files == if alive then old(files).(sidecar := Some(sidecar)) else old(files)
    {
      alive := Spend();
      if alive {
        files := files.(sidecar := Some(sidecar));
      }
    }

    method RemoveLedger() returns (alive: bool)
      modifies `files, `power
      ensures power.None? <==> old(power).None?
      ensures alive <==> old(power) != Some(0)
      ensures files == if alive then old(files).(ledger := None) else old(files)
    {
      alive := Spend();
      if alive {
        files := files.(ledger := None);
      }
    }

    method WriteMarker(marker: Marker) returns (alive: bool)
      modifies `files, `power
      ensures power.None? <==> old(power).None?
      ensures alive <==> old(power) != Some(0)
      ensures files == if alive then old(files).(marker := Some(marker)) else old(files)
    {
      alive := Spend();
      if alive {
        files := files.(marker := Some(marker));
      }
    }

    method RemoveSource() returns (alive: bool)
      modifies `files, `power
      ensures power.None? <==> old(power).None?
      ensures alive <==> old(power) != Some(0)
      ensures files == if alive then old(files).(source := false) else old(files)
    {
      alive := Spend();
      if alive {
        files := files.(source := false);
      }
    }

    /** The machine goes down and comes back; `garbage` is what the crash made of the unsafe bytes. */
    method Restart(garbage: Option<seq<byte>>, power': Option<nat>)
      requires Valid()
      modifies this
      ensures files == old(files).(partial := Tear(old(files.partial), old(lo), old(hi), garbage))
      ensures power == power' && Valid() && Settled()
    {
      files := files.(partial := Tear(files.partial, lo, hi, garbage));
      power := power';
      lo, hi := 0, if files.partial.Some? then |files.partial.value| else 0;
    }
  }

  /** `garbage`, as far as the window [lo, hi) lets it in. */
  function Tear(before: Option<seq<byte>>, lo: nat, hi: nat, garbage: Option<seq<byte>>): (after: Option<seq<byte>>)
    requires before.Some? ==> lo <= hi <= |before.value|
    ensures Torn(before, lo, hi, after)
  {
    match before
    case None => None
    case Some(b) =>
      if hi == 0 then garbage
      else
        var g := if garbage.Some? then garbage.value else [];
        var head := if lo <= |g| then g[..lo] else g + Zeros(lo - |g|);
        Some(head + b[lo..hi] + if hi <= |g| then g[hi..] else [])
  }

  /** Nothing that a crash may leave is left out. */
  lemma EveryTear(before: Option<seq<byte>>, lo: nat, hi: nat, after: Option<seq<byte>>)
    requires (before.Some? ==> lo <= hi <= |before.value|) && Torn(before, lo, hi, after)
    ensures Tear(before, lo, hi, after) == after
  {
    if before.Some? && hi > 0 {
      var g := after.value;
      assert g[..lo] + g[lo..hi] + g[hi..] == g;
    }
  }

  function Resized(b: seq<byte>, end: nat): (r: seq<byte>)
    ensures |r| == end
  {
    if end <= |b| then b[..end] else b + Zeros(end - |b|)
  }
}
