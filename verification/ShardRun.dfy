/** One run of the converter, effect by effect. */
module ShardRun {
  import opened Wrappers
  import opened Bytes
  import opened Format
  import opened Reader
  import opened ShardLayout
  import opened ShardReadback
  import opened Disk
  import opened Shard
  import opened ShardChecks

  /** Only the partial file and the ledger differ. */
  predicate SameApartFromProgress(before: Files, after: Files) {
    after == before.(partial := after.partial, ledger := after.ledger)
  }

  /** `gap` is what is behind extent `k` already, or what will be written there. */
  predicate GapPending(gap: seq<byte>, tail: seq<byte>) {
    tail == gap || (tail == [] && AllZero(gap))
  }

  function ChunkAt(data: seq<byte>, position: nat, chunkBytes: nat): (chunk: seq<byte>)
    requires position <= |data|
    ensures position + |chunk| <= |data| && chunk == data[position..position + |chunk|]
    ensures chunkBytes > 0 && position < |data| ==> chunk != []
  {
    if position + chunkBytes < |data| then data[position..position + chunkBytes] else data[position..]
  }

  // ----- Pure facts about the growing file -----

  /** Appending to the file appends to its tail. */
  lemma AppendExtends(job: Job, before: Files, lo: nat, hi: nat, uuid: Uuid, gaps: seq<seq<byte>>, k: nat,
                      tail: seq<byte>, more: seq<byte>, after: Files)
    requires Extending(job, before, lo, hi, uuid, gaps, k, tail)
    requires after == before.(partial := Some(before.partial.value + more))
    requires gaps[k] <= tail + more
    ensures Extending(job, after, lo, hi, uuid, gaps, k, tail + more)
  {
    var bytes := before.partial.value;
    assert (bytes + more)[SUPERBLOCK_BYTES..] == bytes[SUPERBLOCK_BYTES..] + more;
    var w := Written(job.plans, gaps, k)[SUPERBLOCK_BYTES..];
    assert (w + tail) + more == w + (tail + more);
  }

  lemma LengthOfExtending(job: Job, files: Files, lo: nat, hi: nat, uuid: Uuid, gaps: seq<seq<byte>>, k: nat,
                          tail: seq<byte>)
    requires Extending(job, files, lo, hi, uuid, gaps, k, tail)
    ensures |files.partial.value| == EndOf(job.plans, k) + |tail|
  {
    assert |files.partial.value[SUPERBLOCK_BYTES..]| == |files.partial.value| - SUPERBLOCK_BYTES;
  }

  /** An extent that is on the disk with its gap becomes a ledgered one. */
  lemma LedgerAdvances(job: Job, before: Files, lo: nat, hi: nat, uuid: Uuid, gaps: seq<seq<byte>>, k: nat,
                       after: Files)
    requires k < |job.plans| && GapsFit(job.plans, gaps)
    requires Extending(job, before, lo, hi, uuid, gaps, k, gaps[k] + job.plans[k].data)
    requires lo == 0 && hi == |before.partial.value|
    requires after == before.(ledger := Some(Parsed(LedgerOf(job, uuid, k + 1))))
    ensures Extending(job, after, lo, hi, uuid, gaps, k + 1, [])
  {
    var w := Written(job.plans, gaps, k);
    var data := job.plans[k].data;
    assert (w + gaps[k] + data)[SUPERBLOCK_BYTES..] == w[SUPERBLOCK_BYTES..] + (gaps[k] + data);
    LengthOfExtending(job, before, lo, hi, uuid, gaps, k, gaps[k] + data);
  }

  /** A freshly started partial file. */
  lemma FreshExtends(job: Job, files: Files, hi: nat, uuid: Uuid)
    requires files.output.None? && files.partial == Some(Zeros(SUPERBLOCK_BYTES)) && hi == SUPERBLOCK_BYTES
    requires files.ledger == Some(Parsed(LedgerOf(job, uuid, 0)))
    ensures Extending(job, files, 0, hi, uuid, ZeroGaps(job.plans), 0, [])
  {
    AllZeroOfZeros(job.plans);
  }

  lemma AllZeroOfZeros(plans: seq<Plan>)
    ensures ZeroAfter(plans, ZeroGaps(plans), 0) && AllZero(ZeroGaps(plans)[0])
  {
    forall i | 0 <= i <= |plans|
      ensures AllZero(ZeroGaps(plans)[i])
    {
      assert ZeroGaps(plans)[i] == Zeros(OffsetOf(plans, i) - EndOf(plans, i));
    }
  }

  /** Cutting the partial file puts a resumed run where the interrupted one was. */
  lemma CutExtends(job: Job, before: Files, lo: nat, hi: nat, uuid: Uuid, gaps: seq<seq<byte>>, after: Files,
                   hi': nat)
    requires Resumable(job, before, lo, hi, uuid, gaps)
    requires var k := |before.ledger.value.ledger.completed|; var end := OffsetOf(job.plans, k);
      && after == before.(partial := Some(Resized(before.partial.value, end)))
      && hi' == if end < hi then end else hi
    ensures var k := |before.ledger.value.ledger.completed|;
      Extending(job, after, lo, hi', uuid, gaps, k, gaps[k])
  {
    var k := |before.ledger.value.ledger.completed|;
    CutIsWritten(job.plans, before.partial.value, k);
    InheritedZeroAfter(job.plans, before.partial.value, k);
  }

  lemma InheritedZeroAfter(plans: seq<Plan>, bytes: seq<byte>, k: nat)
    requires k <= |plans|
    ensures ZeroAfter(plans, InheritedGaps(plans, bytes, k), k)
  {
  }

  /** How many zeros are missing before the next aligned offset. */
  lemma MissingZeros(job: Job, files: Files, lo: nat, hi: nat, uuid: Uuid, gaps: seq<seq<byte>>, k: nat,
                     tail: seq<byte>)
    requires Extending(job, files, lo, hi, uuid, gaps, k, tail) && GapPending(gaps[k], tail)
    ensures AlignUp(|files.partial.value|) == OffsetOf(job.plans, k)
    ensures OffsetOf(job.plans, k) - |files.partial.value| == |gaps[k]| - |tail|
    ensures tail != gaps[k] ==> tail == [] && gaps[k] == Zeros(|gaps[k]|)
  {
    LengthOfExtending(job, files, lo, hi, uuid, gaps, k, tail);
    if tail == gaps[k] {
      AlignUpOfAligned(OffsetOf(job.plans, k));
    } else {
      AllZeroIsZeros(gaps[k]);
    }
  }

  // ----- Effects -----

  method AppendTail(disk: Disk, job: Job, uuid: Uuid, ghost gaps: seq<seq<byte>>, ghost k: nat, ghost tail: seq<byte>,
                    more: seq<byte>)
      returns (alive: bool)
    requires disk.Valid() && Extending(job, disk.files, disk.lo, disk.hi, uuid, gaps, k, tail)
    requires gaps[k] <= tail + more
    modifies disk
    ensures disk.Valid() && (disk.power.None? <==> old(disk.power).None?)
    ensures SameApartFromProgress(old(disk.files), disk.files)
    ensures alive ==> Extending(job, disk.files, disk.lo, disk.hi, uuid, gaps, k, tail + more)
    ensures !alive ==> disk.power.Some? && Resumable(job, disk.files, disk.lo, disk.hi, uuid, gaps)
  {
    ghost var before := disk.files;
    ExtendingIsResumable(job, before, disk.lo, disk.hi, uuid, gaps, k, tail);
    alive := disk.Append(more);
    if alive {
      AppendExtends(job, before, disk.lo, disk.hi, uuid, gaps, k, tail, more, disk.files);
    }
  }

  method FlushTail(disk: Disk, job: Job, uuid: Uuid, ghost gaps: seq<seq<byte>>, ghost k: nat, ghost tail: seq<byte>)
      returns (alive: bool)
    requires disk.Valid() && Extending(job, disk.files, disk.lo, disk.hi, uuid, gaps, k, tail)
    modifies disk
    ensures disk.Valid() && (disk.power.None? <==> old(disk.power).None?) && disk.files == old(disk.files)
    ensures alive ==> disk.Settled() && Extending(job, disk.files, disk.lo, disk.hi, uuid, gaps, k, tail)
    ensures !alive ==> disk.power.Some? && Resumable(job, disk.files, disk.lo, disk.hi, uuid, gaps)
  {
    ExtendingIsResumable(job, disk.files, disk.lo, disk.hi, uuid, gaps, k, tail);
    alive := disk.Fsync();
  }

  /** The ledger after extent `k`; everything it lists is on stable storage. */
  method AdvanceLedger(disk: Disk, job: Job, uuid: Uuid, ghost gaps: seq<seq<byte>>, ghost k: nat, ledger: Ledger)
      returns (alive: bool)
    requires k < |job.plans| && GapsFit(job.plans, gaps)
    requires disk.Valid() && disk.Settled() && ledger == LedgerOf(job, uuid, k + 1)
    requires Extending(job, disk.files, disk.lo, disk.hi, uuid, gaps, k, gaps[k] + job.plans[k].data)
    modifies disk
    ensures disk.Valid() && (disk.power.None? <==> old(disk.power).None?)
    ensures SameApartFromProgress(old(disk.files), disk.files)
    ensures alive ==> disk.Settled() && Extending(job, disk.files, disk.lo, disk.hi, uuid, gaps, k + 1, [])
    ensures !alive ==> disk.power.Some? && Resumable(job, disk.files, disk.lo, disk.hi, uuid, gaps)
  {
    ghost var before := disk.files;
    ExtendingIsResumable(job, before, disk.lo, disk.hi, uuid, gaps, k, gaps[k] + job.plans[k].data);
    alive := disk.ReplaceLedger(ledger);
    if alive {
      LedgerAdvances(job, before, disk.lo, disk.hi, uuid, gaps, k, disk.files);
    }
  }

  // ----- One extent -----

  /** Zeros up to the next aligned offset, unless the file is there already. */
  method Align(disk: Disk, job: Job, uuid: Uuid, ghost gaps: seq<seq<byte>>, ghost k: nat, ghost tail: seq<byte>)
      returns (alive: bool)
    requires disk.Valid() && Extending(job, disk.files, disk.lo, disk.hi, uuid, gaps, k, tail)
    requires GapPending(gaps[k], tail)
    modifies disk
    ensures disk.Valid() && (disk.power.None? <==> old(disk.power).None?)
    ensures SameApartFromProgress(old(disk.files), disk.files)
    ensures alive ==> Extending(job, disk.files, disk.lo, disk.hi, uuid, gaps, k, gaps[k])
    ensures !alive ==> disk.power.Some? && Resumable(job, disk.files, disk.lo, disk.hi, uuid, gaps)
  {
    MissingZeros(job, disk.files, disk.lo, disk.hi, uuid, gaps, k, tail);
    var size := |disk.files.partial.value|;
    var offset := AlignUp(size);
    alive := true;
    if offset > size {
      assert [] + gaps[k] == gaps[k];
      alive := AppendTail(disk, job, uuid, gaps, k, [], Zeros(offset - size));
    }
  }

  /** Source bytes behind the gap, chunk by chunk. */
  method CopyChunks(disk: Disk, job: Job, uuid: Uuid, ghost gaps: seq<seq<byte>>, ghost k: nat, ghost gap: seq<byte>,
                    data: seq<byte>, chunkBytes: nat)
      returns (alive: bool)
    requires disk.Valid() && Extending(job, disk.files, disk.lo, disk.hi, uuid, gaps, k, gap)
    requires gaps[k] == gap && chunkBytes > 0
    modifies disk
    ensures disk.Valid() && (disk.power.None? <==> old(disk.power).None?)
    ensures SameApartFromProgress(old(disk.files), disk.files)
    ensures alive ==> Extending(job, disk.files, disk.lo, disk.hi, uuid, gaps, k, gap + data)
    ensures !alive ==> disk.power.Some? && Resumable(job, disk.files, disk.lo, disk.hi, uuid, gaps)
  {
    var copied := 0;
    ghost var tail := gap;
    while copied < |data|
      invariant copied <= |data| && tail == gap + data[..copied]
      invariant disk.Valid() && (disk.power.None? <==> old(disk.power).None?)
      invariant SameApartFromProgress(old(disk.files), disk.files)
      invariant Extending(job, disk.files, disk.lo, disk.hi, uuid, gaps, k, tail)
    {
      var chunk := ChunkAt(data, copied, chunkBytes);
      TailGrows(gap, data, copied, copied + |chunk|, chunk);
      alive := AppendTail(disk, job, uuid, gaps, k, tail, chunk);
      if !alive {
        return;
      }
      tail := tail + chunk;
      copied := copied + |chunk|;
    }
    assert data[..copied] == data;
    alive := true;
  }

  lemma TailGrows(gap: seq<byte>, data: seq<byte>, from: nat, to: nat, chunk: seq<byte>)
    requires from <= to <= |data| && chunk == data[from..to]
    ensures (gap + data[..from]) + chunk == gap + data[..to]
    ensures gap <= (gap + data[..from]) + chunk
  {
    assert data[..to] == data[..from] + chunk;
  }

  /** What the readback of a fresh extent sees. */
  lemma FreshExtentReads(job: Job, files: Files, lo: nat, hi: nat, uuid: Uuid, gaps: seq<seq<byte>>, k: nat)
    requires k < |job.plans| && GapsFit(job.plans, gaps)
    requires Extending(job, files, lo, hi, uuid, gaps, k, gaps[k] + job.plans[k].data)
    ensures CrcAt(job.h, files.partial.value, OffsetOf(job.plans, k), |job.plans[k].data|)
            == Success(job.h.crc(job.plans[k].data))
  {
    var bytes, data := files.partial.value, job.plans[k].data;
    var rest := bytes[SUPERBLOCK_BYTES..];
    var w := Written(job.plans, gaps, k)[SUPERBLOCK_BYTES..];
    LengthOfExtending(job, files, lo, hi, uuid, gaps, k, gaps[k] + data);
    var at := OffsetOf(job.plans, k);
    assert rest[|w| + |gaps[k]|..] == data;
    assert bytes[at..at + |data|] == rest[at - SUPERBLOCK_BYTES..];
  }

  /** Padding and data, on stable storage and read back. */
  method PutExtent(disk: Disk, job: Job, uuid: Uuid, ghost gaps: seq<seq<byte>>, k: nat, ghost tail: seq<byte>,
                   chunkBytes: nat)
      returns (alive: bool, item: Completed)
    requires disk.Valid() && Extending(job, disk.files, disk.lo, disk.hi, uuid, gaps, k, tail)
    requires k < |job.plans| && GapPending(gaps[k], tail) && chunkBytes > 0
    modifies disk
    ensures disk.Valid() && (disk.power.None? <==> old(disk.power).None?)
    ensures SameApartFromProgress(old(disk.files), disk.files)
    ensures alive ==>
      && item == CompletedOf(job, k) && disk.Settled()
      && Extending(job, disk.files, disk.lo, disk.hi, uuid, gaps, k, gaps[k] + job.plans[k].data)
    ensures !alive ==> disk.power.Some? && Resumable(job, disk.files, disk.lo, disk.hi, uuid, gaps)
  {
    var p := job.plans[k];
    item := Completed(p.id, 0, 0, 0);
    alive := Align(disk, job, uuid, gaps, k, tail);
    if !alive {
      return;
    }
    LengthOfExtending(job, disk.files, disk.lo, disk.hi, uuid, gaps, k, gaps[k]);
    var offset := |disk.files.partial.value|;
    alive := CopyChunks(disk, job, uuid, gaps, k, gaps[k], p.data, chunkBytes);
    if !alive {
      return;
    }
    alive := FlushTail(disk, job, uuid, gaps, k, gaps[k] + p.data);
    if !alive {
      return;
    }
    var crc := job.h.crc(p.data);
    var readback := CrcOfRange(job.h, disk.files.partial.value, offset, |p.data|, chunkBytes);
    FreshExtentReads(job, disk.files, disk.lo, disk.hi, uuid, gaps, k);
    assert readback == Success(crc);  // EXTENT_READBACK_MISMATCH cannot happen
    item := Completed(p.id, offset, |p.data|, crc);
  }

  /** One extent: padding, data, fsync, readback, ledger. */
  method WriteExtent(disk: Disk, job: Job, uuid: Uuid, ghost gaps: seq<seq<byte>>, k: nat, ghost tail: seq<byte>,
                     completed: seq<Completed>, chunkBytes: nat)
      returns (alive: bool, item: Completed)
    requires disk.Valid() && Extending(job, disk.files, disk.lo, disk.hi, uuid, gaps, k, tail)
    requires k < |job.plans| && GapPending(gaps[k], tail) && chunkBytes > 0
    requires completed == CompletedUpTo(job, k)
    modifies disk
    ensures disk.Valid() && (disk.power.None? <==> old(disk.power).None?)
    ensures SameApartFromProgress(old(disk.files), disk.files)
    ensures alive ==>
      && item == CompletedOf(job, k) && disk.Settled()
      && Extending(job, disk.files, disk.lo, disk.hi, uuid, gaps, k + 1, [])
    ensures !alive ==> disk.power.Some? && Resumable(job, disk.files, disk.lo, disk.hi, uuid, gaps)
  {
    alive, item := PutExtent(disk, job, uuid, gaps, k, tail, chunkBytes);
    if alive {
      alive := AdvanceLedger(disk, job, uuid, gaps, k,
                             Ledger(SourceSha(job), CONVERTER_VERSION, job.fingerprint, uuid, completed + [item]));
    }
  }
}
