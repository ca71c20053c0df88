/** The end of a run: directories, superblock, digest, publication. */
module ShardFinish {
  import opened Wrappers
  import opened Bytes
  import opened Format
  import opened Reader
  import opened ShardLayout
  import opened ShardReadback
  import opened Disk
  import opened Shard
  import opened ShardRun

  /** One section at the next aligned offset. */
  method PlaceSection(disk: Disk, job: Job, uuid: Uuid, ghost gaps: seq<seq<byte>>, ghost n: nat, ghost tail: seq<byte>,
                      data: seq<byte>)
      returns (alive: bool, offset: nat, ghost tail': seq<byte>)
    requires disk.Valid() && Extending(job, disk.files, disk.lo, disk.hi, uuid, gaps, n, tail) && gaps[n] <= tail
    modifies disk
    ensures disk.Valid() && (disk.power.None? <==> old(disk.power).None?)
    ensures SameApartFromProgress(old(disk.files), disk.files)
    ensures alive ==>
      && Extending(job, disk.files, disk.lo, disk.hi, uuid, gaps, n, tail') && gaps[n] <= tail'
      && n <= |job.plans| && GapsFit(job.plans, gaps)
      && Written(job.plans, gaps, n) + tail' == Place(Written(job.plans, gaps, n) + tail, data)
      && offset == AlignUp(|old(disk.files.partial.value)|) && |disk.files.partial.value| == offset + |data|
    ensures !alive ==> disk.power.Some? && Resumable(job, disk.files, disk.lo, disk.hi, uuid, gaps)
  {
    LengthOfExtending(job, disk.files, disk.lo, disk.hi, uuid, gaps, n, tail);
    var size := |disk.files.partial.value|;
    offset := AlignUp(size);
    alive, tail' := true, tail;
    if offset > size {
      alive := AppendTail(disk, job, uuid, gaps, n, tail, Zeros(offset - size));
      if !alive {
        return;
      }
      tail' := tail + Zeros(offset - size);
    }
    alive := AppendTail(disk, job, uuid, gaps, n, tail', data);
    PlacedTail(Written(job.plans, gaps, n), tail, tail', offset - size, data);
    tail' := tail' + data;
    if alive {
      LengthOfExtending(job, disk.files, disk.lo, disk.hi, uuid, gaps, n, tail');
    }
  }

  lemma PlacedTail(w: seq<byte>, tail: seq<byte>, padded: seq<byte>, pad: nat, data: seq<byte>)
    requires AlignUp(|w| + |tail|) == |w| + |tail| + pad
    requires padded == if pad > 0 then tail + Zeros(pad) else tail
    ensures w + (padded + data) == Place(w + tail, data)
  {
    assert w + (tail + Zeros(pad) + data) == (w + tail) + Zeros(pad) + data;
  }

  /** The tensor directory: it is aligned like an extent. */
  method PlaceTensors(disk: Disk, job: Job, uuid: Uuid, ghost gaps: seq<seq<byte>>, ghost n: nat, ghost tail: seq<byte>,
                      data: seq<byte>)
      returns (alive: bool, offset: nat, ghost tail': seq<byte>)
    requires disk.Valid() && Extending(job, disk.files, disk.lo, disk.hi, uuid, gaps, n, tail)
    requires GapPending(gaps[n], tail)
    modifies disk
    ensures disk.Valid() && (disk.power.None? <==> old(disk.power).None?)
    ensures SameApartFromProgress(old(disk.files), disk.files)
    ensures alive ==>
      && n <= |job.plans| && GapsFit(job.plans, gaps)
      && tail' == gaps[n] + data && offset == OffsetOf(job.plans, n)
      && Extending(job, disk.files, disk.lo, disk.hi, uuid, gaps, n, tail')
      && |disk.files.partial.value| == offset + |data|
    ensures !alive ==> disk.power.Some? && Resumable(job, disk.files, disk.lo, disk.hi, uuid, gaps)
  {
    offset, tail' := 0, tail;
    alive := Align(disk, job, uuid, gaps, n, tail);
    if !alive { return; }
    LengthOfExtending(job, disk.files, disk.lo, disk.hi, uuid, gaps, n, gaps[n]);
    offset := |disk.files.partial.value|;
    alive := AppendTail(disk, job, uuid, gaps, n, gaps[n], data);
    tail' := gaps[n] + data;
    if alive {
      LengthOfExtending(job, disk.files, disk.lo, disk.hi, uuid, gaps, n, tail');
    }
  }

  /** Two sections behind `w + tail`, at these offsets. */
  ghost predicate PairPlaced(w: seq<byte>, tail: seq<byte>, d1: seq<byte>, d2: seq<byte>, body: seq<byte>,
                             at1: nat, at2: nat) {
    && w + body == Place(Place(w + tail, d1), d2)
    && at1 == AlignUp(|w| + |tail|) && at2 == AlignUp(at1 + |d1|)
  }

  /** Two sections, one after the other. */
  method PlacePair(disk: Disk, job: Job, uuid: Uuid, ghost gaps: seq<seq<byte>>, ghost n: nat, ghost tail: seq<byte>,
                   d1: seq<byte>, d2: seq<byte>)
      returns (alive: bool, at1: nat, at2: nat, ghost body: seq<byte>)
    requires disk.Valid() && Extending(job, disk.files, disk.lo, disk.hi, uuid, gaps, n, tail) && gaps[n] <= tail
    modifies disk
    ensures disk.Valid() && (disk.power.None? <==> old(disk.power).None?)
    ensures SameApartFromProgress(old(disk.files), disk.files)
    ensures alive ==>
      && Extending(job, disk.files, disk.lo, disk.hi, uuid, gaps, n, body) && gaps[n] <= body
      && n <= |job.plans| && GapsFit(job.plans, gaps)
      && PairPlaced(Written(job.plans, gaps, n), tail, d1, d2, body, at1, at2)
    ensures !alive ==> disk.power.Some? && Resumable(job, disk.files, disk.lo, disk.hi, uuid, gaps)
  {
    LengthOfExtending(job, disk.files, disk.lo, disk.hi, uuid, gaps, n, tail);
    at2 := 0;
    alive, at1, body := PlaceSection(disk, job, uuid, gaps, n, tail, d1);
    if alive {
      alive, at2, body := PlaceSection(disk, job, uuid, gaps, n, body, d2);
    }
  }

  /** The superblock of the sections as they were placed. */
  function PlacedBlock(job: Job, uuid: Uuid, s: Sections, t: nat, l: nat, e: nat, c: nat, fileLength: nat): Superblock {
    Superblock(SourceSha(job), uuid, 1, 0, 0, t, |s.tensors|, l, |s.layers|, e, |s.experts|, c, |s.config|,
               SUPERBLOCK_BYTES, fileLength, job.h.sha(DirectoryBytes(s)), Zeros(32))
  }

  lemma ContentsByParts(job: Job, gaps: seq<seq<byte>>, n: nat, s: Sections, tensors: seq<byte>, middle: seq<byte>,
                        body: seq<byte>, l: nat, e: nat)
    requires n == |job.plans| && GapsFit(job.plans, gaps) && tensors == gaps[n] + s.tensors
    requires var w := Written(job.plans, gaps, n);
      PairPlaced(w, tensors, s.layers, s.experts, middle, l, e) && w + body == Place(w + middle, s.config)
    ensures Written(job.plans, gaps, n) + body == Contents(job, gaps, s)
  {
    var w := Written(job.plans, gaps, n);
    assert w + tensors == w + gaps[n] + s.tensors;
  }

  lemma BlockIsPlaced(job: Job, uuid: Uuid, s: Sections, w: seq<byte>, tensors: seq<byte>, middle: seq<byte>,
                      t: nat, l: nat, e: nat, c: nat)
    requires |s.config| == MODEL_CONFIG_BYTES && t == OffsetOf(job.plans, |job.plans|)
    requires |w| + |tensors| == t + |s.tensors|
    requires PairPlaced(w, tensors, s.layers, s.experts, middle, l, e) && c == AlignUp(|w| + |middle|)
    ensures PlacedBlock(job, uuid, s, t, l, e, c, c + |s.config|) == BlockOf(job, uuid, s)
  {
    assert |w| + |middle| == |w + middle| == e + |s.experts|;
  }

  lemma SectionsPlaced(job: Job, uuid: Uuid, gaps: seq<seq<byte>>, n: nat, s: Sections, tensors: seq<byte>,
                       middle: seq<byte>, body: seq<byte>, t: nat, l: nat, e: nat, c: nat, before: nat, length: nat)
    requires |s.config| == MODEL_CONFIG_BYTES && n == |job.plans| && GapsFit(job.plans, gaps)
    requires t == OffsetOf(job.plans, n) && tensors == gaps[n] + s.tensors
    requires PairPlaced(Written(job.plans, gaps, n), tensors, s.layers, s.experts, middle, l, e)
    requires Written(job.plans, gaps, n) + body == Place(Written(job.plans, gaps, n) + middle, s.config)
    requires before == EndOf(job.plans, n) + |middle| && c == AlignUp(before) && length == c + |s.config|
    ensures Written(job.plans, gaps, n) + body == Contents(job, gaps, s)
    ensures PlacedBlock(job, uuid, s, t, l, e, c, length) == BlockOf(job, uuid, s)
  {
    ContentsByParts(job, gaps, n, s, tensors, middle, body, l, e);
    BlockIsPlaced(job, uuid, s, Written(job.plans, gaps, n), tensors, middle, t, l, e, c);
  }

  /** The three directories. */
  method PlaceDirectories(disk: Disk, job: Job, uuid: Uuid, ghost gaps: seq<seq<byte>>, ghost n: nat,
                          ghost tail: seq<byte>, s: Sections)
      returns (alive: bool, t: nat, l: nat, e: nat, ghost tensors: seq<byte>, ghost middle: seq<byte>)
    requires disk.Valid() && Extending(job, disk.files, disk.lo, disk.hi, uuid, gaps, n, tail)
    requires GapPending(gaps[n], tail)
    modifies disk
    ensures disk.Valid() && (disk.power.None? <==> old(disk.power).None?)
    ensures SameApartFromProgress(old(disk.files), disk.files)
    ensures alive ==>
      && Extending(job, disk.files, disk.lo, disk.hi, uuid, gaps, n, middle)
      && n <= |job.plans| && GapsFit(job.plans, gaps) && gaps[n] <= middle
      && t == OffsetOf(job.plans, n) && tensors == gaps[n] + s.tensors
      && PairPlaced(Written(job.plans, gaps, n), tensors, s.layers, s.experts, middle, l, e)
    ensures !alive ==> disk.power.Some? && Resumable(job, disk.files, disk.lo, disk.hi, uuid, gaps)
  {
    l, e, middle := 0, 0, [];
    alive, t, tensors := PlaceTensors(disk, job, uuid, gaps, n, tail, s.tensors);
    if alive {
      alive, l, e, middle := PlacePair(disk, job, uuid, gaps, n, tensors, s.layers, s.experts);
    }
  }

  /** All four sections behind the last extent. */
  method PlaceSections(disk: Disk, job: Job, uuid: Uuid, ghost gaps: seq<seq<byte>>, ghost n: nat, ghost tail: seq<byte>,
                       s: Sections)
      returns (alive: bool, block: Superblock, ghost body: seq<byte>)
    requires n == |job.plans| && |s.config| == MODEL_CONFIG_BYTES
    requires disk.Valid() && Extending(job, disk.files, disk.lo, disk.hi, uuid, gaps, n, tail)
    requires GapPending(gaps[n], tail)
    modifies disk
    ensures disk.Valid() && (disk.power.None? <==> old(disk.power).None?)
    ensures SameApartFromProgress(old(disk.files), disk.files)
    ensures alive ==>
      && Extending(job, disk.files, disk.lo, disk.hi, uuid, gaps, n, body)
      && GapsFit(job.plans, gaps) && Written(job.plans, gaps, n) + body == Contents(job, gaps, s)
      && block == BlockOf(job, uuid, s) && block.fileLength == |disk.files.partial.value|
    ensures !alive ==> disk.power.Some? && Resumable(job, disk.files, disk.lo, disk.hi, uuid, gaps)
  {
    ghost var tensors, middle;
    var t, l, e, c: nat;
    block := PlacedBlock(job, uuid, s, 0, 0, 0, 0, 0);
    body := [];
    alive, t, l, e, tensors, middle := PlaceDirectories(disk, job, uuid, gaps, n, tail, s);
    if alive {
      LengthOfExtending(job, disk.files, disk.lo, disk.hi, uuid, gaps, n, middle);
      ghost var before := |disk.files.partial.value|;
      alive, c, body := PlaceSection(disk, job, uuid, gaps, n, middle, s.config);
      if alive {
        var length := |disk.files.partial.value|;
        SectionsPlaced(job, uuid, gaps, n, s, tensors, middle, body, t, l, e, c, before, length);
        block := PlacedBlock(job, uuid, s, t, l, e, c, length);
      }
    }
  }

  // ----- Sealing -----

  /** The partial file is a superblock of any kind followed by the finished contents. */
  ghost predicate Bodied(job: Job, files: Files, gaps: seq<seq<byte>>, s: Sections) {
    && GapsFit(job.plans, gaps) && files.partial.Some?
    && |files.partial.value| >= SUPERBLOCK_BYTES
    && files.partial.value[SUPERBLOCK_BYTES..] == Contents(job, gaps, s)[SUPERBLOCK_BYTES..]
  }

  lemma BodyIsContents(job: Job, files: Files, lo: nat, hi: nat, uuid: Uuid, gaps: seq<seq<byte>>, n: nat,
                       body: seq<byte>, s: Sections)
    requires n == |job.plans| && Extending(job, files, lo, hi, uuid, gaps, n, body)
    requires Written(job.plans, gaps, n) + body == Contents(job, gaps, s)
    ensures Bodied(job, files, gaps, s)
  {
    var w := Written(job.plans, gaps, n);
    assert (w + body)[SUPERBLOCK_BYTES..] == w[SUPERBLOCK_BYTES..] + body;
  }

  lemma HeadExtends(job: Job, before: Files, lo: nat, hi: nat, uuid: Uuid, gaps: seq<seq<byte>>, n: nat,
                    body: seq<byte>, block: seq<byte>, after: Files, lo': nat)
    requires Extending(job, before, lo, hi, uuid, gaps, n, body)
    requires |block| == SUPERBLOCK_BYTES && lo' <= SUPERBLOCK_BYTES
    requires after == before.(partial := Some(block + before.partial.value[SUPERBLOCK_BYTES..]))
    ensures Extending(job, after, lo', hi, uuid, gaps, n, body)
    ensures after.partial.value[SUPERBLOCK_BYTES..] == before.partial.value[SUPERBLOCK_BYTES..]
  {
    assert after.partial.value[SUPERBLOCK_BYTES..] == before.partial.value[SUPERBLOCK_BYTES..];
  }

  lemma WindowMoves(job: Job, files: Files, lo: nat, hi: nat, uuid: Uuid, gaps: seq<seq<byte>>, n: nat,
                    body: seq<byte>, lo': nat)
    requires Extending(job, files, lo, hi, uuid, gaps, n, body) && lo' <= SUPERBLOCK_BYTES
    ensures Extending(job, files, lo', hi, uuid, gaps, n, body)
  {
  }

  /** A superblock over the first page, flushed. */
  method PutHead(disk: Disk, job: Job, uuid: Uuid, ghost gaps: seq<seq<byte>>, ghost n: nat, ghost body: seq<byte>,
                 block: seq<byte>)
      returns (alive: bool)
    requires disk.Valid() && Extending(job, disk.files, disk.lo, disk.hi, uuid, gaps, n, body)
    requires |block| == SUPERBLOCK_BYTES
    modifies disk
    ensures disk.Valid() && (disk.power.None? <==> old(disk.power).None?)
    ensures SameApartFromProgress(old(disk.files), disk.files)
    ensures alive ==>
      && Extending(job, disk.files, disk.lo, disk.hi, uuid, gaps, n, body) && disk.Settled()
      && disk.files.partial.value == block + old(disk.files.partial.value)[SUPERBLOCK_BYTES..]
    ensures !alive ==> disk.power.Some? && Resumable(job, disk.files, disk.lo, disk.hi, uuid, gaps)
  {
    ghost var before := disk.files;
    ExtendingIsResumable(job, before, disk.lo, disk.hi, uuid, gaps, n, body);
    WindowMoves(job, before, disk.lo, disk.hi, uuid, gaps, n, body, SUPERBLOCK_BYTES);
    ExtendingIsResumable(job, before, SUPERBLOCK_BYTES, disk.hi, uuid, gaps, n, body);
    alive := disk.WriteHead(block);
    if !alive {
      return;
    }
    HeadExtends(job, before, disk.lo, disk.hi, uuid, gaps, n, body, block, disk.files, disk.lo);
    alive := FlushTail(disk, job, uuid, gaps, n, body);
  }

  /** How far sealing got: done, machine down, or a value that does not fit its field. */
  datatype Step = Went | Halted | Rejected(error: string)

  lemma SealedBytes(job: Job, uuid: Uuid, gaps: seq<seq<byte>>, s: Sections, first: seq<byte>)
    requires GapsFit(job.plans, gaps) && |s.config| == MODEL_CONFIG_BYTES
    requires SuperblockPackable(BlockOf(job, uuid, s))
    requires first == EncodeSuperblock(job.h, BlockOf(job, uuid, s)).value + Contents(job, gaps, s)[SUPERBLOCK_BYTES..]
    ensures var block := BlockOf(job, uuid, s).(rootSha := RootSha(job.h, first));
      && EncodeSuperblock(job.h, block).Success?
      && Sealed(job, uuid, gaps, s) ==
         Success(EncodeSuperblock(job.h, block).value + Contents(job, gaps, s)[SUPERBLOCK_BYTES..])
  {
    RootDigestExcludesItself(job.h, BlockOf(job, uuid, s), RootSha(job.h, first), []);
  }

  /** Superblock without, then with the digest of the whole file. */
  method Seal(disk: Disk, job: Job, uuid: Uuid, ghost gaps: seq<seq<byte>>, ghost n: nat, ghost body: seq<byte>,
              ghost s: Sections, block: Superblock, rootChunk: nat)
      returns (step: Step)
    requires n == |job.plans| && |s.config| == MODEL_CONFIG_BYTES && rootChunk > 0
    requires disk.Valid() && Extending(job, disk.files, disk.lo, disk.hi, uuid, gaps, n, body)
    requires Bodied(job, disk.files, gaps, s)
    requires block == BlockOf(job, uuid, s) && block.fileLength == |disk.files.partial.value|
    modifies disk
    ensures disk.Valid() && (disk.power.None? <==> old(disk.power).None?)
    ensures SameApartFromProgress(old(disk.files), disk.files)
    ensures step == Went ==> disk.Settled()
    ensures step != Halted ==> Extending(job, disk.files, disk.lo, disk.hi, uuid, gaps, n, body)
    ensures step == Went ==> GapsFit(job.plans, gaps) && Sealed(job, uuid, gaps, s) == Success(disk.files.partial.value)
    ensures step.Rejected? ==> GapsFit(job.plans, gaps) && Sealed(job, uuid, gaps, s) == Failure(step.error)
    ensures step == Halted ==> disk.power.Some? && Resumable(job, disk.files, disk.lo, disk.hi, uuid, gaps)
  {
    var unsealed := EncodeSuperblock(job.h, block);
    if unsealed.Failure? {
      return Rejected(unsealed.error);
    }
    var alive := PutHead(disk, job, uuid, gaps, n, body, unsealed.value);
    if !alive {
      return Halted;
    }
    ghost var first := disk.files.partial.value;
    assert |first| == block.fileLength && first[..block.fileLength] == first;
    var root := ComputeRootSha(job.h, disk.files.partial.value, block.fileLength, rootChunk);
    SealedBytes(job, uuid, gaps, s, first);
    var sealedBlock := EncodeSuperblock(job.h, block.(rootSha := root.value));
    alive := PutHead(disk, job, uuid, gaps, n, body, sealedBlock.value);
    if !alive {
      return Halted;
    }
    assert first[SUPERBLOCK_BYTES..] == Contents(job, gaps, s)[SUPERBLOCK_BYTES..];
    return Went;
  }

  /** Sidecar and ledger of a published output. */
  method Tidy(disk: Disk, job: Job) returns (alive: bool)
    requires disk.Valid()
    modifies disk
    ensures disk.Valid() && (disk.power.None? <==> old(disk.power).None?)
    ensures disk.lo == old(disk.lo) && disk.hi == old(disk.hi)
    ensures alive ==> disk.files == old(disk.files).(sidecar := Some(SidecarOf(job)), ledger := None)
    ensures !alive ==> disk.power.Some? && disk.files == old(disk.files).(sidecar := disk.files.sidecar)
  {
    alive := disk.WriteSidecar(SidecarOf(job));
    if alive {
      alive := disk.RemoveLedger();
    }
  }

  /** Renames the sealed partial file to the output and tidies up. */
  method PublishOutput(disk: Disk, job: Job, uuid: Uuid, ghost gaps: seq<seq<byte>>) returns (alive: bool)
    requires disk.Valid() && disk.Settled()
    requires Resumable(job, disk.files, disk.lo, disk.hi, uuid, gaps) && GapsFit(job.plans, gaps)
    requires Assemble(job, uuid, gaps) == Success(disk.files.partial.value)
    modifies disk
    ensures disk.Valid() && (disk.power.None? <==> old(disk.power).None?)
    ensures alive ==> Done(job, disk.files, uuid, gaps)
    ensures !alive ==> disk.power.Some? && Underway(job, disk.files, disk.lo, disk.hi, uuid, gaps)
    ensures disk.files.source == old(disk.files.source) && disk.files.marker == old(disk.files.marker)
  {
    alive := disk.Publish();
    if alive {
      alive := Tidy(disk, job);
    }
  }

  /** Everything after the last extent. */
  method FinishFile(disk: Disk, job: Job, uuid: Uuid, ghost gaps: seq<seq<byte>>, ghost n: nat, ghost tail: seq<byte>,
                    records: seq<TensorRecord>, rootChunk: nat)
      returns (step: Step)
    requires n == |job.plans| && records == Records(job, n) && rootChunk > 0
    requires disk.Valid() && Extending(job, disk.files, disk.lo, disk.hi, uuid, gaps, n, tail)
    requires GapPending(gaps[n], tail)
    modifies disk
    ensures disk.Valid() && (disk.power.None? <==> old(disk.power).None?)
    ensures SameApartFromProgress(old(disk.files), disk.files) && GapsFit(job.plans, gaps)
    ensures Resumable(job, disk.files, disk.lo, disk.hi, uuid, gaps)
    ensures step == Went ==> disk.Settled() && Assemble(job, uuid, gaps) == Success(disk.files.partial.value)
    ensures step.Rejected? ==> Assemble(job, uuid, gaps) == Failure(step.error)
    ensures step == Halted ==> disk.power.Some?
  {
    ExtendingIsResumable(job, disk.files, disk.lo, disk.hi, uuid, gaps, n, tail);
    var sections := SectionsOf(job, records);
    if sections.Failure? {
      return Rejected(sections.error);
    }
    var s := sections.value;
    var alive, block, body := PlaceSections(disk, job, uuid, gaps, n, tail, s);
    if !alive {
      return Halted;
    }
    BodyIsContents(job, disk.files, disk.lo, disk.hi, uuid, gaps, n, body, s);
    step := Seal(disk, job, uuid, gaps, n, body, s, block, rootChunk);
    if step != Halted {
      ExtendingIsResumable(job, disk.files, disk.lo, disk.hi, uuid, gaps, n, body);
    }
  }
}
