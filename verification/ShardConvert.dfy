/** `convert_glm5x_shard`: what one call does to the disk, whatever state it finds. */
module ShardConvert {
  import opened Wrappers
  import opened Bytes
  import opened Format
  import opened Reader
  import opened ShardLayout
  import opened ShardReadback
  import opened Disk
  import opened Shard
  import opened ShardChecks
  import opened ShardRun
  import opened ShardExtents
  import opened ShardFinish

  /** The outcome of a call that changes nothing. */
  function Early(job: Job, files: Files, chunkBytes: int, dryRun: bool, stopAfter: Option<int>): Option<Outcome> {
    if chunkBytes <= 0 then Some(Refused("INVALID_CHUNK_SIZE"))
    else if stopAfter.Some? && stopAfter.value <= 0 then Some(Refused("INVALID_STOP_LIMIT"))
    else if !files.source then Some(Refused("SOURCE_SHARD_NOT_FOUND"))
    else if dryRun then Some(Planned)
    else match Refusal(job, files)
      case Some(error) => Some(Refused(error))
      case None => None
  }

  /** The ledger names a published output: the run only has to check it and tidy up. */
  predicate Publishing(files: Files) {
    files.ledger.Some? && files.partial.None? && files.output.Some?
  }

  /** The checks on a published output. */
  predicate FinalAccepted(job: Job, uuid: seq<byte>, output: seq<byte>) {
    var seen := Open(job.h, output, true, true);
    && seen.Some?
    && seen.value.superblock.sourceSha == SourceSha(job)
    && seen.value.superblock.uuid == uuid
    && seen.value.config == job.config
    && |seen.value.tensors| == |job.plans|
  }

  /** A published output of this converter passes them. */
  lemma PublishedIsAccepted(job: Job, files: Files, uuid: Uuid, gaps: seq<seq<byte>>)
    requires Published(job, files, uuid, gaps) && PositivePlans(job.plans)
    ensures FinalAccepted(job, uuid, files.output.value)
  {
    FinishedFileOpens(job, uuid, gaps);
  }

  /** The uuid of the output of a run. */
  function StartUuid(files: Files, freshUuid: Uuid): Uuid {
    if files.ledger.Some? && files.ledger.value.Parsed? && |files.ledger.value.ledger.uuid| == 16
    then files.ledger.value.ledger.uuid else freshUuid
  }

  function LedgerCount(files: Files): nat {
    if files.ledger.Some? && files.ledger.value.Parsed? then |files.ledger.value.ledger.completed| else 0
  }

  // ----- Starting -----

  /** A blank superblock page and an empty ledger. */
  method StartFresh(disk: Disk, job: Job, uuid: Uuid) returns (alive: bool)
    requires disk.Valid() && Untouched(disk.files)
    modifies disk
    ensures disk.Valid() && (disk.power.None? <==> old(disk.power).None?)
    ensures SameApartFromProgress(old(disk.files), disk.files)
    ensures alive ==> Extending(job, disk.files, disk.lo, disk.hi, uuid, ZeroGaps(job.plans), 0, [])
    ensures !alive ==> disk.power.Some? && Untouched(disk.files)
  {
    alive := disk.CreatePartial();
    if alive {
      alive := disk.Append(Zeros(SUPERBLOCK_BYTES));
      if alive {
        assert [] + Zeros(SUPERBLOCK_BYTES) == Zeros(SUPERBLOCK_BYTES);
        alive := disk.Fsync();
        if alive {
          alive := disk.ReplaceLedger(Ledger(SourceSha(job), CONVERTER_VERSION, job.fingerprint, uuid, []));
          if alive {
            FreshExtends(job, disk.files, disk.hi, uuid);
          }
        }
      }
    }
  }

  /** Cuts the partial file behind the last ledgered extent. */
  method StartResumed(disk: Disk, job: Job, uuid: Uuid, ghost gaps: seq<seq<byte>>, ghost k: nat, end: nat)
      returns (alive: bool)
    requires disk.Valid() && disk.Settled() && Resumable(job, disk.files, disk.lo, disk.hi, uuid, gaps)
    requires k == LedgerCount(disk.files) && k <= |job.plans| && end == OffsetOf(job.plans, k)
    modifies disk
    ensures disk.Valid() && (disk.power.None? <==> old(disk.power).None?)
    ensures SameApartFromProgress(old(disk.files), disk.files) && GapsFit(job.plans, gaps)
    ensures alive ==> Extending(job, disk.files, disk.lo, disk.hi, uuid, gaps, k, gaps[k])
    ensures !alive ==> disk.power.Some? && Resumable(job, disk.files, disk.lo, disk.hi, uuid, gaps)
  {
    ghost var before, hi := disk.files, disk.hi;
    CutExtends(job, before, disk.lo, hi, uuid, gaps,
               before.(partial := Some(Resized(before.partial.value, end))), if end < hi then end else hi);
    OffsetOrder(job.plans, k);
    alive := disk.Truncate(end);
  }

  lemma OffsetOrder(plans: seq<Plan>, k: nat)
    requires k <= |plans|
    ensures SUPERBLOCK_BYTES <= EndOf(plans, k) <= OffsetOf(plans, k)
  {
  }

  // ----- The whole call -----

  function IdsOf(completed: seq<Completed>): seq<nat> {
    seq(|completed|, i requires 0 <= i < |completed| => completed[i].id)
  }

  /** What a run that got past the checks has done, by how it ended. */
  ghost predicate RanTo(job: Job, outcome: Outcome, files: Files, lo: nat, hi: nat, uuid: Uuid, gaps: seq<seq<byte>>) {
    match outcome
    case Finished(_) => Done(job, files, uuid, gaps)
    case Stopped(_) => Resumable(job, files, lo, hi, uuid, gaps)
    case Crashed => Underway(job, files, lo, hi, uuid, gaps)
    case Refused(error) =>
      && Resumable(job, files, lo, hi, uuid, gaps) && GapsFit(job.plans, gaps)
      && Assemble(job, uuid, gaps) == Failure(error)
    case Planned => false
  }

  predicate SameSourceAndMarker(before: Files, after: Files) {
    after.source == before.source && after.marker == before.marker
  }

  /** Writes what is missing and finishes the file. */
  method WriteRest(disk: Disk, job: Job, uuid: Uuid, ghost gaps: seq<seq<byte>>, ghost k: nat, ghost tail: seq<byte>,
                   reused: seq<Completed>, chunkBytes: nat, stopAfter: Option<nat>, rootChunk: nat)
      returns (outcome: Outcome)
    requires DistinctPlans(job.plans) && chunkBytes > 0 && rootChunk > 0 && (stopAfter.Some? ==> stopAfter.value > 0)
    requires disk.Valid() && Extending(job, disk.files, disk.lo, disk.hi, uuid, gaps, k, tail)
    requires GapPending(gaps[k], tail) && reused == CompletedUpTo(job, k)
    modifies disk
    ensures disk.Valid() && (disk.power.None? <==> old(disk.power).None?)
    ensures outcome == Crashed ==> disk.power.Some?
    ensures RanTo(job, outcome, disk.files, disk.lo, disk.hi, uuid, gaps)
    ensures SameSourceAndMarker(old(disk.files), disk.files)
    ensures outcome.Stopped? ==> stopAfter.Some? && LedgerCount(disk.files) == k + stopAfter.value && disk.Settled()
    ensures outcome.Finished? ==> outcome.reused == IdsOf(reused)
                                  && (stopAfter.Some? ==> k + stopAfter.value > |job.plans|)
  {
    var progress, records, done, rest := WriteExtents(disk, job, uuid, gaps, k, tail, reused, chunkBytes, stopAfter);
    if progress == Lost {
      outcome := Crashed;
    } else {
      ExtendingIsResumable(job, disk.files, disk.lo, disk.hi, uuid, gaps, done, rest);
      if progress == Limit {
        outcome := Stopped(IdsOf(reused));
      } else {
        outcome := Conclude(disk, job, uuid, gaps, done, rest, records, IdsOf(reused), rootChunk);
      }
    }
  }

  method Conclude(disk: Disk, job: Job, uuid: Uuid, ghost gaps: seq<seq<byte>>, ghost n: nat, ghost tail: seq<byte>,
                  records: seq<TensorRecord>, reused: seq<nat>, rootChunk: nat)
      returns (outcome: Outcome)
    requires n == |job.plans| && records == Records(job, n) && rootChunk > 0
    requires disk.Valid() && Extending(job, disk.files, disk.lo, disk.hi, uuid, gaps, n, tail)
    requires GapPending(gaps[n], tail)
    modifies disk
    ensures disk.Valid() && (disk.power.None? <==> old(disk.power).None?)
    ensures outcome == Crashed ==> disk.power.Some?
    ensures RanTo(job, outcome, disk.files, disk.lo, disk.hi, uuid, gaps)
    ensures SameSourceAndMarker(old(disk.files), disk.files)
    ensures !outcome.Stopped? && (outcome.Finished? ==> outcome.reused == reused)
  {
    var step := FinishFile(disk, job, uuid, gaps, n, tail, records, rootChunk);
    match step
    case Halted =>
      outcome := Crashed;
    case Rejected(error) =>
      outcome := Refused(error);
    case Went =>
      var alive := PublishOutput(disk, job, uuid, gaps);
      outcome := if alive then Finished(reused) else Crashed;
  }

  method CheckPublished(disk: Disk, job: Job, uuid: Uuid, rootChunk: nat) returns (refusal: Option<string>)
    requires disk.files.output.Some? && rootChunk > 0
    ensures refusal.None? <==> FinalAccepted(job, uuid, disk.files.output.value)
  {
    var seen := OpenFile(job.h, disk.files.output.value, true, true, rootChunk);
    if seen.Failure? {
      return Some(seen.error);
    }
    var finalized := seen.value;
    if || finalized.superblock.sourceSha != SourceSha(job)
       || finalized.superblock.uuid != uuid
       || finalized.config != job.config
       || |finalized.tensors| != |job.plans|
    {
      return Some("FINAL_ARTIFACT_MISMATCH");
    }
    return None;
  }

  /** What a call that finds a published output does. */
  ghost predicate TidiedUp(job: Job, before: Files, outcome: Outcome, after: Files) {
    match outcome
    case Finished(reused) =>
      && before.ledger.Some? && before.ledger.value.Parsed?
      && reused == IdsOf(before.ledger.value.ledger.completed)
      && after == before.(sidecar := Some(SidecarOf(job)), ledger := None)
    case Crashed => after == before.(sidecar := after.sidecar)
    case _ => false
  }

  /** The plan entries the ledger lists already. */
  function ReusedIds(files: Files): seq<nat> {
    if files.ledger.Some? && files.ledger.value.Parsed? then IdsOf(files.ledger.value.ledger.completed) else []
  }

  /** All that a call with something to do may have done. */
  ghost predicate Ran(job: Job, before: Files, outcome: Outcome, after: Files, lo: nat, hi: nat, uuid: Uuid,
                      gaps: seq<seq<byte>>, stopAfter: Option<int>) {
    && SameSourceAndMarker(before, after)
    && (|| RanTo(job, outcome, after, lo, hi, uuid, gaps)
        || (Untouched(before) && outcome == Crashed && Untouched(after)))
    && (outcome.Stopped? ==> stopAfter.Some? && LedgerCount(after) == LedgerCount(before) + stopAfter.value)
    && (outcome.Finished? ==> outcome.reused == ReusedIds(before))
  }

  /** What a call does when the output is published already. */
  ghost predicate RanPublished(job: Job, before: Files, outcome: Outcome, after: Files, uuid: Uuid) {
    && Publishing(before)
    && if FinalAccepted(job, uuid, before.output.value) then TidiedUp(job, before, outcome, after)
       else outcome.Refused? && after == before
  }

  /** A run that goes on from the ledger. */
  method RunResumed(disk: Disk, job: Job, chunkBytes: nat, stopAfter: Option<nat>, uuid: Uuid,
                    ghost gaps: seq<seq<byte>>, reused: seq<Completed>, ghost k: nat, end: nat, rootChunk: nat)
      returns (outcome: Outcome)
    requires disk.Valid() && disk.Settled() && DistinctPlans(job.plans)
    requires chunkBytes > 0 && rootChunk > 0 && (stopAfter.Some? ==> stopAfter.value > 0)
    requires Resumable(job, disk.files, disk.lo, disk.hi, uuid, gaps) && k == LedgerCount(disk.files)
    requires k <= |job.plans| && reused == CompletedUpTo(job, k) && end == OffsetOf(job.plans, k)
    requires IdsOf(reused) == ReusedIds(disk.files)
    modifies disk
    ensures disk.Valid() && (disk.power.None? <==> old(disk.power).None?)
    ensures outcome == Crashed ==> disk.power.Some?
    ensures outcome.Stopped? ==> disk.Settled()
    ensures Ran(job, old(disk.files), outcome, disk.files, disk.lo, disk.hi, uuid, gaps, stopAfter)
  {
    var alive := StartResumed(disk, job, uuid, gaps, k, end);
    if alive {
      outcome := WriteRest(disk, job, uuid, gaps, k, gaps[k], reused, chunkBytes, stopAfter, rootChunk);
    } else {
      outcome := Crashed;
    }
  }

  /** A run that starts from nothing. */
  method RunFresh(disk: Disk, job: Job, chunkBytes: nat, stopAfter: Option<nat>, uuid: Uuid,
                  ghost gaps: seq<seq<byte>>, rootChunk: nat)
      returns (outcome: Outcome)
    requires disk.Valid() && DistinctPlans(job.plans) && Untouched(disk.files) && gaps == ZeroGaps(job.plans)
    requires chunkBytes > 0 && rootChunk > 0 && (stopAfter.Some? ==> stopAfter.value > 0)
    modifies disk
    ensures disk.Valid() && (disk.power.None? <==> old(disk.power).None?)
    ensures outcome == Crashed ==> disk.power.Some?
    ensures outcome.Stopped? ==> disk.Settled()
    ensures Ran(job, old(disk.files), outcome, disk.files, disk.lo, disk.hi, uuid, gaps, stopAfter)
  {
    AllZeroOfZeros(job.plans);
    var alive := StartFresh(disk, job, uuid);
    if alive {
      outcome := WriteRest(disk, job, uuid, gaps, 0, [], [], chunkBytes, stopAfter, rootChunk);
    } else {
      outcome := Crashed;
    }
  }

  /** A run that finds the output published. */
  method RunPublished(disk: Disk, job: Job, uuid: Uuid, rootChunk: nat) returns (outcome: Outcome)
    requires disk.Valid() && Publishing(disk.files) && rootChunk > 0
    requires disk.files.ledger.value.Parsed? && disk.files.ledger.value.ledger.uuid == uuid
    modifies disk
    ensures disk.Valid() && (disk.power.None? <==> old(disk.power).None?)
    ensures outcome == Crashed ==> disk.power.Some?
    ensures !outcome.Stopped? && RanPublished(job, old(disk.files), outcome, disk.files, uuid)
  {
    var refusal := CheckPublished(disk, job, uuid, rootChunk);
    if refusal.Some? {
      return Refused(refusal.value);
    }
    var reused := IdsOf(disk.files.ledger.value.ledger.completed);
    var alive := Tidy(disk, job);
    return if alive then Finished(reused) else Crashed;
  }

  /** Passing the checks with a partial file there: the run can go on where the checks say to cut. */
  lemma ReadyToResume(job: Job, files: Files, hi: nat, uuid: Uuid, gaps: seq<seq<byte>>, k: nat)
    requires Refusal(job, files).None? && files.ledger.Some? && files.partial.Some?
    requires NoCollision(job, files) && hi == |files.partial.value|
    requires uuid == StartUuid(files, uuid) && gaps == StartGaps(job, files) && k == LedgerCount(files)
    ensures Resumable(job, files, 0, hi, uuid, gaps)
    ensures files.ledger.value.Parsed? && k <= |job.plans|
    ensures files.ledger.value.ledger.completed == CompletedUpTo(job, k)
    ensures LedgerEnd(files.ledger.value.ledger.completed) == EndOf(job.plans, k)
  {
    AcceptedIsResumable(job, files, hi);
    EndOfCompleted(job, k);
  }

  lemma EndOfCompleted(job: Job, k: nat)
    requires k <= |job.plans|
    ensures LedgerEnd(CompletedUpTo(job, k)) == EndOf(job.plans, k)
  {
    if k > 0 {
      var last := CompletedUpTo(job, k)[k - 1];
      assert last == CompletedOf(job, k - 1);
      assert last.offset + last.length == EndOf(job.plans, k);
    }
  }

  /** What a call does, by the state it finds. */
  ghost predicate Converted(job: Job, before: Files, lo0: nat, hi0: nat, early: Option<Outcome>, stopAfter: Option<int>,
                            freshUuid: Uuid, outcome: Outcome, after: Files, lo: nat, hi: nat) {
    if early.Some? then outcome == early.value && after == before && lo == lo0 && hi == hi0
    else if Publishing(before) then RanPublished(job, before, outcome, after, StartUuid(before, freshUuid))
    else Ran(job, before, outcome, after, lo, hi, StartUuid(before, freshUuid), StartGaps(job, before), stopAfter)
  }

  /**
   One call, from any disk whatsoever. The only thing taken for granted about the disk is that the
   checksums of a resumed partial file do not collide.
   */
  method ConvertShard(disk: Disk, job: Job, chunkBytes: int, dryRun: bool, stopAfter: Option<int>, freshUuid: Uuid,
                      rootChunk: nat)
      returns (outcome: Outcome)
    requires disk.Valid() && disk.Settled() && DistinctPlans(job.plans) && rootChunk > 0
    requires NoCollision(job, disk.files)
    modifies disk
    ensures disk.Valid() && (disk.power.None? <==> old(disk.power).None?)
    ensures outcome == Crashed ==> disk.power.Some?
    ensures outcome.Stopped? ==> disk.Settled()
    ensures Converted(job, old(disk.files), old(disk.lo), old(disk.hi),
                      Early(job, old(disk.files), chunkBytes, dryRun, stopAfter), stopAfter, freshUuid,
                      outcome, disk.files, disk.lo, disk.hi)
  {
    if chunkBytes <= 0 {
      return Refused("INVALID_CHUNK_SIZE");
    }
    if stopAfter.Some? && stopAfter.value <= 0 {
      return Refused("INVALID_STOP_LIMIT");
    }
    if !disk.files.source {
      return Refused("SOURCE_SHARD_NOT_FOUND");
    }
    if dryRun {
      return Planned;
    }
    var refusal, end := CheckDisk(job, disk.files, chunkBytes);
    if refusal.Some? {
      return Refused(refusal.value);
    }
    var limit: Option<nat> := if stopAfter.Some? then Some(stopAfter.value) else None;
    outcome := RunChecked(disk, job, chunkBytes, limit, freshUuid, end, rootChunk);
  }

  /** The call once the checks have passed. */
  method RunChecked(disk: Disk, job: Job, chunkBytes: nat, limit: Option<nat>, freshUuid: Uuid, end: nat, rootChunk: nat)
      returns (outcome: Outcome)
    requires disk.Valid() && disk.Settled() && DistinctPlans(job.plans) && rootChunk > 0
    requires NoCollision(job, disk.files)
    requires chunkBytes > 0 && (limit.Some? ==> limit.value > 0) && Refusal(job, disk.files).None?
    requires disk.files.ledger.Some? && disk.files.partial.Some? ==>
      end == AlignUp(LedgerEnd(disk.files.ledger.value.ledger.completed))
    modifies disk
    ensures disk.Valid() && (disk.power.None? <==> old(disk.power).None?)
    ensures outcome == Crashed ==> disk.power.Some?
    ensures outcome.Stopped? ==> disk.Settled()
    ensures Publishing(old(disk.files)) ==>
      RanPublished(job, old(disk.files), outcome, disk.files, StartUuid(old(disk.files), freshUuid))
    ensures !Publishing(old(disk.files)) ==>
      Ran(job, old(disk.files), outcome, disk.files, disk.lo, disk.hi, StartUuid(old(disk.files), freshUuid),
          StartGaps(job, old(disk.files)), limit)
  {
    var uuid := StartUuid(disk.files, freshUuid);
    ghost var gaps := StartGaps(job, disk.files);
    if disk.files.ledger.None? {
      outcome := RunFresh(disk, job, chunkBytes, limit, uuid, gaps, rootChunk);
    } else {
      AcceptedIsOwn(job, disk.files);
      if disk.files.partial.None? {
        outcome := RunPublished(disk, job, uuid, rootChunk);
      } else {
        var reused := disk.files.ledger.value.ledger.completed;
        ReadyToResume(job, disk.files, disk.hi, uuid, gaps, |reused|);
        outcome := RunResumed(disk, job, chunkBytes, limit, uuid, gaps, reused, |reused|, end, rootChunk);
      }
    }
  }
}
