/**
 Converting many shards one after the other, deleting each source once its artifact is proven. What has
 to hold at every moment, through any crash: a shard whose source is gone is not lost.
 */
module Multi {
  import opened Wrappers
  import opened Bytes
  import opened Format
  import opened Reader
  import opened ShardLayout
  import opened ShardReadback
  import opened Disk
  import opened Shard
  import opened ShardChecks
  import opened ShardRun
  import opened ShardConvert
  import opened ShardRuns

  const MARKER_FORMAT: string := "glm5x-source-deleted-v1"

  function MarkerOf(job: Job): Marker {
    Marker(MARKER_FORMAT, job.shardName, SourceSha(job))
  }

  /** The checks of `_artifact_report` on an output and its sidecar, against the digest of a source. */
  predicate ArtifactAccepted(h: Hashes, shardName: string, source: Digest, output: Option<seq<byte>>,
                             sidecar: Option<Sidecar>) {
    && output.Some? && sidecar.Some?
    && sidecar.value.format == SIDECAR_FORMAT && sidecar.value.shard == shardName && sidecar.value.source == source
    && var seen := Open(h, output.value, true, true);
       seen.Some? && sidecar.value.tensorCount == |seen.value.tensors| && seen.value.superblock.sourceSha == source
  }

  /**
   The shard is on record: a conversion that is not finished needs its source; once the source is gone,
   output, sidecar and marker are there, all carrying its digest, and no ledger.
   */
  ghost predicate Kept(job: Job, files: Files, lo: nat, hi: nat, uuid: Uuid, gaps: seq<seq<byte>>) {
    && Between(job, files, lo, hi, uuid, gaps)
    && (!files.source ==> Done(job, files, uuid, gaps) && files.marker == Some(MarkerOf(job)))
  }

  /** A finished shard passes the checks, with or without its source. */
  lemma DoneIsAccepted(job: Job, files: Files, uuid: Uuid, gaps: seq<seq<byte>>)
    requires Done(job, files, uuid, gaps) && PositivePlans(job.plans)
    ensures ArtifactAccepted(job.h, job.shardName, SourceSha(job), files.output, files.sidecar)
    ensures Open(job.h, files.output.value, true, true).Some?
  {
    FinishedFileOpens(job, uuid, gaps);
  }

  method ArtifactReport(h: Hashes, shardName: string, source: Digest, output: Option<seq<byte>>,
                        sidecar: Option<Sidecar>, rootChunk: nat)
      returns (refusal: Option<string>)
    requires rootChunk > 0
    ensures refusal.None? <==> ArtifactAccepted(h, shardName, source, output, sidecar)
  {
    if sidecar.None? || output.None? {
      return Some("INVALID_EXISTING_ARTIFACT");
    }
    var metadata := sidecar.value;
    var reader := OpenFile(h, output.value, true, true, rootChunk);
    if reader.Failure? {
      return Some(reader.error);
    }
    if || metadata.format != SIDECAR_FORMAT
       || metadata.shard != shardName
       || metadata.source != source
       || metadata.tensorCount != |reader.value.tensors|
       || reader.value.superblock.sourceSha != source
    {
      return Some("EXISTING_ARTIFACT_SOURCE_MISMATCH");
    }
    return None;
  }

  /** The report of a shard whose source was deleted: the digest comes from the marker. */
  method DeletedReport(job: Job, files: Files, rootChunk: nat) returns (refusal: Option<string>)
    requires rootChunk > 0 && files.marker.Some?
    ensures refusal.None? <==>
      && files.marker.value.format == MARKER_FORMAT && files.marker.value.shard == job.shardName
      && ArtifactAccepted(job.h, job.shardName, files.marker.value.source, files.output, files.sidecar)
  {
    if files.marker.value.format != MARKER_FORMAT || files.marker.value.shard != job.shardName {
      return Some("INVALID_SOURCE_DELETED_MARKER");
    }
    refusal := ArtifactReport(job.h, job.shardName, files.marker.value.source, files.output, files.sidecar, rootChunk);
  }

  /** How one shard ended. */
  datatype ShardOutcome =
    | Reported(skipped: bool, completed: bool, deleted: bool)
    | WentDown
    | Rejected(error: string)

  predicate SkipAccepted(job: Job, files: Files, deleteSource: bool) {
    if files.source then ArtifactAccepted(job.h, job.shardName, SourceSha(job), files.output, files.sidecar)
    else
      && deleteSource && files.marker.Some?
      && files.marker.value.format == MARKER_FORMAT && files.marker.value.shard == job.shardName
      && ArtifactAccepted(job.h, job.shardName, files.marker.value.source, files.output, files.sidecar)
  }

  /** A shard that is finished already is only checked again. */
  method SkipShard(job: Job, files: Files, deleteSource: bool, rootChunk: nat) returns (refusal: Option<string>)
    requires rootChunk > 0
    ensures refusal.None? <==> SkipAccepted(job, files, deleteSource)
  {
    if files.source {
      refusal := ArtifactReport(job.h, job.shardName, SourceSha(job), files.output, files.sidecar, rootChunk);
    } else if deleteSource && files.marker.Some? {
      refusal := DeletedReport(job, files, rootChunk);
    } else {
      refusal := Some("SOURCE_SHARD_NOT_FOUND");
    }
  }

  /** The source went only after the artifact opened, and behind a marker with its digest. */
  predicate DeletedSafely(job: Job, before: Files, after: Files) {
    && before.output.Some? && Open(job.h, before.output.value, true, true).Some?
    && after == before.(marker := Some(MarkerOf(job)), source := false)
  }

  predicate Deletion(job: Job, before: Files, power: Option<nat>, skipped: bool, outcome: ShardOutcome, after: Files)
    requires before.output.Some?
  {
    match outcome
    case Rejected(_) =>
      && after == before
      && (if before.source then Open(job.h, before.output.value, true, true).None? else before.marker.None?)
    case WentDown =>
      && power.Some? && before.source
      && (after == before || after == before.(marker := Some(MarkerOf(job))))
    case Reported(s, c, d) =>
      && s == skipped && c && d
      && if before.source then DeletedSafely(job, before, after) else after == before
  }

  /** The deletion of a source whose artifact is complete. */
  method DeleteSource(disk: Disk, job: Job, skipped: bool, rootChunk: nat) returns (outcome: ShardOutcome)
    requires disk.Valid() && disk.files.output.Some? && rootChunk > 0
    modifies disk
    ensures disk.Valid() && disk.lo == old(disk.lo) && disk.hi == old(disk.hi)
    ensures disk.power.None? <==> old(disk.power).None?
    ensures Deletion(job, old(disk.files), old(disk.power), skipped, outcome, disk.files)
  {
    if disk.files.source {
      var reader := OpenFile(job.h, disk.files.output.value, true, true, rootChunk);
      if reader.Failure? {
        return Rejected(reader.error);
      }
      var alive := disk.WriteMarker(MarkerOf(job));
      if alive {
        alive := disk.RemoveSource();
      }
      if !alive {
        return WentDown;
      }
    } else if disk.files.marker.None? {
      return Rejected("SOURCE_SHARD_NOT_FOUND");
    }
    return Reported(skipped, true, true);
  }

  /** Deleting the source of a finished shard keeps it on record, however far it gets. */
  lemma DeletionKeeps(job: Job, before: Files, lo: nat, hi: nat, uuid: Uuid, gaps: seq<seq<byte>>, after: Files)
    requires Kept(job, before, lo, hi, uuid, gaps) && Done(job, before, uuid, gaps)
    requires || after == before
             || after == before.(marker := Some(MarkerOf(job)))
             || after == before.(marker := Some(MarkerOf(job)), source := false)
    ensures Kept(job, after, lo, hi, uuid, gaps) && Done(job, after, uuid, gaps)
  {
  }

  // ----- One shard -----

  function AttemptOf(power: Option<nat>, chunkBytes: nat, dryRun: bool, freshUuid: Uuid): Attempt {
    Attempt(None, power, chunkBytes, dryRun, None, freshUuid)
  }

  /** What a conversion does to a shard on record. */
  lemma ConversionKeeps(job: Job, before: Files, a: Attempt, lo0: nat, hi0: nat, uuid: Uuid, gaps: seq<seq<byte>>,
                        early: Option<Outcome>, outcome: Outcome, files: Files, lo: nat, hi: nat)
      returns (uuid': Uuid, gaps': seq<seq<byte>>)
    requires PositivePlans(job.plans) && Kept(job, before, lo0, hi0, uuid, gaps) && before.source
    requires early == Early(job, before, a.chunkBytes, a.dryRun, a.stopAfter)
    requires Converted(job, before, lo0, hi0, early, a.stopAfter, a.freshUuid, outcome, files, lo, hi)
    requires outcome == Crashed ==> a.power.Some?
    ensures Kept(job, files, lo, hi, uuid', gaps')
    ensures EndsWell(job, NothingToDo(before, a), a, Encodable(job), outcome, files)
    ensures IsDone(job, files) ==> Done(job, files, uuid', gaps')
  {
    EarlyFacts(job, before, a, lo0, hi0, uuid, gaps, Encodable(job), early);
    ConvertedContinues(job, before, a, lo0, hi0, uuid, gaps, Encodable(job), early, outcome, files, lo, hi);
    uuid' := if Untouched(before) then a.freshUuid else uuid;
    gaps' := if Untouched(before) then ZeroGaps(job.plans) else gaps;
  }

  /** A completed conversion has left an output and no ledger. */
  lemma FinishedIsOutput(job: Job, before: Files, lo0: nat, hi0: nat, early: Option<Outcome>, freshUuid: Uuid,
                         outcome: Outcome, files: Files, lo: nat, hi: nat)
    requires early.Some? ==> early.value.Refused? || early.value.Planned?
    requires Converted(job, before, lo0, hi0, early, None, freshUuid, outcome, files, lo, hi)
    ensures SameSourceAndMarker(before, files) && !outcome.Stopped?
    ensures outcome.Finished? ==> files.output.Some? && files.ledger.None?
  {
  }

  /** The checked disk of a shard that is on record has nothing else to say. */
  ghost predicate OnRecord(job: Job, files: Files, lo: nat, hi: nat) {
    exists uuid: Uuid, gaps: seq<seq<byte>> :: Kept(job, files, lo, hi, uuid, gaps)
  }

  /** On record, and finished. */
  ghost predicate Finalized(job: Job, files: Files, lo: nat, hi: nat) {
    exists uuid: Uuid, gaps: seq<seq<byte>> :: Kept(job, files, lo, hi, uuid, gaps) && Done(job, files, uuid, gaps)
  }

  /** The reasons a shard on record may be rejected for. */
  ghost predicate Reason(job: Job, before: Files, dryRun: bool, deleteSource: bool) {
    !Encodable(job) || (!before.source && (dryRun || !deleteSource))
  }

  ghost predicate StepOk(job: Job, before: Files, power: Option<nat>, dryRun: bool, deleteSource: bool,
                         outcome: ShardOutcome, files: Files, lo: nat, hi: nat) {
    && OnRecord(job, files, lo, hi)
    && (outcome.WentDown? ==> power.Some?)
    && (outcome.Rejected? ==> Reason(job, before, dryRun, deleteSource))
    && (outcome.Reported? && outcome.completed ==> Finalized(job, files, lo, hi))
    && (outcome.Reported? ==> (outcome.completed <==> !dryRun))
  }

  lemma ConvertedStepOk(job: Job, before: Files, a: Attempt, lo0: nat, hi0: nat, early: Option<Outcome>,
                        outcome: Outcome, files: Files, lo: nat, hi: nat, deleteSource: bool, step: ShardOutcome)
    requires PositivePlans(job.plans) && OnRecord(job, before, lo0, hi0) && before.source
    requires a.chunkBytes > 0 && a.stopAfter.None?
    requires a.dryRun || before.output.None? || before.ledger.Some?
    requires early == Early(job, before, a.chunkBytes, a.dryRun, a.stopAfter)
    requires Converted(job, before, lo0, hi0, early, a.stopAfter, a.freshUuid, outcome, files, lo, hi)
    requires outcome == Crashed ==> a.power.Some?
    requires step == match outcome
                     case Finished(_) => Reported(false, true, false)
                     case Crashed => WentDown
                     case Refused(error) => Rejected(error)
                     case _ => Reported(false, false, false)
    ensures StepOk(job, before, a.power, a.dryRun, deleteSource, step, files, lo, hi)
  {
    var uuid: Uuid, gaps: seq<seq<byte>> :| Kept(job, before, lo0, hi0, uuid, gaps);
    var uuid', gaps' := ConversionKeeps(job, before, a, lo0, hi0, uuid, gaps, early, outcome, files, lo, hi);
    if outcome.Finished? {
      assert Kept(job, files, lo, hi, uuid', gaps') && Done(job, files, uuid', gaps');
    }
  }

  lemma SkipStepOk(job: Job, before: Files, power: Option<nat>, deleteSource: bool, lo: nat, hi: nat,
                   step: ShardOutcome)
    requires PositivePlans(job.plans) && OnRecord(job, before, lo, hi)
    requires before.output.Some? && before.ledger.None?
    requires if SkipAccepted(job, before, deleteSource) then step == Reported(true, true, false) else step.Rejected?
    ensures StepOk(job, before, power, false, deleteSource, step, before, lo, hi)
  {
    var uuid: Uuid, gaps: seq<seq<byte>> :| Kept(job, before, lo, hi, uuid, gaps);
    assert Done(job, before, uuid, gaps);
    DoneIsAccepted(job, before, uuid, gaps);
  }

  /** What the deletion does to a finished shard on record. */
  lemma DeleteStepOk(job: Job, before: Files, middle: Files, power: Option<nat>, lo: nat, hi: nat,
                     first: ShardOutcome, skipped: bool, step: ShardOutcome, files: Files)
    requires PositivePlans(job.plans) && first.Reported? && first.completed
    requires StepOk(job, before, power, false, true, first, middle, lo, hi)
    requires middle.output.Some?
    requires Deletion(job, middle, power, skipped, step, files)
    ensures StepOk(job, before, power, false, true, step, files, lo, hi)
    ensures step.Reported? ==> !files.source
  {
    var uuid: Uuid, gaps: seq<seq<byte>> :| Kept(job, middle, lo, hi, uuid, gaps) && Done(job, middle, uuid, gaps);
    DoneIsAccepted(job, middle, uuid, gaps);
    DeletionKeeps(job, middle, lo, hi, uuid, gaps, files);
  }

  /** The report of one shard: checked again when it is finished, converted otherwise. */
  method ReportShard(disk: Disk, job: Job, chunkBytes: nat, dryRun: bool, deleteSource: bool, freshUuid: Uuid,
                     rootChunk: nat)
      returns (outcome: ShardOutcome)
    requires disk.Valid() && disk.Settled() && DistinctPlans(job.plans) && NoCollision(job, disk.files)
    requires chunkBytes > 0 && rootChunk > 0
    modifies disk
    ensures disk.Valid() && SameSourceAndMarker(old(disk.files), disk.files)
    ensures disk.power.None? <==> old(disk.power).None?
    ensures outcome.Reported? && outcome.completed ==> !dryRun && disk.files.output.Some? && disk.files.ledger.None?
    ensures PositivePlans(job.plans) && OnRecord(job, old(disk.files), old(disk.lo), old(disk.hi)) ==>
      StepOk(job, old(disk.files), old(disk.power), dryRun, deleteSource, outcome, disk.files, disk.lo, disk.hi)
  {
    if disk.files.output.Some? && disk.files.ledger.None? && !dryRun {
      var refusal := SkipShard(job, disk.files, deleteSource, rootChunk);
      outcome := if refusal.Some? then Rejected(refusal.value) else Reported(true, true, false);
      if PositivePlans(job.plans) && OnRecord(job, disk.files, disk.lo, disk.hi) {
        SkipStepOk(job, disk.files, disk.power, deleteSource, disk.lo, disk.hi, outcome);
      }
    } else {
      outcome := ConvertOne(disk, job, chunkBytes, dryRun, deleteSource, freshUuid, rootChunk);
    }
  }

  method ConvertOne(disk: Disk, job: Job, chunkBytes: nat, dryRun: bool, ghost deleteSource: bool, freshUuid: Uuid,
                    rootChunk: nat)
      returns (outcome: ShardOutcome)
    requires disk.Valid() && disk.Settled() && DistinctPlans(job.plans) && NoCollision(job, disk.files)
    requires chunkBytes > 0 && rootChunk > 0
    requires dryRun || disk.files.output.None? || disk.files.ledger.Some?
    modifies disk
    ensures disk.Valid() && SameSourceAndMarker(old(disk.files), disk.files)
    ensures disk.power.None? <==> old(disk.power).None?
    ensures outcome.Reported? && outcome.completed ==> !dryRun && disk.files.output.Some? && disk.files.ledger.None?
    ensures PositivePlans(job.plans) && OnRecord(job, old(disk.files), old(disk.lo), old(disk.hi)) ==>
      StepOk(job, old(disk.files), old(disk.power), dryRun, deleteSource, outcome, disk.files, disk.lo, disk.hi)
  {
    ghost var before, lo, hi, a := disk.files, disk.lo, disk.hi, AttemptOf(disk.power, chunkBytes, dryRun, freshUuid);
    ghost var early := Early(job, before, chunkBytes, dryRun, None);
    var converted := ConvertShard(disk, job, chunkBytes, dryRun, None, freshUuid, rootChunk);
    FinishedIsOutput(job, before, lo, hi, early, freshUuid, converted, disk.files, disk.lo, disk.hi);
    outcome := match converted
      case Finished(_) => Reported(false, true, false)
      case Crashed => WentDown
      case Refused(error) => Rejected(error)
      case _ => Reported(false, false, false);
    if PositivePlans(job.plans) && OnRecord(job, before, lo, hi) {
      if before.source {
        ConvertedStepOk(job, before, a, lo, hi, early, converted, disk.files, disk.lo, disk.hi, deleteSource, outcome);
      } else {
        MissingStepOk(job, before, lo, hi, dryRun);
      }
    }
  }

  /** A shard on record whose source is gone is finished, so only a dry run gets this far. */
  lemma MissingStepOk(job: Job, before: Files, lo: nat, hi: nat, dryRun: bool)
    requires OnRecord(job, before, lo, hi) && !before.source
    requires dryRun || before.output.None? || before.ledger.Some?
    ensures dryRun
  {
  }

  /** One shard: the report, and the deletion of its source when it is complete. */
  method ProcessShard(disk: Disk, job: Job, chunkBytes: nat, dryRun: bool, deleteSource: bool, freshUuid: Uuid,
                      rootChunk: nat)
      returns (outcome: ShardOutcome)
    requires disk.Valid() && disk.Settled() && DistinctPlans(job.plans) && NoCollision(job, disk.files)
    requires chunkBytes > 0 && rootChunk > 0
    modifies disk
    ensures disk.Valid()
    ensures old(disk.files.source) && !disk.files.source ==>
      && disk.files.output.Some? && Open(job.h, disk.files.output.value, true, true).Some?
      && disk.files.ledger.None? && disk.files.marker == Some(MarkerOf(job))
    ensures PositivePlans(job.plans) && OnRecord(job, old(disk.files), old(disk.lo), old(disk.hi)) ==>
      && StepOk(job, old(disk.files), old(disk.power), dryRun, deleteSource, outcome, disk.files, disk.lo, disk.hi)
      && (deleteSource && outcome.Reported? && outcome.completed ==> !disk.files.source)
  {
    ghost var before, lo, hi, power := disk.files, disk.lo, disk.hi, disk.power;
    var report := ReportShard(disk, job, chunkBytes, dryRun, deleteSource, freshUuid, rootChunk);
    outcome := report;
    if deleteSource && report.Reported? && report.completed {
      ghost var middle, left := disk.files, disk.power;
      outcome := DeleteSource(disk, job, report.skipped, rootChunk);
      if PositivePlans(job.plans) && OnRecord(job, before, lo, hi) {
        PowerStepOk(job, before, power, left, report, middle, disk.lo, disk.hi);
        DeleteStepOk(job, before, middle, left, disk.lo, disk.hi, report, report.skipped, outcome, disk.files);
        PowerStepOk(job, before, left, power, outcome, disk.files, disk.lo, disk.hi);
      }
    }
  }

  lemma PowerStepOk(job: Job, before: Files, power: Option<nat>, left: Option<nat>, step: ShardOutcome, files: Files,
                    lo: nat, hi: nat)
    requires StepOk(job, before, power, false, true, step, files, lo, hi) && (power.None? <==> left.None?)
    ensures StepOk(job, before, left, false, true, step, files, lo, hi)
  {
  }

  // ----- All shards -----

  datatype MultiOutcome =
    | Report(completed: bool, skipped: seq<nat>, deleted: seq<nat>)
    | MachineDown
    | Failed(error: string)

  predicate Matched(disks: seq<Disk>, jobs: seq<Job>) {
    && |disks| == |jobs|
    && (forall i, j :: 0 <= i < j < |disks| ==> disks[i] != disks[j])
    && (forall i :: 0 <= i < |jobs| ==> DistinctPlans(jobs[i].plans) && PositivePlans(jobs[i].plans))
  }

  ghost predicate DiskOnRecord(disk: Disk, job: Job)
    reads disk
  {
    disk.Valid() && OnRecord(job, disk.files, disk.lo, disk.hi)
  }

  ghost predicate AllOnRecord(disks: seq<Disk>, jobs: seq<Job>)
    requires |disks| == |jobs|
    reads disks
  {
    forall i :: 0 <= i < |disks| ==> DiskOnRecord(disks[i], jobs[i])
  }

  /** Where everything starts: sources in place, and no ledger or output yet, puts every shard on record. */
  lemma FreshIsOnRecord(disks: seq<Disk>, jobs: seq<Job>)
    requires |disks| == |jobs|
    requires forall i :: 0 <= i < |disks| ==>
      disks[i].Valid() && disks[i].files.source && Untouched(disks[i].files)
    ensures AllOnRecord(disks, jobs)
  {
    forall i | 0 <= i < |disks|
      ensures DiskOnRecord(disks[i], jobs[i])
    {
      assert Kept(jobs[i], disks[i].files, disks[i].lo, disks[i].hi, Zeros(16), ZeroGaps(jobs[i].plans));
    }
  }

  lemma OnRecordHasNoCollision(job: Job, files: Files, lo: nat, hi: nat)
    requires PositivePlans(job.plans) && OnRecord(job, files, lo, hi)
    ensures NoCollision(job, files)
  {
    var uuid: Uuid, gaps: seq<seq<byte>> :| Kept(job, files, lo, hi, uuid, gaps);
    BetweenIsRecoverable(job, files, lo, hi, uuid, gaps);
  }

  ghost predicate AllSettled(disks: seq<Disk>)
    reads disks
  {
    forall i :: 0 <= i < |disks| ==> disks[i].Settled()
  }

  /** Shard `i` as a run leaves it, when nothing goes wrong. */
  ghost predicate ShardFinished(disk: Disk, job: Job, deleteSource: bool)
    reads disk
  {
    Finalized(job, disk.files, disk.lo, disk.hi) && (deleteSource ==> !disk.files.source)
  }

  /** One shard of many. */
  method RunShard(disk: Disk, job: Job, chunkBytes: nat, dryRun: bool, deleteSource: bool, freshUuid: Uuid,
                  rootChunk: nat)
      returns (report: ShardOutcome)
    requires DiskOnRecord(disk, job) && disk.Settled() && DistinctPlans(job.plans) && PositivePlans(job.plans)
    requires chunkBytes > 0 && rootChunk > 0
    modifies disk
    ensures DiskOnRecord(disk, job)
    ensures report.WentDown? ==> old(disk.power).Some?
    ensures report.Rejected? ==> Reason(job, old(disk.files), dryRun, deleteSource)
    ensures report.Reported? ==> (report.completed <==> !dryRun)
    ensures report.Reported? && !dryRun ==> ShardFinished(disk, job, deleteSource)
  {
    OnRecordHasNoCollision(job, disk.files, disk.lo, disk.hi);
    report := ProcessShard(disk, job, chunkBytes, dryRun, deleteSource, freshUuid, rootChunk);
  }

  /**
   The shards one after the other. However it ends, every shard is on record; a full report that is not
   a dry run means that all are finished, and gone from the source directory when that was asked for.
   */
  method ConvertShards(disks: seq<Disk>, jobs: seq<Job>, sourceDirectory: bool, overlap: bool, chunkBytes: int,
                       dryRun: bool, deleteSource: bool, freshUuids: seq<Uuid>, rootChunk: nat)
      returns (outcome: MultiOutcome)
    requires Matched(disks, jobs) && |freshUuids| == |jobs| && rootChunk > 0
    requires AllOnRecord(disks, jobs) && AllSettled(disks)
    modifies disks
    ensures AllOnRecord(disks, jobs)
    ensures outcome.Report? ==>
      outcome.completed == !dryRun && (!dryRun ==> FinishedUpTo(disks, jobs, deleteSource, |disks|))
    ensures outcome == MachineDown ==> exists i :: 0 <= i < |disks| && old(disks[i].power).Some?
    ensures outcome.Failed? ==>
      || !sourceDirectory || chunkBytes <= 0 || (deleteSource && !dryRun && overlap)
      || exists i :: 0 <= i < |disks| && Reason(jobs[i], old(disks[i].files), dryRun, deleteSource)
  {
    if !sourceDirectory {
      return Failed("SOURCE_DIRECTORY_NOT_FOUND");
    }
    if chunkBytes <= 0 {
      return Failed("INVALID_CHUNK_SIZE");
    }
    if deleteSource && !dryRun && overlap {
      return Failed("DELETE_SOURCE_OUTPUT_OVERLAP");
    }
    outcome := RunShards(disks, jobs, chunkBytes, dryRun, deleteSource, freshUuids, rootChunk);
  }

  /** The first `n` shards are finished. */
  ghost predicate FinishedUpTo(disks: seq<Disk>, jobs: seq<Job>, deleteSource: bool, n: nat)
    requires n <= |disks| == |jobs|
    reads disks
  {
    forall j :: 0 <= j < n ==> ShardFinished(disks[j], jobs[j], deleteSource)
  }

  /** One round of the loop over the shards. */
  method VisitShard(disks: seq<Disk>, jobs: seq<Job>, i: nat, chunkBytes: nat, dryRun: bool, deleteSource: bool,
                    freshUuid: Uuid, rootChunk: nat, ghost next: nat)
      returns (report: ShardOutcome)
    requires Matched(disks, jobs) && i < |disks| && next == i + 1 && AllOnRecord(disks, jobs) && disks[i].Settled()
    requires chunkBytes > 0 && rootChunk > 0
    requires !dryRun ==> FinishedUpTo(disks, jobs, deleteSource, i)
    modifies disks[i]
    ensures AllOnRecord(disks, jobs)
    ensures report.WentDown? ==> old(disks[i].power).Some?
    ensures report.Rejected? ==> Reason(jobs[i], old(disks[i].files), dryRun, deleteSource)
    ensures report.Reported? ==> (report.completed <==> !dryRun)
    ensures report.Reported? && !dryRun ==> FinishedUpTo(disks, jobs, deleteSource, next)
  {
    assert DiskOnRecord(disks[i], jobs[i]);
    report := RunShard(disks[i], jobs[i], chunkBytes, dryRun, deleteSource, freshUuid, rootChunk);
    forall j | 0 <= j < |disks|
      ensures DiskOnRecord(disks[j], jobs[j])
    {
      if j != i {
        assert old(DiskOnRecord(disks[j], jobs[j]));
      }
    }
    if report.Reported? && !dryRun {
      forall j | 0 <= j < next
        ensures ShardFinished(disks[j], jobs[j], deleteSource)
      {
        if j != i {
          assert old(ShardFinished(disks[j], jobs[j], deleteSource));
        }
      }
    }
  }

  method RunShards(disks: seq<Disk>, jobs: seq<Job>, chunkBytes: nat, dryRun: bool, deleteSource: bool,
                   freshUuids: seq<Uuid>, rootChunk: nat)
      returns (outcome: MultiOutcome)
    requires Matched(disks, jobs) && |freshUuids| == |jobs| && chunkBytes > 0 && rootChunk > 0
    requires AllOnRecord(disks, jobs) && AllSettled(disks)
    modifies disks
    ensures AllOnRecord(disks, jobs)
    ensures outcome.Report? ==>
      outcome.completed == !dryRun && (!dryRun ==> FinishedUpTo(disks, jobs, deleteSource, |disks|))
    ensures outcome == MachineDown ==> exists i :: 0 <= i < |disks| && old(disks[i].power).Some?
    ensures outcome.Failed? ==>
      exists i :: 0 <= i < |disks| && Reason(jobs[i], old(disks[i].files), dryRun, deleteSource)
  {
    var skipped: seq<nat>, deleted: seq<nat>, completed := [], [], true;
    var i: nat := 0;
    while i < |disks|
      invariant i <= |disks| && AllOnRecord(disks, jobs)
      invariant forall j :: i <= j < |disks| ==> disks[j].Settled() && unchanged(disks[j])
      invariant !dryRun ==> FinishedUpTo(disks, jobs, deleteSource, i)
      invariant completed == (!dryRun || i == 0)
    {
      var report := VisitShard(disks, jobs, i, chunkBytes, dryRun, deleteSource, freshUuids[i], rootChunk, i + 1);
      if report.WentDown? {
        return MachineDown;
      }
      if report.Rejected? {
        return Failed(report.error);
      }
      completed := completed && report.completed;
      skipped := if report.skipped then skipped + [i] else skipped;
      deleted := if report.deleted then deleted + [i] else deleted;
      i := i + 1;
    }
    return Report(completed && !dryRun, skipped, deleted);
  }

  // ----- Whole runs -----

  /** A crash takes no shard off the record. */
  lemma OnRecordAfterCrash(job: Job, files: Files, lo: nat, hi: nat, torn: Option<seq<byte>>, up: nat)
    requires OnRecord(job, files, lo, hi) && Torn(files.partial, lo, hi, torn)
    requires up == if torn.Some? then |torn.value| else 0
    ensures OnRecord(job, files.(partial := torn), 0, up)
  {
    var uuid: Uuid, gaps: seq<seq<byte>> :| Kept(job, files, lo, hi, uuid, gaps);
    if files.source {
      var after := RestartKeeps(job, files, lo, hi, uuid, gaps, torn, up);
      assert Kept(job, files.(partial := torn), 0, up, uuid, after);
    } else {
      assert Kept(job, files.(partial := torn), 0, up, uuid, gaps);
    }
  }

  /**
   No shard is lost: one that is on record without its source has an output, a sidecar and a marker that
   all carry the digest of that source, and no ledger; the output holds every tensor of the source; and a
   run that deletes sources accepts it as it is.
   */
  lemma NoShardLost(job: Job, files: Files, lo: nat, hi: nat)
    requires PositivePlans(job.plans) && OnRecord(job, files, lo, hi) && !files.source
    ensures files.ledger.None? && files.partial.None?
    ensures files.sidecar.Some? && files.sidecar.value.source == SourceSha(job)
    ensures files.marker.Some? && files.marker.value.source == SourceSha(job)
    ensures files.output.Some?
    ensures var seen := Open(job.h, files.output.value, true, true);
      seen.Some? && seen.value.superblock.sourceSha == SourceSha(job) && seen.value.tensors == Records(job, |job.plans|)
    ensures forall i :: 0 <= i < |job.plans| ==>
      InFile(files.output.value, RecordOf(job, i)) && Data(files.output.value, RecordOf(job, i)) == job.plans[i].data
    ensures SkipAccepted(job, files, true)
  {
    var uuid: Uuid, gaps: seq<seq<byte>> :| Kept(job, files, lo, hi, uuid, gaps);
    FinishedFileOpens(job, uuid, gaps);
    DoneIsAccepted(job, files, uuid, gaps);
  }

  /** A restart of the machine and one call, with what the crash left of each shard. */
  datatype Pass = Pass(garbage: seq<Option<seq<byte>>>, power: seq<Option<nat>>, freshUuids: seq<Uuid>, chunkBytes: int,
                       dryRun: bool, deleteSource: bool)

  ghost predicate Ready(disk: Disk, power: Option<nat>)
    reads disk
  {
    disk.Settled() && disk.power == power
  }

  ghost predicate ReadyUpTo(disks: seq<Disk>, power: seq<Option<nat>>, n: nat)
    requires n <= |disks| == |power|
    reads disks
  {
    forall j :: 0 <= j < n ==> Ready(disks[j], power[j])
  }

  method RestartAll(disks: seq<Disk>, jobs: seq<Job>, garbage: seq<Option<seq<byte>>>, power: seq<Option<nat>>)
    requires Matched(disks, jobs) && |garbage| == |power| == |disks| && AllOnRecord(disks, jobs)
    modifies disks
    ensures AllOnRecord(disks, jobs)
    ensures ReadyUpTo(disks, power, |disks|)
  {
    var i: nat := 0;
    while i < |disks|
      invariant i <= |disks| && AllOnRecord(disks, jobs) && ReadyUpTo(disks, power, i)
    {
      RestartOne(disks, jobs, i, garbage[i], power, i + 1);
      i := i + 1;
    }
  }

  method RestartOne(disks: seq<Disk>, jobs: seq<Job>, i: nat, garbage: Option<seq<byte>>, power: seq<Option<nat>>,
                    ghost next: nat)
    requires Matched(disks, jobs) && i < |disks| == |power| && next == i + 1 && AllOnRecord(disks, jobs)
    requires ReadyUpTo(disks, power, i)
    modifies disks[i]
    ensures AllOnRecord(disks, jobs)
    ensures ReadyUpTo(disks, power, next)
  {
    assert DiskOnRecord(disks[i], jobs[i]);
    ghost var torn := Tear(disks[i].files.partial, disks[i].lo, disks[i].hi, garbage);
    ghost var files, up := disks[i].files.(partial := torn), if torn.Some? then |torn.value| else 0;
    OnRecordAfterCrash(jobs[i], disks[i].files, disks[i].lo, disks[i].hi, torn, up);
    disks[i].Restart(garbage, power[i]);
    assert OnRecord(jobs[i], files, disks[i].lo, disks[i].hi) by {
      if torn.None? {
        WindowIrrelevant(jobs[i], files, 0, up, disks[i].lo, disks[i].hi);
      }
    }
    forall j | 0 <= j < |disks|
      ensures DiskOnRecord(disks[j], jobs[j])
    {
      if j != i {
        assert old(DiskOnRecord(disks[j], jobs[j]));
      }
    }
    forall j | 0 <= j < next
      ensures Ready(disks[j], power[j])
    {
      if j != i {
        assert old(Ready(disks[j], power[j]));
      }
    }
  }

  lemma WindowIrrelevant(job: Job, files: Files, lo: nat, hi: nat, lo': nat, hi': nat)
    requires OnRecord(job, files, lo, hi) && files.partial.None?
    ensures OnRecord(job, files, lo', hi')
  {
    var uuid: Uuid, gaps: seq<seq<byte>> :| Kept(job, files, lo, hi, uuid, gaps);
    assert Kept(job, files, lo', hi', uuid, gaps);
  }

  /**
   Any number of passes over all shards, with crashes anywhere: no shard is ever off the record, and a
   pass that nothing cuts short finishes every one.
   */
  method ConvertAllThroughCrashes(disks: seq<Disk>, jobs: seq<Job>, passes: seq<Pass>, rootChunk: nat)
      returns (outcomes: seq<MultiOutcome>)
    requires Matched(disks, jobs) && rootChunk > 0 && AllOnRecord(disks, jobs)
    requires forall p :: p in passes ==> |p.garbage| == |p.power| == |p.freshUuids| == |disks|
    modifies disks
    ensures AllOnRecord(disks, jobs) && |outcomes| == |passes|
    ensures passes != [] && Unhindered(passes[|passes| - 1], jobs) ==>
      outcomes[|passes| - 1].Report? && FinishedUpTo(disks, jobs, true, |disks|)
  {
    outcomes := [];
    for i := 0 to |passes|
      invariant AllOnRecord(disks, jobs) && |outcomes| == i
      invariant i > 0 && Unhindered(passes[i - 1], jobs) ==>
        outcomes[i - 1].Report? && FinishedUpTo(disks, jobs, true, |disks|)
    {
      var outcome := OnePass(disks, jobs, passes[i], rootChunk);
      outcomes := outcomes + [outcome];
    }
  }

  /** Power all the way, valid arguments, sources to be deleted, every job encodable. */
  predicate Unhindered(p: Pass, jobs: seq<Job>) {
    && (forall i :: 0 <= i < |p.power| ==> p.power[i].None?)
    && p.chunkBytes > 0 && !p.dryRun && p.deleteSource
    && (forall i :: 0 <= i < |jobs| ==> Encodable(jobs[i]))
  }

  method OnePass(disks: seq<Disk>, jobs: seq<Job>, p: Pass, rootChunk: nat) returns (outcome: MultiOutcome)
    requires Matched(disks, jobs) && rootChunk > 0 && AllOnRecord(disks, jobs)
    requires |p.garbage| == |p.power| == |p.freshUuids| == |disks|
    modifies disks
    ensures AllOnRecord(disks, jobs)
    ensures Unhindered(p, jobs) ==> outcome.Report? && FinishedUpTo(disks, jobs, true, |disks|)
  {
    RestartAll(disks, jobs, p.garbage, p.power);
    assert AllSettled(disks) by {
      assert forall i :: 0 <= i < |disks| ==> Ready(disks[i], p.power[i]);
    }
    outcome := ConvertShards(disks, jobs, true, false, p.chunkBytes, p.dryRun, p.deleteSource, p.freshUuids, rootChunk);
  }
}
