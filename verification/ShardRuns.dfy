/** Any number of conversions of one shard, with crashes anywhere in between. */
module ShardRuns {
  import opened Wrappers
  import opened Bytes
  import opened Format
  import opened Reader
  import opened ShardLayout
  import opened ShardReadback
  import opened Disk
  import opened Shard
  import opened ShardChecks
  import opened ShardRun
  import opened ShardConvert

  /** The machine restarts, with what the crash left, and makes one call on this much power. */
  datatype Attempt = Attempt(garbage: Option<seq<byte>>, power: Option<nat>, chunkBytes: int, dryRun: bool,
                             stopAfter: Option<int>, freshUuid: Uuid)

  /** A shard between two calls, given the uuid and gaps of the conversion under way, if there is one. */
  ghost predicate Between(job: Job, files: Files, lo: nat, hi: nat, uuid: Uuid, gaps: seq<seq<byte>>) {
    Untouched(files) || Underway(job, files, lo, hi, uuid, gaps)
  }

  // ----- Which refusals can happen -----

  /** The records, directories and superblock of the job all fit their fields. */
  predicate Encodable(job: Job) {
    var s := EncodeSections(job);
    s.Success? && SuperblockPackable(BlockOf(job, Zeros(16), s.value))
  }

  lemma SamePackability(job: Job, uuid: Uuid, s: Sections)
    requires |s.config| == MODEL_CONFIG_BYTES
    ensures SuperblockPackable(BlockOf(job, uuid, s)) <==> SuperblockPackable(BlockOf(job, Zeros(16), s))
  {
    var block, blank := BlockOf(job, uuid, s), BlockOf(job, Zeros(16), s);
    assert SuperblockHead(block) == SuperblockHead(blank) && SuperblockTail(block) == SuperblockTail(blank);
  }

  lemma SealedExactly(job: Job, uuid: Uuid, gaps: seq<seq<byte>>, s: Sections)
    requires GapsFit(job.plans, gaps) && |s.config| == MODEL_CONFIG_BYTES
    ensures Sealed(job, uuid, gaps, s).Success? <==> SuperblockPackable(BlockOf(job, uuid, s))
  {
    var block := BlockOf(job, uuid, s);
    if SuperblockPackable(block) {
      var first := EncodeSuperblock(job.h, block).value + Contents(job, gaps, s)[SUPERBLOCK_BYTES..];
      RootDigestExcludesItself(job.h, block, RootSha(job.h, first), []);
    }
  }

  /** Whether a job can be encoded does not depend on the uuid or on what is in the gaps. */
  lemma EncodableExactly(job: Job, uuid: Uuid, gaps: seq<seq<byte>>)
    requires GapsFit(job.plans, gaps)
    ensures Assemble(job, uuid, gaps).Success? <==> Encodable(job)
  {
    var s := EncodeSections(job);
    if s.Success? {
      SamePackability(job, uuid, s.value);
      SealedExactly(job, uuid, gaps, s.value);
    }
  }

  // ----- One attempt -----

  /** A resumed run takes the uuid from the ledger and the gaps from the partial file. */
  lemma ResumableStart(job: Job, files: Files, lo: nat, hi: nat, uuid: Uuid, gaps: seq<seq<byte>>, freshUuid: Uuid)
    requires Resumable(job, files, lo, hi, uuid, gaps)
    ensures StartUuid(files, freshUuid) == uuid && StartGaps(job, files) == gaps && !Publishing(files)
  {
  }

  lemma BetweenIsRecoverable(job: Job, files: Files, lo: nat, hi: nat, uuid: Uuid, gaps: seq<seq<byte>>)
    requires PositivePlans(job.plans) && Between(job, files, lo, hi, uuid, gaps)
    ensures Refusal(job, files) == if files.ledger.None? && files.output.Some? then Some("OUTPUT_EXISTS") else None
    ensures NoCollision(job, files)
    ensures Publishing(files) <==> Published(job, files, uuid, gaps)
  {
    RecoverableIsAccepted(job, files, lo, hi);
    if Resumable(job, files, lo, hi, uuid, gaps) {
      ResumableHasNoCollision(job, files, lo, hi, uuid, gaps);
    }
  }

  /** Nothing cuts this attempt short. */
  predicate Uninterrupted(a: Attempt) {
    a.power.None? && a.chunkBytes > 0 && !a.dryRun && a.stopAfter.None?
  }

  /** Bad arguments, or nothing left to do. */
  predicate NothingToDo(files: Files, a: Attempt) {
    || a.chunkBytes <= 0
    || (a.stopAfter.Some? && a.stopAfter.value <= 0)
    || (files.ledger.None? && files.output.Some?)
  }

  ghost predicate IsDone(job: Job, files: Files) {
    exists uuid: Uuid, gaps: seq<seq<byte>> :: Done(job, files, uuid, gaps)
  }

  /** Where one call from a recoverable disk leads. */
  ghost predicate LeadsTo(job: Job, before: Files, freshUuid: Uuid, uuid: Uuid, gaps: seq<seq<byte>>, files: Files,
                          lo: nat, hi: nat) {
    && SameSourceAndMarker(before, files)
    && if Untouched(before) then Between(job, files, lo, hi, freshUuid, ZeroGaps(job.plans))
       else Underway(job, files, lo, hi, uuid, gaps)
  }

  /** How it may end: it is refused only for a reason, and completes unless something is in the way. */
  ghost predicate EndsWell(job: Job, nothing: bool, a: Attempt, encodable: bool, outcome: Outcome, files: Files) {
    && (outcome.Refused? ==> nothing || !encodable)
    && (outcome.Finished? ==> IsDone(job, files))
    && (Uninterrupted(a) && encodable ==> IsDone(job, files))
  }

  /** A call that changes nothing has a reason; any other finds something to do. */
  lemma EarlyFacts(job: Job, before: Files, a: Attempt, lo: nat, hi: nat, uuid: Uuid, gaps: seq<seq<byte>>,
                   encodable: bool, early: Option<Outcome>)
    requires PositivePlans(job.plans) && Between(job, before, lo, hi, uuid, gaps) && before.source
    requires early == Early(job, before, a.chunkBytes, a.dryRun, a.stopAfter)
    ensures early.Some? ==> EndsWell(job, NothingToDo(before, a), a, encodable, early.value, before)
    ensures early.None? ==> before.ledger.Some? || before.output.None?
  {
    BetweenIsRecoverable(job, before, lo, hi, uuid, gaps);
    if early.Some? && Uninterrupted(a) {
      assert Done(job, before, uuid, gaps);
    }
  }

  /** A run that wrote something. */
  lemma RanLeads(job: Job, before: Files, lo0: nat, hi0: nat, uuid: Uuid, gaps: seq<seq<byte>>, freshUuid: Uuid,
                 outcome: Outcome, files: Files, lo: nat, hi: nat, stopAfter: Option<int>)
    requires Between(job, before, lo0, hi0, uuid, gaps) && !Publishing(before)
    requires before.ledger.Some? || before.output.None?
    requires Ran(job, before, outcome, files, lo, hi, StartUuid(before, freshUuid), StartGaps(job, before), stopAfter)
    ensures LeadsTo(job, before, freshUuid, uuid, gaps, files, lo, hi)
  {
    if !Untouched(before) {
      ResumableStart(job, before, lo0, hi0, uuid, gaps, freshUuid);
    }
  }

  lemma RanEndsWell(job: Job, before: Files, a: Attempt, uuid: Uuid, gaps: seq<seq<byte>>, encodable: bool,
                    outcome: Outcome, files: Files, lo: nat, hi: nat)
    requires Ran(job, before, outcome, files, lo, hi, uuid, gaps, a.stopAfter)
    requires GapsFit(job.plans, gaps) && (Assemble(job, uuid, gaps).Success? <==> encodable)
    requires outcome == Crashed ==> a.power.Some?
    ensures EndsWell(job, NothingToDo(before, a), a, encodable, outcome, files)
  {
    if outcome.Finished? {
      assert Done(job, files, uuid, gaps);
    }
  }

  lemma RanContinues(job: Job, before: Files, a: Attempt, lo0: nat, hi0: nat, uuid: Uuid, gaps: seq<seq<byte>>,
                     encodable: bool, outcome: Outcome, files: Files, lo: nat, hi: nat)
    requires Between(job, before, lo0, hi0, uuid, gaps) && !Publishing(before)
    requires before.ledger.Some? || before.output.None?
    requires Ran(job, before, outcome, files, lo, hi, StartUuid(before, a.freshUuid), StartGaps(job, before), a.stopAfter)
    requires outcome == Crashed ==> a.power.Some?
    requires encodable <==> Encodable(job)
    ensures LeadsTo(job, before, a.freshUuid, uuid, gaps, files, lo, hi)
    ensures EndsWell(job, NothingToDo(before, a), a, encodable, outcome, files)
  {
    RanLeads(job, before, lo0, hi0, uuid, gaps, a.freshUuid, outcome, files, lo, hi, a.stopAfter);
    var u, g := StartUuid(before, a.freshUuid), StartGaps(job, before);
    EncodableExactly(job, u, g);
    RanEndsWell(job, before, a, u, g, encodable, outcome, files, lo, hi);
  }

  /** A run that found the output published. */
  lemma TidiedContinues(job: Job, before: Files, a: Attempt, uuid: Uuid, gaps: seq<seq<byte>>, encodable: bool,
                        outcome: Outcome, files: Files, lo: nat, hi: nat)
    requires PositivePlans(job.plans) && Published(job, before, uuid, gaps)
    requires RanPublished(job, before, outcome, files, uuid)
    requires outcome == Crashed ==> a.power.Some?
    ensures LeadsTo(job, before, a.freshUuid, uuid, gaps, files, lo, hi)
    ensures EndsWell(job, NothingToDo(before, a), a, encodable, outcome, files)
  {
    PublishedIsAccepted(job, before, uuid, gaps);
    if outcome.Finished? {
      assert Done(job, files, uuid, gaps);
    }
  }

  lemma LateContinues(job: Job, before: Files, a: Attempt, lo0: nat, hi0: nat, uuid: Uuid, gaps: seq<seq<byte>>,
                      encodable: bool, outcome: Outcome, files: Files, lo: nat, hi: nat)
    requires PositivePlans(job.plans) && Between(job, before, lo0, hi0, uuid, gaps)
    requires before.ledger.Some? || before.output.None?
    requires Converted(job, before, lo0, hi0, None, a.stopAfter, a.freshUuid, outcome, files, lo, hi)
    requires outcome == Crashed ==> a.power.Some?
    requires encodable <==> Encodable(job)
    ensures LeadsTo(job, before, a.freshUuid, uuid, gaps, files, lo, hi)
    ensures EndsWell(job, NothingToDo(before, a), a, encodable, outcome, files)
  {
    BetweenIsRecoverable(job, before, lo0, hi0, uuid, gaps);
    if Publishing(before) {
      TidiedContinues(job, before, a, uuid, gaps, encodable, outcome, files, lo, hi);
    } else {
      RanContinues(job, before, a, lo0, hi0, uuid, gaps, encodable, outcome, files, lo, hi);
    }
  }

  lemma ConvertedContinues(job: Job, before: Files, a: Attempt, lo0: nat, hi0: nat, uuid: Uuid, gaps: seq<seq<byte>>,
                           encodable: bool, early: Option<Outcome>, outcome: Outcome, files: Files, lo: nat, hi: nat)
    requires PositivePlans(job.plans) && Between(job, before, lo0, hi0, uuid, gaps)
    requires early.Some? ==> EndsWell(job, NothingToDo(before, a), a, encodable, early.value, before)
    requires early.None? ==> before.ledger.Some? || before.output.None?
    requires Converted(job, before, lo0, hi0, early, a.stopAfter, a.freshUuid, outcome, files, lo, hi)
    requires outcome == Crashed ==> a.power.Some?
    requires encodable <==> Encodable(job)
    ensures LeadsTo(job, before, a.freshUuid, uuid, gaps, files, lo, hi)
    ensures EndsWell(job, NothingToDo(before, a), a, encodable, outcome, files)
  {
    if early.None? {
      LateContinues(job, before, a, lo0, hi0, uuid, gaps, encodable, outcome, files, lo, hi);
    }
  }

  /** One call from a recoverable disk. */
  method RunOnce(disk: Disk, job: Job, a: Attempt, rootChunk: nat, ghost uuid: Uuid, ghost gaps: seq<seq<byte>>)
      returns (outcome: Outcome)
    requires disk.Valid() && disk.Settled() && DistinctPlans(job.plans) && PositivePlans(job.plans) && rootChunk > 0
    requires disk.files.source && disk.power == a.power && Between(job, disk.files, disk.lo, disk.hi, uuid, gaps)
    modifies disk
    ensures disk.Valid()
    ensures LeadsTo(job, old(disk.files), a.freshUuid, uuid, gaps, disk.files, disk.lo, disk.hi)
    ensures EndsWell(job, NothingToDo(old(disk.files), a), a, Encodable(job), outcome, disk.files)
  {
    ghost var before, lo, hi := disk.files, disk.lo, disk.hi;
    ghost var early := Early(job, before, a.chunkBytes, a.dryRun, a.stopAfter);
    BetweenIsRecoverable(job, before, lo, hi, uuid, gaps);
    EarlyFacts(job, before, a, lo, hi, uuid, gaps, Encodable(job), early);
    outcome := ConvertShard(disk, job, a.chunkBytes, a.dryRun, a.stopAfter, a.freshUuid, rootChunk);
    ConvertedContinues(job, before, a, lo, hi, uuid, gaps, Encodable(job), early, outcome, disk.files, disk.lo, disk.hi);
  }

  // ----- Whole runs -----

  /** What the crash before a call left of the conversion under way. */
  lemma RestartKeeps(job: Job, before: Files, lo: nat, hi: nat, uuid: Uuid, gaps: seq<seq<byte>>,
                     torn: Option<seq<byte>>, up: nat) returns (after: seq<seq<byte>>)
    requires Between(job, before, lo, hi, uuid, gaps) && Torn(before.partial, lo, hi, torn)
    requires up == if torn.Some? then |torn.value| else 0
    ensures Between(job, before.(partial := torn), 0, up, uuid, after)
    ensures gaps == ZeroGaps(job.plans) && CleanTear(job, before, torn) ==> after == ZeroGaps(job.plans)
  {
    after := gaps;
    if !Untouched(before) {
      after := CrashIsRecoverable(job, before, lo, hi, uuid, gaps, torn);
    }
  }

  /** What is known before a restart and a call carries over to after them. */
  ghost predicate Carried(job: Job, before: Files, clean: bool, uuid: Uuid, gaps: seq<seq<byte>>, files: Files,
                          lo: nat, hi: nat, uuid': Uuid, gaps': seq<seq<byte>>) {
    && SameSourceAndMarker(before, files)
    && Between(job, files, lo, hi, uuid', gaps')
    && (!Untouched(before) ==> uuid' == uuid && !Untouched(files))
    && (clean && (Untouched(before) || gaps == ZeroGaps(job.plans)) ==> gaps' == ZeroGaps(job.plans))
  }

  lemma CarryOn(job: Job, before: Files, torn: Option<seq<byte>>, clean: bool, freshUuid: Uuid, uuid: Uuid,
                gaps: seq<seq<byte>>, resumed: seq<seq<byte>>, files: Files, lo: nat, hi: nat)
    requires LeadsTo(job, before.(partial := torn), freshUuid, uuid, resumed, files, lo, hi)
    requires clean && gaps == ZeroGaps(job.plans) ==> resumed == ZeroGaps(job.plans)
    ensures Carried(job, before, clean, uuid, gaps, files, lo, hi, if Untouched(before) then freshUuid else uuid,
                    if Untouched(before) then ZeroGaps(job.plans) else resumed)
  {
  }

  /** One attempt as it went: the disk before it, what the restart found, and the disk after it. */
  datatype Event = Event(before: Files, found: Option<seq<byte>>, attempt: Attempt, outcome: Outcome, after: Files)

  ghost predicate EventOk(job: Job, encodable: bool, e: Event) {
    EndsWell(job, NothingToDo(e.before, e.attempt), e.attempt, encodable, e.outcome, e.after)
  }

  /** A restart and a call: whatever the crash left, the conversion stays under way. */
  method RestartAndRun(disk: Disk, job: Job, a: Attempt, rootChunk: nat, ghost uuid: Uuid, ghost gaps: seq<seq<byte>>)
      returns (outcome: Outcome, ghost e: Event, ghost uuid': Uuid, ghost gaps': seq<seq<byte>>)
    requires disk.Valid() && DistinctPlans(job.plans) && PositivePlans(job.plans) && rootChunk > 0
    requires disk.files.source && Between(job, disk.files, disk.lo, disk.hi, uuid, gaps)
    modifies disk
    ensures disk.Valid()
    ensures e == Event(old(disk.files), e.found, a, outcome, disk.files)
    ensures Torn(e.before.partial, old(disk.lo), old(disk.hi), e.found)
    ensures EventOk(job, Encodable(job), e)
    ensures Carried(job, e.before, CleanTear(job, e.before, e.found), uuid, gaps, e.after, disk.lo, disk.hi, uuid', gaps')
  {
    ghost var before, torn := disk.files, Tear(disk.files.partial, disk.lo, disk.hi, a.garbage);
    ghost var clean := CleanTear(job, before, torn);
    ghost var resumed := RestartKeeps(job, before, disk.lo, disk.hi, uuid, gaps, torn,
                                      if torn.Some? then |torn.value| else 0);
    assert NothingToDo(before.(partial := torn), a) == NothingToDo(before, a);
    disk.Restart(a.garbage, a.power);
    outcome := RunOnce(disk, job, a, rootChunk, uuid, resumed);
    CarryOn(job, before, torn, clean, a.freshUuid, uuid, gaps, resumed, disk.files, disk.lo, disk.hi);
    uuid' := if Untouched(before) then a.freshUuid else uuid;
    gaps' := if Untouched(before) then ZeroGaps(job.plans) else resumed;
    e := Event(before, torn, a, outcome, disk.files);
  }

  /** The events of a run that led from `first` to `last`. */
  ghost predicate History(job: Job, encodable: bool, first: Files, events: seq<Event>, last: Files) {
    if events == [] then first == last
    else
      var e := events[|events| - 1];
      && History(job, encodable, first, events[..|events| - 1], e.before)
      && EventOk(job, encodable, e) && e.after == last
  }

  ghost predicate AllClean(job: Job, events: seq<Event>) {
    forall e :: e in events ==> CleanTear(job, e.before, e.found)
  }

  lemma HistoryGrows(job: Job, encodable: bool, first: Files, events: seq<Event>, e: Event)
    requires History(job, encodable, first, events, e.before) && EventOk(job, encodable, e)
    ensures History(job, encodable, first, events + [e], e.after)
    ensures AllClean(job, events + [e]) <==> AllClean(job, events) && CleanTear(job, e.before, e.found)
  {
    assert (events + [e])[..|events|] == events;
  }

  predicate Follows(events: seq<Event>, attempts: seq<Attempt>, n: nat) {
    n <= |attempts| && |events| == n && forall i :: 0 <= i < n ==> events[i].attempt == attempts[i]
  }

  /** What is known after some attempts. */
  ghost predicate Story(job: Job, encodable: bool, first: Files, events: seq<Event>, last: Files, lo: nat, hi: nat,
                        uuid: Uuid, gaps: seq<seq<byte>>) {
    && last.source
    && History(job, encodable, first, events, last)
    && Between(job, last, lo, hi, uuid, gaps)
    && (AllClean(job, events) ==> gaps == ZeroGaps(job.plans))
  }

  lemma StoryGrows(job: Job, encodable: bool, first: Files, events: seq<Event>, e: Event, lo: nat, hi: nat, uuid: Uuid,
                   gaps: seq<seq<byte>>, lo': nat, hi': nat, uuid': Uuid, gaps': seq<seq<byte>>)
    requires Story(job, encodable, first, events, e.before, lo, hi, uuid, gaps)
    requires Carried(job, e.before, CleanTear(job, e.before, e.found), uuid, gaps, e.after, lo', hi', uuid', gaps')
    requires EventOk(job, encodable, e)
    ensures Story(job, encodable, first, events + [e], e.after, lo', hi', uuid', gaps')
  {
    HistoryGrows(job, encodable, first, events, e);
  }

  lemma StoryEnds(job: Job, encodable: bool, first: Files, events: seq<Event>, last: Files, lo: nat, hi: nat,
                  uuid: Uuid, gaps: seq<seq<byte>>)
    requires Story(job, encodable, first, events, last, lo, hi, uuid, gaps)
    ensures last.output.Some? ==>
      && IsConversion(job, uuid, last.output.value)
      && (AllClean(job, events) ==> Canonical(job, uuid) == Success(last.output.value))
  {
    if last.output.Some? {
      AssembledIsConversion(job, uuid, gaps);
    }
  }

  /**
   The whole story of a shard, from an untouched output directory: any number of calls with any
   arguments, cut off anywhere by crashes that leave any torn bytes. In the end the disk is still one a
   run can go on from; every call is refused only for a reason, and an uninterrupted one completes. A
   published output is the assembled file of one uuid, and when no crash left garbage in the padding
   behind a ledgered extent it is, byte for byte, the uninterrupted conversion.
   */
  method ConvertThroughCrashes(disk: Disk, job: Job, attempts: seq<Attempt>, rootChunk: nat)
      returns (ghost events: seq<Event>, ghost uuid: Uuid, ghost gaps: seq<seq<byte>>)
    requires disk.Valid() && DistinctPlans(job.plans) && PositivePlans(job.plans) && rootChunk > 0
    requires disk.files.source && Untouched(disk.files)
    modifies disk
    ensures Follows(events, attempts, |attempts|)
    ensures History(job, Encodable(job), old(disk.files), events, disk.files)
    ensures Between(job, disk.files, disk.lo, disk.hi, uuid, gaps)
    ensures disk.files.output.Some? ==>
      && IsConversion(job, uuid, disk.files.output.value)
      && (AllClean(job, events) ==> Canonical(job, uuid) == Success(disk.files.output.value))
  {
    ghost var encodable, first := Encodable(job), disk.files;
    events, uuid, gaps := [], Zeros(16), ZeroGaps(job.plans);
    for i := 0 to |attempts|
      invariant disk.Valid() && Follows(events, attempts, i)
      invariant Story(job, encodable, first, events, disk.files, disk.lo, disk.hi, uuid, gaps)
    {
      ghost var lo, hi, uuid0, gaps0 := disk.lo, disk.hi, uuid, gaps;
      var outcome;
      ghost var e;
      outcome, e, uuid, gaps := RestartAndRun(disk, job, attempts[i], rootChunk, uuid0, gaps0);
      StoryGrows(job, encodable, first, events, e, lo, hi, uuid0, gaps0, disk.lo, disk.hi, uuid, gaps);
      events := events + [e];
    }
    StoryEnds(job, encodable, first, events, disk.files, disk.lo, disk.hi, uuid, gaps);
  }

  // ----- When the result is the uninterrupted conversion -----

  /** A completed run gives the uninterrupted conversion exactly when the gaps it found were zero. */
  lemma CompletedExactly(job: Job, before: Files, outcome: Outcome, files: Files, lo: nat, hi: nat, freshUuid: Uuid,
                         stopAfter: Option<int>)
    requires Ran(job, before, outcome, files, lo, hi, StartUuid(before, freshUuid), StartGaps(job, before), stopAfter)
    requires outcome.Finished?
    ensures files.output.Some?
    ensures Canonical(job, StartUuid(before, freshUuid)) == Success(files.output.value)
            <==> StartGaps(job, before) == ZeroGaps(job.plans)
  {
    CanonicalExactly(job, StartUuid(before, freshUuid), StartGaps(job, before));
  }

  /** A disk with one ledgered extent and nothing behind it. */
  function OneExtent(job: Job, uuid: Uuid): Files
    requires |job.plans| > 0
  {
    Files(true, Some(Written(job.plans, ZeroGaps(job.plans), 1)), Some(Parsed(LedgerOf(job, uuid, 1))), None, None, None)
  }

  lemma OneExtentIsResumable(job: Job, uuid: Uuid)
    requires |job.plans| > 0
    ensures Resumable(job, OneExtent(job, uuid), 0, EndOf(job.plans, 1), uuid, ZeroGaps(job.plans))
  {
    var zero := ZeroGaps(job.plans);
    var w := Written(job.plans, zero, 1);
    AllZeroOfZeros(job.plans);
    assert ZeroAfter(job.plans, zero, 1) && AllZero(zero[1]);
    assert w[SUPERBLOCK_BYTES..] + [] == w[SUPERBLOCK_BYTES..];
    ExtendingIsResumable(job, OneExtent(job, uuid), 0, |w|, uuid, zero, 1, []);
  }

  lemma DirtyGap(plans: seq<Plan>, w: seq<byte>)
    requires |plans| > 0 && |w| == EndOf(plans, 1) && EndOf(plans, 1) % EXTENT_ALIGNMENT != 0
    ensures InheritedGaps(plans, w + [1], 1) != ZeroGaps(plans)
  {
    var gap := InheritedGap(plans, w + [1], 1, 1);
    assert EndOf(plans, 1) < OffsetOf(plans, 1);
    assert gap[0] == 1;
    assert InheritedGaps(plans, w + [1], 1)[1] == gap;
    assert ZeroGaps(plans)[1] == Zeros(OffsetOf(plans, 1) - EndOf(plans, 1));
  }

  /**
   The padding does matter: one byte torn into the gap behind the first extent survives the resume, and
   the finished file is not the uninterrupted conversion any more.
   */
  lemma TornPaddingStays(job: Job, uuid: Uuid) returns (torn: seq<byte>, gaps: seq<seq<byte>>)
    requires |job.plans| > 0 && EndOf(job.plans, 1) % EXTENT_ALIGNMENT != 0 && Encodable(job)
    ensures Torn(OneExtent(job, uuid).partial, 0, EndOf(job.plans, 1), Some(torn))
    ensures Resumable(job, OneExtent(job, uuid).(partial := Some(torn)), 0, |torn|, uuid, gaps)
    ensures GapsFit(job.plans, gaps) && Assemble(job, uuid, gaps).Success?
    ensures Assemble(job, uuid, gaps) != Canonical(job, uuid)
  {
    var before := OneExtent(job, uuid);
    var w := before.partial.value;
    torn := w + [1];
    OneExtentIsResumable(job, uuid);
    assert torn[0..|w|] == w[0..|w|];
    TornIsHeld(job.plans, w, torn, 0, |w|, 1);
    gaps := InheritedGaps(job.plans, torn, 1);
    DirtyGap(job.plans, w);
    EncodableExactly(job, uuid, gaps);
    CanonicalExactly(job, uuid, gaps);
  }
}
