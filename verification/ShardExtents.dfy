/** The extent loop of a run: skips what the ledger has, writes the rest, may stop early. */
module ShardExtents {
  import opened Wrappers
  import opened Bytes
  import opened Format
  import opened ShardLayout
  import opened Disk
  import opened Shard
  import opened ShardRun

  /** How the loop ended: all extents are there, the limit is reached, or the machine went down. */
  datatype Progress = All | Limit | Lost

  function MapOf(completed: seq<Completed>): (m: map<int, Completed>) {
    if completed == [] then map[]
    else
      var last := completed[|completed| - 1];
      MapOf(completed[..|completed| - 1])[last.id := last]
  }

  /** Exactly the first `k` plans are in the map, with their ledger entries. */
  ghost predicate MapHolds(job: Job, m: map<int, Completed>, k: nat) {
    forall i :: 0 <= i < |job.plans| ==> EntryHolds(job, m, k, i)
  }

  ghost predicate EntryHolds(job: Job, m: map<int, Completed>, k: nat, i: nat)
    requires i < |job.plans|
  {
    && (job.plans[i].id in m <==> i < k)
    && (i < k ==> m[job.plans[i].id] == CompletedOf(job, i))
  }

  lemma MapGrows(job: Job, m: map<int, Completed>, k: nat)
    requires DistinctPlans(job.plans) && k < |job.plans| && MapHolds(job, m, k)
    ensures MapHolds(job, m[job.plans[k].id := CompletedOf(job, k)], k + 1)
  {
    var grown, next := m[job.plans[k].id := CompletedOf(job, k)], k + 1;
    forall i | 0 <= i < |job.plans|
      ensures EntryHolds(job, grown, next, i)
    {
      assert EntryHolds(job, m, k, i);
    }
  }

  lemma MapOfSnoc(front: seq<Completed>, last: Completed)
    ensures MapOf(front + [last]) == MapOf(front)[last.id := last]
  {
    assert (front + [last])[..|front|] == front;
  }

  lemma MapOfNone(job: Job)
    ensures MapHolds(job, MapOf(CompletedUpTo(job, 0)), 0)
  {
    assert CompletedUpTo(job, 0) == [];
  }

  lemma MapOfNext(job: Job, k: nat)
    requires DistinctPlans(job.plans) && k < |job.plans| && MapHolds(job, MapOf(CompletedUpTo(job, k)), k)
    ensures MapHolds(job, MapOf(CompletedUpTo(job, k + 1)), k + 1)
  {
    var front, last := CompletedUpTo(job, k), CompletedOf(job, k);
    assert CompletedUpTo(job, k + 1) == front + [last];
    MapOfSnoc(front, last);
    MapGrows(job, MapOf(front), k);
  }

  lemma {:induction false} MapOfHolds(job: Job, k: nat)
    requires DistinctPlans(job.plans) && k <= |job.plans|
    ensures MapHolds(job, MapOf(CompletedUpTo(job, k)), k)
  {
    if k == 0 {
      MapOfNone(job);
    } else {
      MapOfHolds(job, k - 1);
      MapOfNext(job, k - 1);
    }
  }

  function RecordFrom(p: Plan, item: Completed): TensorRecord {
    TensorRecord(p.id, 0, p.dtype, Unquantized, p.shape, p.layer, p.expert, item.offset, item.length, item.length,
                 0, 0, item.crc, 0, 0)
  }

  lemma NextRecord(job: Job, index: nat)
    requires index < |job.plans|
    ensures Records(job, index) + [RecordFrom(job.plans[index], CompletedOf(job, index))] == Records(job, index + 1)
  {
  }

  lemma FreshGapPending(plans: seq<Plan>, gaps: seq<seq<byte>>, k: nat)
    requires GapsFit(plans, gaps) && ZeroAfter(plans, gaps, k) && k < |plans|
    ensures GapPending(gaps[k + 1], [])
  {
  }

  /** What the loop knows about the first `k` extents, in its two forms. */
  ghost predicate Known(job: Job, completed: seq<Completed>, m: map<int, Completed>, k: nat) {
    && k <= |job.plans|
    && completed == CompletedUpTo(job, k)
    && MapHolds(job, m, k)
  }

  /** Writes extent `k` and takes it into the list and the map. */
  method AddExtent(disk: Disk, job: Job, uuid: Uuid, ghost gaps: seq<seq<byte>>, k: nat, ghost tail: seq<byte>,
                   completed: seq<Completed>, completedMap: map<int, Completed>, chunkBytes: nat)
      returns (alive: bool, item: Completed, completed': seq<Completed>, completedMap': map<int, Completed>)
    requires DistinctPlans(job.plans) && chunkBytes > 0
    requires disk.Valid() && Extending(job, disk.files, disk.lo, disk.hi, uuid, gaps, k, tail)
    requires k < |job.plans| && GapPending(gaps[k], tail) && Known(job, completed, completedMap, k)
    modifies disk
    ensures disk.Valid() && (disk.power.None? <==> old(disk.power).None?)
    ensures SameApartFromProgress(old(disk.files), disk.files)
    ensures alive ==>
      && item == CompletedOf(job, k) && Known(job, completed', completedMap', k + 1) && disk.Settled()
      && Extending(job, disk.files, disk.lo, disk.hi, uuid, gaps, k + 1, []) && GapPending(gaps[k + 1], [])
    ensures !alive ==> disk.power.Some? && Resumable(job, disk.files, disk.lo, disk.hi, uuid, gaps)
  {
    FreshGapPending(job.plans, gaps, k);
    alive, item := WriteExtent(disk, job, uuid, gaps, k, tail, completed, chunkBytes);
    completed', completedMap' := completed + [item], completedMap[job.plans[k].id := item];
    if alive {
      MapGrows(job, completedMap, k);
    }
  }

  /** The variables of the loop. */
  datatype Loop = Loop(completed: seq<Completed>, completedMap: map<int, Completed>, records: seq<TensorRecord>,
                       newlyWritten: nat)

  /** How many extents are ledgered before plan `index`, in a run that found `k` of them. */
  function DoneAt(k: nat, index: nat): nat {
    if index <= k then k else index
  }

  ghost predicate LoopOk(job: Job, k: nat, index: nat, loop: Loop) {
    && index <= |job.plans|
    && k + loop.newlyWritten == DoneAt(k, index)
    && Known(job, loop.completed, loop.completedMap, DoneAt(k, index))
    && loop.records == Records(job, index)
  }

  lemma LoopSkips(job: Job, k: nat, index: nat, loop: Loop)
    requires index < |job.plans| && LoopOk(job, k, index, loop)
    ensures job.plans[index].id in loop.completedMap <==> index < k
    ensures index < k ==>
      LoopOk(job, k, index + 1,
             loop.(records := loop.records + [RecordFrom(job.plans[index], loop.completedMap[job.plans[index].id])]))
  {
    assert EntryHolds(job, loop.completedMap, DoneAt(k, index), index);
    if index < k {
      NextRecord(job, index);
    }
  }

  lemma LoopStarts(job: Job, k: nat)
    requires DistinctPlans(job.plans) && k <= |job.plans|
    ensures var found := CompletedUpTo(job, k); LoopOk(job, k, 0, Loop(found, MapOf(found), [], 0))
  {
    MapOfHolds(job, k);
  }

  /** Where the loop stands on disk and in its variables, before plan `index`. */
  ghost predicate Round(job: Job, files: Files, lo: nat, hi: nat, uuid: Uuid, gaps: seq<seq<byte>>, k: nat,
                        index: nat, loop: Loop, done: nat, rest: seq<byte>) {
    && LoopOk(job, k, index, loop) && done == DoneAt(k, index)
    && Extending(job, files, lo, hi, uuid, gaps, done, rest) && GapPending(gaps[done], rest)
  }

  /** One round of the loop. */
  method VisitPlan(disk: Disk, job: Job, uuid: Uuid, ghost gaps: seq<seq<byte>>, ghost k: nat, index: nat,
                   ghost next: nat, loop: Loop, ghost done: nat, ghost rest: seq<byte>, chunkBytes: nat)
      returns (alive: bool, loop': Loop, ghost done': nat, ghost rest': seq<byte>)
    requires DistinctPlans(job.plans) && chunkBytes > 0
    requires index < |job.plans| && next == index + 1
    requires disk.Valid() && Round(job, disk.files, disk.lo, disk.hi, uuid, gaps, k, index, loop, done, rest)
    modifies disk
    ensures disk.Valid() && (disk.power.None? <==> old(disk.power).None?)
    ensures SameApartFromProgress(old(disk.files), disk.files)
    ensures alive ==>
      && Round(job, disk.files, disk.lo, disk.hi, uuid, gaps, k, next, loop', done', rest')
      && loop'.newlyWritten == loop.newlyWritten + (if index < k then 0 else 1)
      && (index >= k ==> disk.Settled() && rest' == [])
    ensures !alive ==> disk.power.Some? && Resumable(job, disk.files, disk.lo, disk.hi, uuid, gaps)
  {
    var p := job.plans[index];
    LoopSkips(job, k, index, loop);
    loop', done', rest' := loop, done, rest;
    if p.id in loop.completedMap {
      alive := true;
      loop' := loop.(records := loop.records + [RecordFrom(p, loop.completedMap[p.id])]);
    } else {
      var item, completed, completedMap;
      alive, item, completed, completedMap :=
        AddExtent(disk, job, uuid, gaps, index, rest, loop.completed, loop.completedMap, chunkBytes);
      if alive {
        NextRecord(job, index);
        done', rest' := index + 1, [];
        loop' := Loop(completed, completedMap, loop.records + [RecordFrom(p, item)], loop.newlyWritten + 1);
      }
    }
  }

  /** One round, and whether the run goes on after it. */
  method VisitAndCount(disk: Disk, job: Job, uuid: Uuid, ghost gaps: seq<seq<byte>>, ghost k: nat, index: nat,
                       ghost next: nat, loop: Loop, ghost done: nat, ghost rest: seq<byte>, chunkBytes: nat,
                       stopAfter: Option<nat>)
      returns (progress: Progress, loop': Loop, ghost done': nat, ghost rest': seq<byte>)
    requires DistinctPlans(job.plans) && chunkBytes > 0
    requires index < |job.plans| && next == index + 1
    requires disk.Valid() && Round(job, disk.files, disk.lo, disk.hi, uuid, gaps, k, index, loop, done, rest)
    requires stopAfter.Some? ==> loop.newlyWritten < stopAfter.value
    modifies disk
    ensures disk.Valid() && (disk.power.None? <==> old(disk.power).None?)
    ensures SameApartFromProgress(old(disk.files), disk.files)
    ensures progress != Lost ==> Round(job, disk.files, disk.lo, disk.hi, uuid, gaps, k, next, loop', done', rest')
    ensures progress == All && stopAfter.Some? ==> loop'.newlyWritten < stopAfter.value
    ensures progress == Limit ==> stopAfter.Some? && disk.Settled() && done' == k + stopAfter.value
    ensures progress == Lost ==> disk.power.Some? && Resumable(job, disk.files, disk.lo, disk.hi, uuid, gaps)
  {
    var alive;
    alive, loop', done', rest' := VisitPlan(disk, job, uuid, gaps, k, index, next, loop, done, rest, chunkBytes);
    if !alive {
      progress := Lost;
    } else if loop'.newlyWritten > loop.newlyWritten && stopAfter.Some? && loop'.newlyWritten >= stopAfter.value {
      progress := Limit;
    } else {
      progress := All;
    }
  }

  /** The loop over the plans, from the variables it starts with. */
  method VisitAll(disk: Disk, job: Job, uuid: Uuid, ghost gaps: seq<seq<byte>>, ghost k: nat, first: Loop,
                  ghost tail: seq<byte>, chunkBytes: nat, stopAfter: Option<nat>)
      returns (progress: Progress, loop: Loop, ghost done: nat, ghost rest: seq<byte>, ghost reached: nat)
    requires DistinctPlans(job.plans) && chunkBytes > 0
    requires disk.Valid() && Round(job, disk.files, disk.lo, disk.hi, uuid, gaps, k, 0, first, k, tail)
    requires stopAfter.Some? ==> first.newlyWritten < stopAfter.value
    modifies disk
    ensures disk.Valid() && (disk.power.None? <==> old(disk.power).None?)
    ensures SameApartFromProgress(old(disk.files), disk.files)
    ensures progress != Lost ==> Round(job, disk.files, disk.lo, disk.hi, uuid, gaps, k, reached, loop, done, rest)
    ensures progress == All ==>
      reached == |job.plans| && (stopAfter.Some? ==> loop.newlyWritten < stopAfter.value)
    ensures progress == Limit ==> stopAfter.Some? && disk.Settled() && done == k + stopAfter.value
    ensures progress == Lost ==> disk.power.Some? && Resumable(job, disk.files, disk.lo, disk.hi, uuid, gaps)
  {
    progress, loop, done, rest, reached := All, first, k, tail, 0;
    var index := 0;
    while index < |job.plans|
      invariant index == reached <= |job.plans| && progress == All
      invariant Round(job, disk.files, disk.lo, disk.hi, uuid, gaps, k, reached, loop, done, rest)
      invariant disk.Valid() && (disk.power.None? <==> old(disk.power).None?)
      invariant SameApartFromProgress(old(disk.files), disk.files)
      invariant stopAfter.Some? ==> loop.newlyWritten < stopAfter.value
    {
      reached := reached + 1;
      progress, loop, done, rest :=
        VisitAndCount(disk, job, uuid, gaps, k, index, reached, loop, done, rest, chunkBytes, stopAfter);
      if progress != All {
        return;
      }
      index := index + 1;
    }
  }

  /** At the end of the loop everything is written and on record. */
  lemma RoundsOver(job: Job, files: Files, lo: nat, hi: nat, uuid: Uuid, gaps: seq<seq<byte>>, k: nat, loop: Loop,
                   done: nat, rest: seq<byte>)
    requires k <= |job.plans| && Round(job, files, lo, hi, uuid, gaps, k, |job.plans|, loop, done, rest)
    ensures loop.records == Records(job, |job.plans|)
    ensures done == |job.plans| == k + loop.newlyWritten
  {
  }

  method WriteExtents(disk: Disk, job: Job, uuid: Uuid, ghost gaps: seq<seq<byte>>, ghost k: nat,
                      ghost tail: seq<byte>, reused: seq<Completed>, chunkBytes: nat, stopAfter: Option<nat>)
      returns (progress: Progress, records: seq<TensorRecord>, ghost done: nat, ghost rest: seq<byte>)
    requires DistinctPlans(job.plans) && chunkBytes > 0 && (stopAfter.Some? ==> stopAfter.value > 0)
    requires disk.Valid() && Extending(job, disk.files, disk.lo, disk.hi, uuid, gaps, k, tail)
    requires GapPending(gaps[k], tail) && reused == CompletedUpTo(job, k)
    modifies disk
    ensures disk.Valid() && (disk.power.None? <==> old(disk.power).None?)
    ensures SameApartFromProgress(old(disk.files), disk.files)
    ensures progress != Lost ==>
      Extending(job, disk.files, disk.lo, disk.hi, uuid, gaps, done, rest) && GapPending(gaps[done], rest)
    ensures progress == All ==>
      && records == Records(job, |job.plans|) && done == |job.plans|
      && (stopAfter.Some? ==> k + stopAfter.value > |job.plans|)
    ensures progress == Limit ==> stopAfter.Some? && disk.Settled() && done == k + stopAfter.value
    ensures progress == Lost ==> disk.power.Some? && Resumable(job, disk.files, disk.lo, disk.hi, uuid, gaps)
  {
    LoopStarts(job, k);
    var loop;
    ghost var reached;
    progress, loop, done, rest, reached :=
      VisitAll(disk, job, uuid, gaps, k, Loop(reused, MapOf(reused), [], 0), tail, chunkBytes, stopAfter);
    records := loop.records;
    if progress == All {
      RoundsOver(job, disk.files, disk.lo, disk.hi, uuid, gaps, k, loop, done, rest);
    }
  }
}
