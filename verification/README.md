# K3X and GLM5X: protocols, caches and codecs in Dafny

Five parts of the repository whose claim is an equivalence or something that holds over every run, as Dafny 4.11 models
with proofs.

* **Crash-safe conversion** (`Bytes`, `Format`, `Reader`, `ShardLayout`, `ShardReadback`, `Disk`, `Shard`,
  `ShardChecks`, `ShardRun`, `ShardExtents`, `ShardFinish`, `ShardConvert`, `ShardRuns`, `Multi`). A disk object holds
  the partial file, ledger, output, sidecar, marker and source. Every operation on it may be the last one before the
  power goes; a restart finds the unsynced window of the partial file torn in any way at all. Over every number and
  placement of crashes, clean stops and chunk sizes the state stays recoverable, an uninterrupted run finishes, the
  finished file opens and reads back as the source, and no shard loses its source before its artifact is safe.
* **Speculative drafting** (`Scheduler`, `SchedulerRuns`, `SchedulerStall`, `Engine`, `Cursor`, `Providers`,
  `ProviderRuns`, `Speculative`, `ExpertPlan`, `BlockForward`, `Generation`, `ClosedLoop`, `ClosedLoopRuns`). The
  rung-climbing scheduler, the incremental cursor with its checkpoints and rollback, the replay and the persistent
  provider, both ways to verify a block, the layer-by-layer block with its expert plan, and the generation loop around
  them, which reports the work of that plan back to the scheduler. Tensor kernels are uninterpreted functions; whatever
  is drafted, what is generated is the greedy continuation.
* **Orders of execution** (`K3Model`, `TopK`, `MlaDsa`, `MlaPositions`, `ExpertMajor`). Layer by layer against token by
  token, chunks against the whole prompt, gathered keys against masked ones, batched experts against the sum per token.
  Tensor kernels are uninterpreted functions of one row; sums are exact.
* **Bounded caches** (`Lru`, `LruTraces`, `LruBatches`, `LruRuns`, `BalancedCache`, `PackedCache`,
  `PackedInterleaving`, `PackedHistory`). Byte budgets, what a run of reads leaves behind, protected entries, and
  agreement with the files behind a cache, also when the steps of concurrent gets and puts interleave.
* **Layouts and codecs** (`Reals`, `Hadamard`, `TurboQuant`, `Arithmetic`, `Stacking`, `BlockedScales`, `GroupedGemm`,
  `Mxfp4`, `Mxfp4Layout`, `Routing`). The rotation and its quantisation bound, the blocked layout of scale factors, the
  four-bit format of the OCP Microscaling Formats (MX) Specification v1.0 (sections 5.3.3 and 5.4.1), and the choice of
  how many experts a token uses.

Operations that change state are methods with loops and classes, each proved against a function of its inputs or its old
state; the properties over runs are lemmas about those functions. `dafny verify dfyconfig.toml` checks everything.

## Where the code does not do what one would expect

Each of these is proved: a condition for when the code does meet the expectation, or an input for which it does not.

* **Padding survives a resume.** Resuming truncates the partial file to the aligned end of the last ledgered extent, so
  bytes a crash left between the end of that extent and its alignment stay in the artifact. All checks accept it. A
  finished file is byte for byte the uninterrupted one exactly when that padding is zero (`ShardRuns.CompletedExactly`);
  `ShardRuns.TornPaddingStays` gives the crash.
* **The scheduler can stall.** A fully accepted proposal of one token that leaves survival below the threshold makes
  every later choice zero (`SchedulerRuns.StallIsForever`, `SchedulerRuns.CleanProbeCanStall`). Some run gets there
  exactly when the load ratio is limited at all or the survival threshold is above that of one success in as many trials
  as the counter takes (`SchedulerStall.StallsExactly`).
* **Empty drafts break a provider in expert-major verification.** The block reports its assignments for a proposal of
  length zero, the scheduler refuses such a report, and the provider then refuses every request
  (`ClosedLoop.EmptyBlockBreaks`). A generation fails exactly when such a round is not its last
  (`ClosedLoop.GenerateWithAurora`), which a rejected probe of one token brings about whenever enough tokens are to come
  (`ClosedLoopRuns.RejectedProbeFails`). For every prompt and target of two tokens or more some draft decoder makes it
  fail, exactly under the adaptive policy with expert-major blocks and four tokens or more asked for
  (`ClosedLoopRuns.FailsExactly`).
* **Row-scaled experts reach the batch unscaled.** The layer accepts 8-bit experts with scales in expert-major mode, but
  only its loop applies the scales. The modes agree exactly when the stored weights alone give the outputs of all experts
  that the router can bring into the batch (`ExpertMajor.ModesAgreeExactly`, `ExpertMajor.ReachesExactly`,
  `ExpertMajor.ScaledExpertsDisagree`).
* **Explicit positions.** A prompt may be cut between two lists of positions exactly when the first are all below the
  second (`MlaPositions.SplitExactly`); the default positions are.
* **Pinned sections are looked up by path alone.** A non-blocking get may decode sections of another file than the one
  it read, an older or a newer one. An answer is right exactly when no put replaced the payload between the reads of the
  two files (`PackedHistory.AnswersExactly`, `PackedInterleaving.StaleSectionsAnswer`,
  `PackedInterleaving.EarlySectionsAnswer`). Blocking gets are safe in every interleaving.
* **A stale host entry hides the current file** from every get of its digest: exactly when a put replaced the digest
  between the read and the insertion of the get that brought the entry (`PackedHistory.CurrentDigestStarts`,
  `PackedInterleaving.StaleHostHides`).
* **Batched reads break inclusion.** A larger payload cache can miss a key that a smaller one holds. Over all runs of
  batches of at most `b` experts this cannot happen exactly when `b` is at most the difference of their slots plus one,
  or the smaller cache has no slot, or both have equally many (`LruRuns.InclusionExactly`); serial reads are monotone.
* **Odd chunks lose codes.** With an odd number of elements per chunk and more than one chunk the four-bit encoder drops
  codes, pairs them wrongly, or fails on the shapes (`Mxfp4Layout.ChunkedExactly`). The default chunk is even.
* **The top scale byte.** A matrix decoded from scale byte 254 can be encoded again only if no element is beyond half
  the largest magnitude (`Mxfp4Layout.ReEncoding`).
* **Adaptive routing without mass.** With a mass target and a gap within the comparison tolerance and a floor below
  sixteen an adaptive choice can select experts without any score, and fails; otherwise never
  (`Routing.AdaptiveMassExactly`).

## Model

| member | source | states |
|---|---|---|
| Scheduler.Choose | runtime/src/aurora_scheduler.cpp:52-117 | every choice is zero or a rung no longer than the request, the maximum and the rejection cap, and keeps the state well formed |
| Scheduler.Learn | runtime/src/aurora_scheduler.cpp:119-198 | a report is accepted exactly when it is consistent and would overflow no 64-bit counter; a refused one changes nothing |
| Scheduler.AdaptiveDraftScheduler.Select | runtime/src/aurora_scheduler.cpp:52-117 | the method that scans the rungs downwards moves the object from one state to the next exactly as `Choose` says |
| Scheduler.AdaptiveDraftScheduler.Observe | runtime/src/aurora_scheduler.cpp:119-198 | the method with its counting loops moves the object exactly as `Learn` says, refusals included |
| SchedulerRuns.CountersOverAnyRun | runtime/src/aurora_scheduler.cpp:159-168 | after any run of selections and reports, trials and successes count exactly the accepted reports longer than, and accepted beyond, each position; both are non-increasing in position, successes never exceed trials, and per-rung loads never exceed assignments |
| SchedulerRuns.AdaptiveRunNeverSkips | runtime/src/aurora_scheduler.cpp:87-116 | in every closed-loop adaptive run no rung is observed or chosen before the one below it qualified, and the growth counter is min(rungs climbed, 2) |
| SchedulerRuns.RejectionShrinks | runtime/src/aurora_scheduler.cpp:174-178 | a partly rejected proposal is followed by a strictly shorter choice, whatever the next request |
| SchedulerRuns.RejectedProbePausesOnce | runtime/src/aurora_scheduler.cpp:62-85 | after a rejected proposal of one token the next two positive requests get 0 and then 1 |
| SchedulerRuns.StalledExactly | runtime/src/aurora_scheduler.cpp:91-116 | two empty answers in a row at full request happen exactly in the stalled states |
| SchedulerRuns.StallIsForever | runtime/src/aurora_scheduler.cpp:91-116 | a stalled scheduler chooses nothing in every later round of every run |
| SchedulerRuns.CleanProbeCanStall | runtime/src/aurora_scheduler.cpp:178-196 | a fully accepted first probe of one token stalls the scheduler for good exactly when the survival threshold is above 2/3 |
| SchedulerStall.StallsExactly | runtime/src/aurora_scheduler.cpp:52-198 | some closed-loop run of accepted reports stalls an adaptive scheduler exactly when the load ratio limit is below 1 or the survival threshold is above 2 / (2^64 + 1) |
| Engine.GenerateIncremental | runtime/src/model.cpp:1446-1486 | keeping the state from token to token gives the greedy continuation of the prompt, or fails when a prompt token is unknown |
| Engine.GenerateByReplay | runtime/src/model.cpp:1487-1509 | reading the whole sequence again for every token gives the same greedy continuation |
| Engine.GenerateGreedy | runtime/src/model.cpp:1431-1525 | both modes return the same tokens for every prompt and count, with the one difference at count zero and an unknown prompt token |
| Engine.GreedyPrefix | runtime/src/model.cpp:1471-1485 | a shorter continuation is a prefix of a longer one |
| Cursor.ReadExtends | runtime/src/model.cpp:70-71 | reading on only appends to the attention caches |
| Cursor.RestoreIsExact | runtime/src/model.cpp:1236-1271 | cropping the caches and copying the recurrent part of a checkpoint gives exactly the state the shorter context had |
| Cursor.IncrementalDraftCursor.Create | runtime/src/model.cpp:1290-1319 | a cursor stands for its context, or is refused when the context is empty or holds an unknown token |
| Cursor.IncrementalDraftCursor.Propose | runtime/src/model.cpp:1321-1356 | a proposal is the greedy continuation of the context of the requested length |
| Cursor.IncrementalDraftCursor.RollTo | runtime/src/model.cpp:1376-1392 | rolling back, or forward by one, leaves the state of the context plus the accepted prefix |
| Cursor.IncrementalDraftCursor.Commit | runtime/src/model.cpp:1358-1409 | a commit succeeds exactly on a matching accepted prefix and a known last token, and extends the context by the committed tokens; otherwise the cursor fails and its context stays |
| Providers.CheckUpdate | runtime/src/aurora.cpp:62-77 | the validity loop of an update accepts exactly the reports that answer the pending proposal |
| Providers.ReplayDraftProvider.Propose | runtime/src/aurora.cpp:112-174 | the replay provider moves as `ReplayPropose` says |
| Providers.ReplayDraftProvider.Update | runtime/src/aurora.cpp:176-194 | the replay provider moves as `ReplayUpdate` says |
| Providers.PersistentDraftProvider.EnsureCursor | runtime/src/aurora.cpp:259-272 | the cursor is created on the first non-empty draft, with the prompt and all generated tokens as its context |
| Providers.PersistentDraftProvider.Propose | runtime/src/aurora.cpp:239-309 | the persistent provider moves as `PersistentPropose` says and keeps its cursor in step |
| Providers.PersistentDraftProvider.Update | runtime/src/aurora.cpp:311-359 | the persistent provider moves as `PersistentUpdate` says and keeps its cursor in step |
| ProviderRuns.PersistentSimulatesReplay | runtime/src/aurora.cpp:112-359 | on every run of the same requests and verifications both providers give the same answers, and a cursor, once there, stands for prompt and expected tokens, or the lifecycle error is set |
| ProviderRuns.LifeCycle | runtime/src/aurora.cpp:112-194 | on every run proposals and accepted updates alternate, each update answers the proposal before it, and the expected tokens are the first request followed by everything committed |
| ProviderRuns.LifecycleErrorIsAbsorbing | runtime/src/aurora.cpp:114-121 | after a lifecycle error every later request is refused and nothing else changes |
| Speculative.VerifyGreedyDraft | runtime/src/speculative.cpp:24-72 | verification token by token accepts exactly the agreeing prefix and commits it with the next greedy token; the state ends where the commit says |
| Speculative.VerifyGreedyTargetBlock | runtime/src/speculative.cpp:74-112 | verification against precomputed target tokens commits the same |
| ExpertPlan.BuildPlan | runtime/src/expert_major.cpp:12-51 | a plan is made exactly when every token has a route without repeated experts; its groups have different experts, each holds the assignments of its expert in order, and every router slot of every token is in one of them |
| ExpertPlan.RunPlan | runtime/src/model.cpp:308-360 | running expert by expert over the groups leaves in every router slot the output of its expert for its token |
| ExpertPlan.LoadsBelowAssignments | runtime/src/model.cpp:285-303 | an expert is loaded at most once per assignment |
| ExpertPlan.GroupsAreExperts | runtime/src/expert_major.cpp:20-49 | a plan has exactly one group for every expert that some token uses |
| BlockForward.UpTheColumn | runtime/src/model.cpp:447-470 | a row goes up the layers token by token as the grid of layers and positions says |
| BlockForward.ReadIsGrid | runtime/src/model.cpp:438-476 | reading tokens one by one fills the grid of layers and positions column by column: states and logits after every position |
| BlockForward.Attend | runtime/src/model.cpp:173-197 | one layer over all positions keeps the state after each of them |
| BlockForward.FeedExperts | runtime/src/model.cpp:239-381 | the grouped mixture of a layer gives every position what its own mixture would be, and loads no more experts than it has assignments |
| BlockForward.ForwardExpertMajorBlock | runtime/src/model.cpp:133-417 | the block run layer by layer with a snapshot per position gives, after every position, the logits and the state of reading the tokens one by one, and the work of its plans; it fails exactly on no tokens, an unknown token or a route that cannot be planned |
| BlockForward.VerifyExpertMajorRound | runtime/src/model.cpp:1632-1700 | a round verified with that block reports what single steps of the decoder would have reported, leaves the state where they would have, and reports the loads and assignments of the plans of all layers |
| BlockForward.LoadBounds | runtime/src/model.cpp:285-303 | over all layers no more experts are loaded than assigned, at least one is assigned, and at most `topK` for every token and layer |
| Generation.VerifyRound | runtime/src/model.cpp:1632-1746 | both ways of verifying a round give the same report and the same state; the expert-major one also reports the work of the block that was run layer by layer |
| Generation.GenerateSpeculative | runtime/src/model.cpp:1527-1790 | with any draft source at all, in either way of verifying, a successful generation equals plain greedy generation; a failed one has produced a greedy prefix and stopped at an unacceptable proposal |
| Speculative.VerifiedIsGreedy | runtime/src/speculative.cpp:41-71 | whatever was proposed, what is committed is a non-empty piece of the greedy continuation |
| Speculative.RoundIsGreedy | runtime/src/model.cpp:1772-1775 | appending a committed block keeps the output a greedy continuation of the prompt |
| ClosedLoop.ProposalArrives | runtime/src/aurora.cpp:239-309 | a provider in step always answers, with at most the requested number of known tokens |
| ClosedLoop.SchedulerAccepts | runtime/src/aurora_scheduler.cpp:119-157 | while the counters stay below the 64-bit range every consistent report is accepted |
| ClosedLoop.UpdateLands | runtime/src/aurora.cpp:311-359 | an honest report leaves the provider in step with the extended output |
| ClosedLoop.EmptyBlockBreaks | runtime/src/aurora_scheduler.cpp:121-130 | an honest report breaks the provider exactly when an empty proposal was verified in an expert-major block that counted assignments |
| ClosedLoop.AuroraRound | runtime/src/model.cpp:1606-1776 | one round commits between one and draft length plus one tokens and breaks the provider exactly in the expert-major, empty-draft case |
| ClosedLoop.DecodeRounds | runtime/src/model.cpp:1606-1776 | the rounds after the first token are those of the course that iterates propose, verify and update, which is greedy throughout |
| ClosedLoop.TargetWorksSanely | runtime/src/model.cpp:280-306 | every block of a layered decoder reports between one and a fixed number of assignments, and no more loads |
| ClosedLoop.GenerateWithAurora | runtime/src/model.cpp:1527-1790 | generation with a persistent provider, in blocks run layer by layer with the work their planner counts, goes the way of its course and is greedy generation; token by token it always finishes, and in expert-major blocks it fails exactly when a round of the course that is not the last drafts nothing; the fixed policy never fails |
| ClosedLoopRuns.RejectedProbeFails | runtime/src/model.cpp:1606-1776 | at any point of an adaptive expert-major generation, a rejected probe of one token with three tokens or more to come makes it fail two tokens later |
| ClosedLoopRuns.FirstProbeFails | runtime/src/model.cpp:1606-1776 | a fresh adaptive provider whose first token is not the target's makes an expert-major generation of four tokens or more fail after three |
| ClosedLoopRuns.NeverFails | runtime/src/model.cpp:1606-1776 | a fixed policy, or verification token by token, never fails from any point of a run on |
| ClosedLoopRuns.ShortNeverFails | runtime/src/model.cpp:1606-1776 | an adaptive generation of up to three tokens never fails |
| ClosedLoopRuns.FailsExactly | runtime/src/model.cpp:1527-1790 | for any target of two tokens or more and any prompt, some draft decoder makes the generation fail exactly when blocks are expert-major, the policy is adaptive and four tokens or more are asked for |
| ClosedLoopRuns.DecoderFailsExactly | runtime/src/model.cpp:1527-1790 | the same for a layered decoder with the work its planner counts |
| Bytes.UnpackPack | converter/k3x_converter/format.py:87-89 | little-endian packing of fields that fit is undone by unpacking |
| Bytes.PackUnpack | converter/k3x_converter/format.py:111-116 | unpacking any bytes of the right length and packing again gives them back |
| Format.AlignUp | converter/k3x_converter/format.py:43-46 | the least multiple of the extent alignment that is not smaller |
| Format.TensorRoundTrip | converter/k3x_converter/format.py:158-195 | every encodable tensor record decodes to itself, but for a non-zero role or flags, which the decoder refuses |
| Format.TensorBytesRoundTrip | converter/k3x_converter/format.py:171-195 | every accepted tensor record encodes to the bytes it came from |
| Format.LayerRoundTrip | converter/k3x_converter/format.py:210-227 | every encodable layer record decodes to itself, but for unknown kinds or flags |
| Format.LayerBytesRoundTrip | converter/k3x_converter/format.py:218-227 | every accepted layer record encodes to the bytes it came from |
| Format.ExpertRoundTrip | converter/k3x_converter/format.py:241-256 | every encodable expert record decodes to itself, but for flags |
| Format.ExpertBytesRoundTrip | converter/k3x_converter/format.py:249-256 | every accepted expert record encodes to the bytes it came from |
| Format.DirectoryRoundTrip | converter/k3x_converter/format.py:259-274 | decoding an encoded directory gives its records |
| Format.DirectoryBytesRoundTrip | converter/k3x_converter/format.py:266-274 | encoding a decoded directory gives its bytes |
| Format.SuperblockRoundTrip | converter/k3x_converter/format.py:81-134 | every encodable superblock decodes to itself, but for required features |
| Format.SuperblockBytesRoundTrip | converter/k3x_converter/format.py:105-134 | every accepted superblock encodes to the bytes it came from |
| Format.RootDigestExcludesItself | converter/k3x_converter/format.py:300-315 | filling in the root digest does not change the root digest of the file |
| Format.ComputeRootSha | converter/k3x_converter/format.py:300-315 | the digest loop gives the same digest for every chunk size, and fails exactly on a short file |
| Format.NeighboursSuffice | converter/k3x_converter/format.py:294-297 | on sorted non-empty ranges, neighbours apart means all apart |
| Format.EmptyExtentsDoNotMatter | converter/k3x_converter/format.py:284-287 | empty extents never overlap anything |
| Format.OrderDecides | converter/k3x_converter/format.py:294-297 | the neighbour test on the sorted ranges decides disjointness of all extents |
| Format.ValidateExtentLayout | converter/k3x_converter/format.py:277-297 | accepts exactly the layouts whose extents are inside the file, aligned, and pairwise disjoint |
| Reader.OpenFile | converter/k3x_converter/reader.py:63-121 | the opening method accepts and returns exactly what `Open` does |
| Reader.VerifyPayloads | converter/k3x_converter/reader.py:96-105 | the checksum loop accepts exactly when every payload has its recorded checksums |
| Reader.K3XReader.ReadAll | converter/k3x_converter/reader.py:152-171 | the read loop returns the payload of every record, and fails exactly when one is outside the file |
| Reader.K3XReader.ReadTensorExtentsMany | converter/k3x_converter/reader.py:144-187 | a read succeeds exactly when the ids are distinct, everything is in the file and every payload has its checksum, whether it was verified before or not; ids stay verified once they are |
| ShardLayout.ExtentBytes | converter/glm5x_converter/shard.py:397-432 | in the file the converter builds, extent j lies at its canonical aligned offset and holds the source bytes |
| ShardLayout.Directories | converter/glm5x_converter/shard.py:237-278 | one layer record per layer and experts in order, with counts that add up |
| ShardReadback.PlannedLayout | converter/glm5x_converter/shard.py:471-476 | the canonical offsets are a valid layout exactly when all tensors are non-empty |
| ShardReadback.SealedFileReads | converter/glm5x_converter/shard.py:463-502 | the finished file has a readable superblock, the four sections where it says, and the digest it records |
| ShardReadback.FinishedFileOpens | converter/k3x_converter/reader.py:63-121 | a finished file passes every check of the reader exactly when all tensors are non-empty, and every tensor reads back as its source bytes |
| ShardReadback.GapsReadBack | converter/glm5x_converter/shard.py:403-405 | the padding between extents can be read back from the finished file |
| ShardReadback.AssembledIsConversion | converter/glm5x_converter/shard.py:463-502 | a finished file is determined by the source, the uuid and its padding |
| ShardReadback.CanonicalExactly | converter/glm5x_converter/shard.py:403-405 | a finished file is the uninterrupted one exactly when its padding is zero |
| Disk.EveryTear | converter/glm5x_converter/shard.py:413-416 | every outcome a crash may leave of an unsynced file is one of the modelled tears |
| Disk.Disk.Restart | converter/glm5x_converter/shard.py:361-374 | a restart finds the files, with the unsynced part of the partial file arbitrary |
| Shard.RecoverableIsAccepted | converter/glm5x_converter/shard.py:316-374 | from every recoverable state the checks before a run refuse nothing, but an output without a ledger |
| Shard.CrashIsRecoverable | converter/glm5x_converter/shard.py:361-432 | tearing any state a run can be in leaves a recoverable state; a clean tear keeps the padding zero |
| ShardChecks.ValidateResumeExtents | converter/glm5x_converter/shard.py:149-167 | the ledger loop computes exactly the refusal of the ledger |
| ShardChecks.CheckDisk | converter/glm5x_converter/shard.py:316-374 | the checks of a run, with their checksum loops, compute exactly `Refusal` |
| ShardChecks.AcceptedIsOwn | converter/glm5x_converter/shard.py:325-333 | an accepted ledger lists exactly the first extents of this very source |
| ShardChecks.AcceptedIsResumable | converter/glm5x_converter/shard.py:361-374 | an accepted ledger and partial file are a state to resume from, unless a checksum collides |
| ShardChecks.ResumableHasNoCollision | converter/glm5x_converter/shard.py:364-366 | between runs there is nothing a checksum could confuse |
| ShardRun.CopyChunks | converter/glm5x_converter/shard.py:408-412 | the copy loop appends the source bytes, whatever the chunk size, and survives a crash at any write |
| ShardRun.WriteExtent | converter/glm5x_converter/shard.py:402-432 | one extent is written, synced, read back and ledgered; a crash at any point leaves a resumable state |
| ShardExtents.WriteExtents | converter/glm5x_converter/shard.py:392-462 | the extent loop, from any ledger, ends with all records of the plan, at the stop limit, or in a resumable state |
| ShardFinish.Seal | converter/glm5x_converter/shard.py:494-502 | both superblock writes: the file is sealed, refused, or resumable after a crash |
| ShardFinish.FinishFile | converter/glm5x_converter/shard.py:463-502 | directories and superblock complete the file the layout prescribes; a crash leaves a resumable state |
| ShardFinish.PublishOutput | converter/glm5x_converter/shard.py:503-505 | replacing the output, writing the sidecar and removing the ledger; a crash between any two leaves a published state |
| ShardConvert.PublishedIsAccepted | converter/glm5x_converter/shard.py:339-348 | an output found beside its ledger passes the final checks |
| ShardConvert.ConvertShard | converter/glm5x_converter/shard.py:281-515 | one run from any settled files ends as stated for its start: refused, dry, stopped, finished, or crashed in a resumable or published state |
| ShardRuns.EncodableExactly | converter/glm5x_converter/shard.py:463-493 | whether a job can be finished depends only on its records fitting their fields, not on uuid or padding |
| ShardRuns.BetweenIsRecoverable | converter/glm5x_converter/shard.py:149-167 | between runs, ambiguous state, missing partial file, truncation, invalid extent and checksum mismatch are unreachable |
| ShardRuns.RunOnce | converter/glm5x_converter/shard.py:281-515 | a run from any reachable state leads to a reachable state of the same uuid, and an uninterrupted one finishes when the job can be finished |
| ShardRuns.RestartAndRun | converter/glm5x_converter/shard.py:281-515 | the same with a crash before it that tears the partial file in any way |
| ShardRuns.ConvertThroughCrashes | converter/glm5x_converter/shard.py:281-515 | over any number of runs and crashes from an untouched directory: every state is recoverable, uninterrupted runs finish, an output is a conversion of the source, and it is byte for byte the uninterrupted one when the tears left no garbage in the padding |
| ShardRuns.CompletedExactly | converter/glm5x_converter/shard.py:361-374 | a finished run is byte for byte the uninterrupted conversion exactly when the padding it inherited is zero |
| ShardRuns.TornPaddingStays | converter/glm5x_converter/shard.py:361-374 | a crash whose tear leaves garbage between two extents, and the resumed file that keeps it |
| Multi.ArtifactReport | converter/glm5x_converter/multi.py:35-68 | accepts exactly an output and sidecar of this shard with this source digest |
| Multi.DeletedReport | converter/glm5x_converter/multi.py:104-120 | accepts exactly a marker of this shard whose digest the output and sidecar carry |
| Multi.DeleteSource | converter/glm5x_converter/multi.py:179-186 | the source goes only after the output opened and the marker was written, with a crash possible at each step |
| Multi.ProcessShard | converter/glm5x_converter/multi.py:154-186 | a shard on record stays on record through its step; a source that disappears leaves an opened output and a marker, with no ledger |
| Multi.ConvertShards | converter/glm5x_converter/multi.py:123-195 | the loop over shards keeps every shard on record, reports completion only of finished shards, and fails only for a stated reason |
| Multi.OnRecordAfterCrash | converter/glm5x_converter/multi.py:154-186 | a crash between any two steps keeps a shard on record |
| Multi.FreshIsOnRecord | converter/glm5x_converter/multi.py:154-186 | untouched disks that hold their sources are on record |
| Multi.NoShardLost | converter/glm5x_converter/multi.py:104-120 | whenever the source of a shard on record is gone: output, sidecar and marker carry its digest, there is no ledger, every tensor reads back as its source bytes, and a rerun accepts the shard |
| Multi.ConvertAllThroughCrashes | converter/glm5x_converter/multi.py:123-195 | over any passes with crashes between any two steps all shards stay on record, and a last pass without crashes finishes every one |
| K3Model.Prefill | reference/k3x_ref/kda.py:144-157 | the loop over the rows is a fold of the one-row step |
| K3Model.StateAfter | reference/k3x_ref/mla.py:102-119 | after a prefill a KDA layer holds the last projections of its window and an MLA layer all projections, in order |
| K3Model.ScanIsPrefill | reference/k3x_ref/model.py:133-191 | a layer over all rows is the attention prefill of the normalised rows, merged back row by row |
| K3Model.LoopInterchange | reference/k3x_ref/model.py:129-194 | running all tokens layer by layer, with per-token residual sources, equals running the whole stack token by token, for outputs and states |
| K3Model.SplitRows | reference/k3x_ref/model.py:129-194 | the token-by-token run of a concatenation is the run of its parts with the states handed on |
| K3Model.RunLayers | reference/k3x_ref/model.py:128-191 | the layer loop gives the token-by-token result, and fails exactly on states of the wrong kind |
| K3Model.Forward | reference/k3x_ref/model.py:109-208 | a forward pass gives the reference result, and fails exactly on a wrong number or kind of states |
| K3Model.ChunksAgree | reference/k3x_ref/model.py:210-223 | prefill of a prompt in two calls equals one call |
| K3Model.AnyChunksAgree | reference/k3x_ref/model.py:210-223 | the same for every way to cut the prompt into chunks |
| K3Model.GenerateIncremental | reference/k3x_ref/model.py:236-244 | decoding with the state gives the greedy continuation |
| K3Model.GenerateFromScratch | reference/k3x_ref/model.py:246-252 | recomputing the prompt for every token gives the same continuation |
| K3Model.GenerateGreedy | reference/k3x_ref/model.py:225-252 | both modes return the same tokens for every prompt and count |
| TopK.SelectedByRank | reference/glm5x_ref/official_dsa.py:299-300 | whatever list a top-k call returns, it holds exactly the indices of rank below k |
| TopK.MaskedTail | reference/glm5x_ref/official_dsa.py:297-300 | appending masked entries changes no rank of an unmasked one |
| TopK.NeverAllMasked | reference/glm5x_ref/official_dsa.py:297-300 | when some entry is unmasked, one is selected |
| MlaDsa.SelectedExactly | reference/glm5x_ref/official_dsa.py:252-301 | a key is selected exactly when fewer than k keys come before it |
| MlaDsa.LaterKeysNotSelected | reference/glm5x_ref/official_dsa.py:297-300 | keys of later positions do not change which causal keys are selected |
| MlaDsa.SparseIsDense | reference/glm5x_ref/mla_dsa.py:174-234 | attention over the gathered keys equals attention over all keys with the others masked, when a causal key is selected |
| MlaDsa.NeverEmpty | reference/glm5x_ref/mla_dsa.py:323-330 | the selected and causal keys of a token are never empty |
| MlaDsa.PathsAgree | reference/glm5x_ref/mla_dsa.py:294-337 | the sparse and the dense path give the same row for every token of a run |
| MlaDsa.RowIgnoresLater | reference/glm5x_ref/mla_dsa.py:289-337 | keys of later positions change no row |
| MlaDsa.ChunksAgree | reference/glm5x_ref/mla_dsa.py:236-337 | for any positions, one call over a prompt and two calls with both states handed on leave the same states and give the same rows, except for tokens of the first part that are not ahead of the second |
| MlaPositions.SplitExactly | reference/glm5x_ref/mla_dsa.py:236-337 | a prompt splits between two lists of positions, whatever the layer, state and hidden rows, exactly when all the first are below all the second |
| MlaPositions.OutOfOrder | reference/glm5x_ref/mla_dsa.py:287-337 | a layer, and rows at any positions out of order, for which one call and two calls differ |
| MlaDsa.DefaultChunksAgree | reference/glm5x_ref/mla_dsa.py:253-256 | with the default positions the prompt may be split anywhere |
| MlaDsa.AnyChunksAgree | reference/glm5x_ref/mla_dsa.py:236-337 | however a prompt is cut into chunks, the rows and the final states are those of one prefill |
| ExpertMajor.AllExpertsCover | reference/glm5x_ref/layer10_moe.py:798-800 | the sum over the distinct experts of a token is the sum over its slots |
| ExpertMajor.PairsSum | reference/glm5x_ref/layer10_moe.py:861-865 | the assignments of one expert contribute exactly the slots that chose it |
| ExpertMajor.PaddingDropped | reference/glm5x_ref/layer10_moe.py:905-935 | padding rows of the batch never reach the output |
| ExpertMajor.RunLoop | reference/glm5x_ref/layer10_moe.py:791-847 | the loop over experts adds to each token the sum over its slots of weight times expert output |
| ExpertMajor.RunBatched | reference/glm5x_ref/layer10_moe.py:904-940 | the one batch of padded expert groups adds the weighted slot sum of the product of the stored weights, without their scales |
| ExpertMajor.RunExpertMajor | reference/glm5x_ref/layer10_moe.py:849-940 | the expert-major form adds the slot sum of the expert outputs in its packed and its plain branch, and of the unscaled products in the batched one, the branch chosen from the experts themselves |
| ExpertMajor.Call | reference/glm5x_ref/layer10_moe.py:942-968 | a call gives each token its routed sum plus the shared expert, scaled by one plus the dropped weights under the proxy, with the expert outputs its mode evaluates |
| ExpertMajor.CallsAgree | reference/glm5x_ref/layer10_moe.py:849-940 | both modes give a token the same output when no batch is formed, or the products of its own experts are their outputs |
| ExpertMajor.ModesAgreeExactly | reference/glm5x_ref/layer10_moe.py:760-940 | the modes agree on every prompt and every routing of different experts per token exactly when for every expert that the router can bring into the batch the product of its stored weights is its output |
| ExpertMajor.ReachesExactly | reference/glm5x_ref/layer10_moe.py:760-940 | with one routing group, an expert can reach the batch exactly when it is unpacked and as many unpacked experts as the mode evaluates have its shape |
| ExpertMajor.ScaledExpertsDisagree | reference/glm5x_ref/layer10_moe.py:711-724 | a layer of row-scaled 8-bit experts on which they do not, for every choice of different experts, with the two outputs |
| Lru.LruCache.Get | converter/glm5x_converter/bundle.py:65-73 | a hit returns the payload and makes it the most recent; counters follow |
| Lru.LruCache.Put | converter/glm5x_converter/bundle.py:75-89 | a put makes room from the oldest end and keeps the byte count exact and within capacity; too large a payload changes nothing |
| LruTraces.HoldsMostRecent | converter/glm5x_converter/bundle.py:65-89 | for payloads of one size read one at a time, the cache holds exactly the most recently used distinct keys, as many as fit |
| LruTraces.SlotsIsQuotient | converter/glm5x_converter/bundle.py:84-87 | as many as fit is capacity divided by payload size |
| LruTraces.LargerIsBetter | converter/glm5x_converter/bundle.py:45-89 | a larger cache contains what a smaller one holds and never has fewer hits, on every trace |
| LruTraces.ReadTrace | converter/glm5x_converter/bundle.py:204-205 | the reading loop with a cache object returns every payload unchanged and counts exactly those hits |
| LruBatches.BatchOfOne | converter/glm5x_converter/bundle.py:204-205 | a batch of one expert is a serial read |
| LruBatches.BatchFrom | converter/glm5x_converter/bundle.py:254-317 | after a batch of distinct experts any cache holds, as many as fit, its other keys, then the hits of the batch, then its misses |
| LruBatches.BatchOrder | converter/glm5x_converter/bundle.py:254-317 | after serial reads and a batch the other keys are in the order of their last reads |
| LruBatches.BatchIsSerial | converter/glm5x_converter/bundle.py:254-317 | a batch that fits leaves the same keys as serial reads of it |
| LruBatches.BatchKeepsInclusion | converter/glm5x_converter/bundle.py:254-317 | right after serial reads and one batch no larger than the slots of the larger cache that one holds what the smaller one does; later reads may end it |
| LruRuns.SerialIsTrace | converter/glm5x_converter/bundle.py:204-205 | a run of batches of one is a serial trace |
| LruRuns.RunKeepsInclusion | converter/glm5x_converter/bundle.py:242-317 | over every run of batches of at most the slot difference plus one keys, the larger cache always holds what the smaller one does and never has fewer hits |
| LruRuns.SameSlotsSameRun | converter/glm5x_converter/bundle.py:242-317 | caches of equally many slots hold the same after every run |
| LruRuns.BatchesBreakInclusion | converter/glm5x_converter/bundle.py:242-317 | for any two caches of different slots and any larger batch size there is a run that breaks inclusion |
| LruRuns.InclusionExactly | converter/glm5x_converter/bundle.py:242-317 | batches of at most b keys keep inclusion over every run exactly when b is at most the difference of the slots plus one, or the smaller cache has no slot, or both have equally many |
| BalancedCache.EvictFacts | reference/glm5x_ref/layer10_moe.py:173-196 | eviction ends, removes only unprotected entries, and stops exactly when the entry fits or nothing may go |
| BalancedCache.PutKeeps | reference/glm5x_ref/layer10_moe.py:162-208 | every put, a refused one too, keeps bytes within capacity, protected keys resident, at most the share protected per layer, and exactly the share in a layer with an unprotected entry |
| BalancedCache.RunKeeps | reference/glm5x_ref/layer10_moe.py:152-208 | so does every run of gets and puts |
| BalancedCache.ProtectedForever | reference/glm5x_ref/layer10_moe.py:181-195 | a key once protected stays protected and resident in every longer run |
| BalancedCache.ExpertTensorCache.MakeRoom | reference/glm5x_ref/layer10_moe.py:173-196 | the eviction loop of the object removes exactly what `Evict` says and keeps the byte count |
| BalancedCache.ExpertTensorCache.Put | reference/glm5x_ref/layer10_moe.py:162-208 | the object moves as `Put` says |
| BalancedCache.ExpertTensorCache.Get | reference/glm5x_ref/layer10_moe.py:152-160 | the object moves as a touch says, and counts hits and misses |
| PackedCache.GLM5XPackedExpertCache.Put | reference/glm5x_ref/packed_cache.py:376-404 | the sidecar is replaced and both layers forget it; both budgets hold |
| PackedCache.GLM5XPackedExpertCache.Find | reference/glm5x_ref/packed_cache.py:524-590 | a get through both layers gives exactly what the current sidecar would decode to, or fails as it would |
| PackedCache.GLM5XPackedExpertCache.Get | reference/glm5x_ref/packed_cache.py:524-594 | so does the whole get, whatever the layers hold, and it counts a hit exactly when it answers |
| PackedInterleaving.EveryRunIsSafe | reference/glm5x_ref/packed_cache.py:376-590 | with gets split into host lookup, read, decode, pinned insert and host insert, and any puts between them: both budgets hold, a blocking answer is a payload recorded under the digest asked for, and any other answer one recorded for the path |
| PackedInterleaving.QuietRunsAreRight | reference/glm5x_ref/packed_cache.py:376-590 | when no put hits a path that is being read, both layers always hold what the sidecars hold and every answer is of the digest asked for |
| PackedInterleaving.StaleSectionsAnswer | reference/glm5x_ref/packed_cache.py:559-580 | a run in which a non-blocking get answers a digest with a payload never recorded under it, after a put between the read and the insertion of an earlier get |
| PackedInterleaving.EarlySectionsAnswer | reference/glm5x_ref/packed_cache.py:559-580 | another one, after a put and a whole get between its own read and decode |
| PackedInterleaving.StaleHostHides | reference/glm5x_ref/packed_cache.py:526-557 | a run after which the host layer holds the old file and no get of the digest on disk passes the host lookup |
| PackedHistory.EveryRunIsTraced | reference/glm5x_ref/packed_cache.py:376-590 | in every run each cached entry is the file as it was when the get that inserted it read it, with no put since the insertion, and each answer has the digest of the file its get read and the payload of the file whose sections it decoded |
| PackedHistory.HostStaleExactly | reference/glm5x_ref/packed_cache.py:586-590 | in every run a host entry differs from the file on disk exactly when a put replaced the file between the read and the insertion of the get that brought the entry |
| PackedHistory.PinnedStaleExactly | reference/glm5x_ref/packed_cache.py:581-585 | the same for pinned payloads |
| PackedHistory.CurrentDigestStarts | reference/glm5x_ref/packed_cache.py:526-557 | in every run a get of the digest on disk passes the host lookup exactly when the host holds no entry of the path, or one whose digest no put replaced between the read and the insertion of the get that brought it |
| PackedHistory.AnswersExactly | reference/glm5x_ref/packed_cache.py:559-590 | in every run an answer is the payload of the file its get read exactly when no put replaced that payload between the two reads: of its own file, and of the file whose sections it decoded; for blocking gets they are one read |
| Hadamard.StrideLoop | reference/glm5x_ref/turboquant.py:33-46 | the stride loop computes the recursive Hadamard transform, for every power of two |
| Hadamard.PassWidens | reference/glm5x_ref/turboquant.py:39-45 | one pass of the loop joins neighbouring blocks into blocks of twice the width |
| Hadamard.TransformTwice | reference/glm5x_ref/turboquant.py:33-46 | transforming twice multiplies every lane by the width |
| Hadamard.TransformEnergy | reference/glm5x_ref/turboquant.py:33-46 | the transform multiplies the squared norm by the width |
| TurboQuant.RotationRoundTrip | reference/glm5x_ref/turboquant.py:56-74 | the inverse rotation of a rotated row is the row, for every width, padding and sign vector |
| TurboQuant.RotationEnergy | reference/glm5x_ref/turboquant.py:56-66 | rotation keeps the squared norm |
| TurboQuant.RestoredError | reference/glm5x_ref/turboquant.py:69-74 | an error in the rotated row comes back no larger in squared norm |
| TurboQuant.LaneError | reference/glm5x_ref/turboquant.py:221-222 | the code of a lane is in range and restores it within half a step |
| TurboQuant.DecodedLanes | reference/glm5x_ref/turboquant.py:216-222 | every code of a row is in range, and the squared error of the decoded row is at most the squared half steps |
| TurboQuant.QuantizationError | reference/glm5x_ref/turboquant.py:168-233 | the squared error of a restored row is at most the sum over its padded lanes of (scale / (2 qmax)) squared, rotated or not; at 16 bits the row is unchanged |
| BlockedScales.SourceBelow | reference/glm5x_ref/nvfp4.py:41-46 | exchanging the middle axes twice puts every position back |
| BlockedScales.TilesRoundTrip | reference/glm5x_ref/nvfp4.py:41-60 | the two directions of the layout undo each other on whole buffers, both ways |
| BlockedScales.Placed | reference/glm5x_ref/nvfp4.py:41-46 | element (r, c) of the padded buffer lands at ((r/128)*CB + c/4)*512 + (r%32)*16 + ((r%128)/32)*4 + c%4 |
| BlockedScales.PlaceIsOneToOne | reference/glm5x_ref/nvfp4.py:27-46 | no two elements share a place |
| BlockedScales.PlaceIsOnto | reference/glm5x_ref/nvfp4.py:27-46 | every position of the buffer is some element's place |
| BlockedScales.FillBlocked | reference/glm5x_ref/nvfp4.py:27-46 | the method that fills a zeroed buffer and exchanges its axes computes `ToBlocked` |
| BlockedScales.BlockedElement | reference/glm5x_ref/nvfp4.py:27-46 | every matrix element is at its place and every other place holds zero |
| BlockedScales.UnblockedElement | reference/glm5x_ref/nvfp4.py:49-60 | the length check accepts exactly the blocked size, and each element is read from its place |
| BlockedScales.BlockedRoundTrip | reference/glm5x_ref/nvfp4.py:27-60 | unblocking a blocked matrix gives it back, for all row and column counts |
| GroupedGemm.CombinedRow | reference/glm5x_ref/nvfp4_batched.py:64-79 | unblocking, stacking and blocking again shows each expert row the scales its own buffer shows it, even when rows are not a multiple of 128 |
| GroupedGemm.GroupedIsSingle | reference/glm5x_ref/nvfp4_batched.py:82-102 | entry [token, expert, out] of the grouped product is the entry of that expert alone, and the padding of the scale buffers never matters |
| GroupedGemm.GateUpSplits | reference/glm5x_ref/nvfp4_batched.py:135-151 | cutting the joint gate and up product gives the two grouped products |
| Mxfp4.NearestIsClose | reference/k3x_ref/mxfp4.py:81-86 | in range, the nearest element is within one |
| Mxfp4.ExponentIsLeast | reference/k3x_ref/mxfp4.py:62-69 | the group exponent is the least one that fits |
| Mxfp4.Rescaled | reference/k3x_ref/mxfp4.py:76-86 | an element under one scale is an element under every lower scale it fits |
| Mxfp4.GroupError | reference/k3x_ref/mxfp4.py:62-86 | every element is off by at most the group scale, and by less than a third of the group maximum when the exponent is not clamped |
| Mxfp4.MseIsNoWorse | reference/k3x_ref/mxfp4.py:87-103 | the mean-square mode never has a larger squared error than the largest-magnitude mode |
| Mxfp4.GroupIsStable | reference/k3x_ref/mxfp4.py:53-107 | encoding a decoded group in range loses nothing, in either mode |
| Mxfp4.DecodedInRange | reference/k3x_ref/mxfp4.py:67-68 | a decoded group is in range exactly when its scale byte is at most 253 or no element is beyond half the largest |
| Mxfp4Layout.UnpackPack | reference/k3x_ref/mxfp4.py:103-105 | splitting packed nibbles gives the codes back |
| Mxfp4Layout.PackUnpack | reference/k3x_ref/mxfp4.py:132-137 | packing the nibbles of any bytes gives the bytes back |
| Mxfp4Layout.DecodeEncode | reference/k3x_ref/mxfp4.py:110-144 | decoding an encoded matrix rounds every group under its own exponent |
| Mxfp4Layout.ReEncoding | reference/k3x_ref/mxfp4.py:53-144 | a decoded matrix is encoded again exactly when every group is in range, always when all scale bytes are at most 253, and then decodes to the same matrix |
| Mxfp4Layout.EvenChunks | reference/k3x_ref/mxfp4.py:72-107 | chunks of whole bytes make the bytes of one pass |
| Mxfp4Layout.ChunkedExactly | reference/k3x_ref/mxfp4.py:72-107 | encoding in chunks gives the bytes of one pass exactly when a chunk has an even number of elements or there is one chunk, but for one coincidence of four elements |
| Mxfp4Layout.EncodeChunks | reference/k3x_ref/mxfp4.py:70-107 | the chunk loop computes the joined chunks and scale bytes, or fails with the first chunk that does |
| Mxfp4Layout.EncodeMatrix | reference/k3x_ref/mxfp4.py:28-107 | the encoder with all its checks gives the payload of one pass whenever chunks are whole bytes or there is one |
| Routing.Choose | reference/k3x_ref/routing_policy.py:131-147 | the slot loop with its running sum computes the adaptive choice |
| Routing.LeastAdmissible | reference/k3x_ref/routing_policy.py:131-147 | the choice is the least ladder count at or above the floor meeting the mass, support and gap tests, else the natural one |
| Routing.ChoiceIsMonotone | reference/k3x_ref/routing_policy.py:131-150 | raising the floor, the mass target or the gap never lowers the choice |
| Routing.SelectedInRange | reference/k3x_ref/routing_policy.py:63-81 | under a valid policy every mode selects between one and the natural count, and never less than without the floor |
| Routing.DecisionIsPrefix | reference/k3x_ref/routing_policy.py:113-166 | the chosen experts are those of rank below the count in the stable order of the biased scores, best first, and their weights sum to one |
| Routing.EscalatedExactly | reference/k3x_ref/routing_policy.py:149-166 | the floor raises the count exactly when it is above what the policy alone would choose |
| Routing.WeightsAreShares | reference/k3x_ref/routing_policy.py:152-160 | the weight of a chosen expert times the sum of the chosen scores is its score |
| Routing.ZeroMassExactly | reference/k3x_ref/routing_policy.py:152-156 | an admitted request fails for zero selected mass exactly when the natural shares of the chosen experts sum to nothing |
| Routing.AdaptiveMassExactly | reference/k3x_ref/routing_policy.py:131-156 | some scores and biases make an adaptive policy fail for zero selected mass exactly when the mass target and the gap are within the tolerance and the floor is below sixteen |

## Left out

- ShardRuns.ConvertThroughCrashes: tensor ids are distinct and tensors non-empty, which shard.py does not check; replacing a file and syncing it are atomic and durable, and the source stays unchanged between runs.
- ShardConvert.ConvertShard: on files that no run has produced it asks that no checksum of a ledgered range collides; for every reachable state that is proved (`ShardChecks.ResumableHasNoCollision`).
- ShardRuns.BetweenIsRecoverable: a crash may leave any bytes in the unsynced window but never touches a synced extent; silent corruption of synced data is outside the model.
- Shard.RecoverableIsAccepted: the checks of the tensor manifest, the JSON text of ledger, sidecar and marker, and the safetensors header are taken as already parsed values.
- Reader.K3XReader.ReadTensorExtentsMany: the read counters, the lock, and the one-record read, which is the same with one record.
- Format.RootDigestExcludesItself: SHA-256, CRC32C and FNV-1a are arbitrary functions of the bytes.
- Scheduler.Choose: survival and cost ratios are exact fractions, not doubles.
- Providers.PersistentDraftProvider.Propose: failures of the decoder other than unknown tokens, of the reader or of its counters, and timing and read statistics, are left out; the cursor of a successful creation then never fails to propose.
- Engine.GenerateGreedy: the decoder is a function of token and state that only appends to its attention caches; diagnostics, sessions and backends are left out.
- Generation.GenerateSpeculative: option checks and the statistics of unique experts are left out; the router always has a usable choice, where the code also checks its scores.
- BlockForward.ForwardExpertMajorBlock: any number of KDA layers under one MLA layer, where the runtime insists on three; the batched expert call of the CUDA backend is the row function of the others.
- K3Model.Forward: one sequence instead of a batch; attention residuals, norms, projections and feed-forward layers are functions of one row.
- MlaDsa.SparseIsDense: masked scores have weight zero, where the code uses the least finite float; ties of equal scores go to the earlier key, which the library leaves open.
- ExpertMajor.Call: one output component at a time; how the router picks experts and weights, and how weights are loaded, are inputs. The batched product of 8-bit weights is taken at face value, where the library may refuse it.
- LruTraces.HoldsMostRecent: payloads of one size; `Lru.LruCache.Put` keeps its budget for any sizes.
- BalancedCache.ExpertTensorCache.Put: the plain policy is the one of `Lru.LruCache`; the lock is left out.
- PackedCache.GLM5XPackedExpertCache.Get: a payload decodes to itself; precision, roles, headers, CUDA events and devices are left out, and only the byte accounting of the pinned pool is kept.
- PackedInterleaving.EveryRunIsSafe: five steps per get (host lookup, read, decode, pinned insert, host insert) and one per put; the hit and miss counters are left out.
- TurboQuant.QuantizationError: exact reals, with an exact square root of the width as an input and an arbitrary sign vector; the float casts of the code and the paged cache around it are left out.
- GroupedGemm.GroupedIsSingle: the scaled matrix product is an arbitrary function of one activation row, one weight row and the scales found at their places; quantising activations and the CPU path are left out.
- Mxfp4.GroupError: exact reals in place of float32 logarithms, and the two zeros are one value.
- Mxfp4.MseIsNoWorse: sums of squares in place of means, which order the candidates the same way.
- Routing.AdaptiveMassExactly: the entropy and its exponential are an input, which is one for a single expert with all the mass.
- Resume in converter/k3x_converter/writer.py, which does not truncate before appending and so does not have these properties.
- Command-line tools, benchmarks, downloads, model descriptors, fixtures and activation export: validations of one branch, and input and output.
- CUDA, pinned memory, streams and thread scheduling beyond the interleavings of the packed cache.
