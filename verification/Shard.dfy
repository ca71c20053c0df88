/**
 Converting one safetensors shard into an extent artifact, resumable after a crash at any point.
 `Recoverable` is what every run leaves on the disk; `ConvertShard` says what a run does from there.
 */
module Shard {
  import opened Wrappers
  import opened Bytes
  import opened Format
  import opened Reader
  import opened ShardLayout
  import opened ShardReadback
  import opened Disk

  const CONVERTER_VERSION: string := "glm5x-shard-converter-0.1.0"
  const SIDECAR_FORMAT: string := "glm5x-bounded-shard-v1"

  /** How a run ended. `Crashed` is the machine going down in the middle of it. */
  datatype Outcome =
    | Finished(reused: seq<nat>)
    | Planned
    | Stopped(reused: seq<nat>)
    | Crashed
    | Refused(error: string)

  function CompletedOf(job: Job, i: nat): Completed
    requires i < |job.plans|
  {
    var p := job.plans[i];
    Completed(p.id, OffsetOf(job.plans, i), |p.data|, job.h.crc(p.data))
  }

  function CompletedUpTo(job: Job, k: nat): (c: seq<Completed>)
    requires k <= |job.plans|
    ensures |c| == k
    ensures forall i :: 0 <= i < k ==> c[i] == CompletedOf(job, i)
  {
    if k == 0 then [] else CompletedUpTo(job, k - 1) + [CompletedOf(job, k - 1)]
  }

  function LedgerOf(job: Job, uuid: Uuid, k: nat): Ledger
    requires k <= |job.plans|
  {
    Ledger(SourceSha(job), CONVERTER_VERSION, job.fingerprint, uuid, CompletedUpTo(job, k))
  }

  function NamesAndIds(plans: seq<Plan>): seq<(string, nat)> {
    seq(|plans|, i requires 0 <= i < |plans| => (plans[i].name, plans[i].id))
  }

  function SidecarOf(job: Job): Sidecar {
    Sidecar(SIDECAR_FORMAT, job.shardName, SourceSha(job), |job.plans|, NamesAndIds(job.plans))
  }

  // ----- What a disk between runs looks like -----

  /** Extent `i` is in the file, at its canonical offset, with its source bytes. */
  ghost predicate HeldAt(plans: seq<Plan>, bytes: seq<byte>, i: nat)
    requires i < |plans|
  {
    && OffsetOf(plans, i) + |plans[i].data| <= |bytes|
    && bytes[OffsetOf(plans, i)..OffsetOf(plans, i) + |plans[i].data|] == plans[i].data
  }

  ghost predicate ExtentsHeld(plans: seq<Plan>, bytes: seq<byte>, k: nat) {
    && k <= |plans|
    && EndOf(plans, k) <= |bytes|
    && forall i :: 0 <= i < k ==> HeldAt(plans, bytes, i)
  }

  /** A ledger that a run over this very source has written. */
  ghost predicate OwnLedger(job: Job, ledger: Ledger) {
    && |ledger.uuid| == 16
    && |ledger.completed| <= |job.plans|
    && ledger == LedgerOf(job, ledger.uuid, |ledger.completed|)
  }

  // ----- The gaps a resumed run inherits -----

  function GapOf(plans: seq<Plan>, bytes: seq<byte>, i: nat): (gap: seq<byte>)
    requires i <= |plans| && OffsetOf(plans, i) <= |bytes|
    ensures |gap| == OffsetOf(plans, i) - EndOf(plans, i)
  {
    bytes[EndOf(plans, i)..OffsetOf(plans, i)]
  }

  /** The gap before extent `i` in a run resumed with `k` extents: inherited up to `k`, zero after. */
  function InheritedGap(plans: seq<Plan>, bytes: seq<byte>, k: nat, i: nat): (gap: seq<byte>)
    requires k <= |plans| && i <= |plans|
    ensures |gap| == OffsetOf(plans, i) - EndOf(plans, i)
  {
    if i <= k then
      OffsetNotAfter(plans, i, k);
      GapOf(plans, Resized(bytes, OffsetOf(plans, k)), i)
    else Zeros(OffsetOf(plans, i) - EndOf(plans, i))
  }

  /** The gap bytes a run resumed with `k` extents will leave in the file. */
  function InheritedGaps(plans: seq<Plan>, bytes: seq<byte>, k: nat): (gaps: seq<seq<byte>>)
    requires k <= |plans|
    ensures GapsFit(plans, gaps)
    ensures forall i :: 0 <= i <= |plans| ==> gaps[i] == InheritedGap(plans, bytes, k, i)
  {
    seq(|plans| + 1, i requires 0 <= i <= |plans| => InheritedGap(plans, bytes, k, i))
  }

  lemma OffsetNotAfter(plans: seq<Plan>, i: nat, k: nat)
    requires i <= k <= |plans|
    ensures OffsetOf(plans, i) <= OffsetOf(plans, k)
  {
    if i < k {
      OffsetsGrow(plans, i, k);
    }
  }

  /**
   Everything the ledger lists is on stable storage in the partial file; a run that resumes here will
   leave `gaps` between the extents.
   */
  ghost predicate Resumable(job: Job, files: Files, lo: nat, hi: nat, uuid: Uuid, gaps: seq<seq<byte>>) {
    && files.ledger.Some? && files.ledger.value.Parsed?
    && OwnLedger(job, files.ledger.value.ledger) && files.ledger.value.ledger.uuid == uuid
    && files.output.None? && files.partial.Some?
    && var k := |files.ledger.value.ledger.completed|;
       var bytes := files.partial.value;
       && ExtentsHeld(job.plans, bytes, k)
       && lo <= SUPERBLOCK_BYTES && EndOf(job.plans, k) <= hi <= |bytes|
       && InheritedGaps(job.plans, bytes, k) == gaps
  }

  ghost predicate OutputIs(job: Job, files: Files, uuid: Uuid, gaps: seq<seq<byte>>) {
    && GapsFit(job.plans, gaps)
    && files.partial.None? && files.output.Some?
    && Assemble(job, uuid, gaps) == Success(files.output.value)
  }

  /** The output is published; the ledger is still there. */
  ghost predicate Published(job: Job, files: Files, uuid: Uuid, gaps: seq<seq<byte>>) {
    && files.ledger.Some? && files.ledger.value.Parsed?
    && OwnLedger(job, files.ledger.value.ledger) && files.ledger.value.ledger.uuid == uuid
    && OutputIs(job, files, uuid, gaps)
  }

  /** Nothing is left to do. */
  ghost predicate Done(job: Job, files: Files, uuid: Uuid, gaps: seq<seq<byte>>) {
    && files.ledger.None?
    && OutputIs(job, files, uuid, gaps)
    && files.sidecar == Some(SidecarOf(job))
  }

  ghost predicate Underway(job: Job, files: Files, lo: nat, hi: nat, uuid: Uuid, gaps: seq<seq<byte>>) {
    || Resumable(job, files, lo, hi, uuid, gaps)
    || Published(job, files, uuid, gaps)
    || Done(job, files, uuid, gaps)
  }

  /** Nothing usable is there yet; a stray partial file does not matter. */
  predicate Untouched(files: Files) {
    files.ledger.None? && files.output.None?
  }

  /** What every run leaves behind, however it ends. */
  ghost predicate Recoverable(job: Job, files: Files, lo: nat, hi: nat) {
    || Untouched(files)
    || (exists uuid: Uuid, gaps: seq<seq<byte>> :: Underway(job, files, lo, hi, uuid, gaps))
  }

  // ----- The checks of a resumed run -----

  /** The first entry of the ledger that is not the planned one, from entry `i` on. */
  function LedgerRefusal(job: Job, completed: seq<Completed>, i: nat, expected: nat): Option<string>
    requires i <= |completed| <= |job.plans|
    decreases |completed| - i
  {
    if i == |completed| then None
    else
      var item, p := completed[i], job.plans[i];
      if item.id != p.id || item.offset != expected || item.length != |p.data| || item.length == 0 then
        Some("INVALID_RESUME_EXTENT")
      else if item.crc != job.h.crc(p.data) then Some("RESUME_SOURCE_EXTENT_MISMATCH")
      else LedgerRefusal(job, completed, i + 1, AlignUp(item.offset + item.length))
  }

  /** The checksum of a range of the partial file; reading past its end fails. */
  function CrcAt(h: Hashes, bytes: seq<byte>, offset: nat, length: nat): Result<uint32> {
    if length == 0 then Success(h.crc([]))
    else if offset + length > |bytes| then Failure("TRUNCATED_FILE")
    else Success(h.crc(bytes[offset..offset + length]))
  }

  function PartialRefusal(h: Hashes, bytes: seq<byte>, completed: seq<Completed>, i: nat): Option<string>
    requires i <= |completed|
    decreases |completed| - i
  {
    if i == |completed| then
      var required := if i == 0 then SUPERBLOCK_BYTES else completed[i - 1].offset + completed[i - 1].length;
      if |bytes| < required then Some("TRUNCATED_FILE") else None
    else
      var item := completed[i];
      match CrcAt(h, bytes, item.offset, item.length)
      case Failure(error) => Some(error)
      case Success(crc) =>
        if crc != item.crc then Some("RESUME_EXTENT_CRC_MISMATCH") else PartialRefusal(h, bytes, completed, i + 1)
  }

  /** Why a run over these files is refused before it changes anything, if it is. */
  function Refusal(job: Job, files: Files): Option<string> {
    match files.ledger
    case None => if files.output.Some? then Some("OUTPUT_EXISTS") else None
    case Some(Corrupt) => Some("INVALID_RESUME_MANIFEST")
    case Some(Parsed(ledger)) =>
      if || ledger.source != SourceSha(job)
         || ledger.version != CONVERTER_VERSION
         || ledger.fingerprint != job.fingerprint
      then Some("RESUME_CONFIGURATION_MISMATCH")
      else if |ledger.uuid| != 16 then Some("INVALID_RESUME_MANIFEST")
      else if |ledger.completed| > |job.plans| then Some("INVALID_RESUME_EXTENT")
      else if LedgerRefusal(job, ledger.completed, 0, AlignUp(SUPERBLOCK_BYTES)).Some? then
        LedgerRefusal(job, ledger.completed, 0, AlignUp(SUPERBLOCK_BYTES))
      else if files.partial.Some? && files.output.Some? then Some("AMBIGUOUS_RESUME_STATE")
      else if files.partial.Some? then PartialRefusal(job.h, files.partial.value, ledger.completed, 0)
      else if files.output.None? then Some("MISSING_PARTIAL_FILE")
      else None
  }

  lemma {:induction false} OwnLedgerAccepted(job: Job, uuid: Uuid, k: nat, i: nat)
    requires i <= k <= |job.plans| && PositivePlans(job.plans)
    ensures LedgerRefusal(job, CompletedUpTo(job, k), i, OffsetOf(job.plans, i)).None?
    decreases k - i
  {
    if i < k {
      OwnLedgerAccepted(job, uuid, k, i + 1);
    }
  }

  lemma {:induction false} HeldExtentsAccepted(job: Job, bytes: seq<byte>, k: nat, i: nat)
    requires i <= k && ExtentsHeld(job.plans, bytes, k)
    ensures PartialRefusal(job.h, bytes, CompletedUpTo(job, k), i).None?
    decreases k - i
  {
    if i < k {
      HeldExtentsAccepted(job, bytes, k, i + 1);
      assert HeldAt(job.plans, bytes, i);
      assert bytes[OffsetOf(job.plans, i)..OffsetOf(job.plans, i)] == [];
    }
  }

  /** From every state a run can leave behind, only an already finished shard is refused. */
  lemma RecoverableIsAccepted(job: Job, files: Files, lo: nat, hi: nat)
    requires PositivePlans(job.plans) && Recoverable(job, files, lo, hi)
    ensures Refusal(job, files) ==
      if files.ledger.None? && files.output.Some? then Some("OUTPUT_EXISTS") else None
  {
    if files.ledger.Some? {
      var ledger := files.ledger.value.ledger;
      var k := |ledger.completed|;
      OwnLedgerAccepted(job, ledger.uuid, k, 0);
      if files.partial.Some? {
        HeldExtentsAccepted(job, files.partial.value, k, 0);
      }
    }
  }

  /** The gap before extent `i` is in the file. */
  ghost predicate GapAt(plans: seq<Plan>, bytes: seq<byte>, gaps: seq<seq<byte>>, i: nat)
    requires GapsFit(plans, gaps) && i <= |plans|
  {
    OffsetOf(plans, i) <= |bytes| && bytes[EndOf(plans, i)..OffsetOf(plans, i)] == gaps[i]
  }

  /** One more extent and the gap before it. */
  lemma HeldStep(plans: seq<Plan>, bytes: seq<byte>, gaps: seq<seq<byte>>, j: nat)
    requires j < |plans| && GapsFit(plans, gaps)
    requires EndOf(plans, j) <= |bytes|
    requires bytes[SUPERBLOCK_BYTES..EndOf(plans, j)] == Written(plans, gaps, j)[SUPERBLOCK_BYTES..]
    requires HeldAt(plans, bytes, j) && GapAt(plans, bytes, gaps, j)
    ensures EndOf(plans, j + 1) <= |bytes|
    ensures bytes[SUPERBLOCK_BYTES..EndOf(plans, j + 1)] == Written(plans, gaps, j + 1)[SUPERBLOCK_BYTES..]
  {
    var a, b, c := EndOf(plans, j), OffsetOf(plans, j), EndOf(plans, j + 1);
    assert bytes[SUPERBLOCK_BYTES..c] == bytes[SUPERBLOCK_BYTES..a] + bytes[a..b] + bytes[b..c];
    var w := Written(plans, gaps, j);
    assert (w + gaps[j] + plans[j].data)[SUPERBLOCK_BYTES..] == w[SUPERBLOCK_BYTES..] + gaps[j] + plans[j].data;
  }

  lemma {:induction false} HeldIsWritten(plans: seq<Plan>, bytes: seq<byte>, gaps: seq<seq<byte>>, k: nat)
    requires k <= |plans| && GapsFit(plans, gaps) && |bytes| >= SUPERBLOCK_BYTES
    requires forall i :: 0 <= i < k ==> HeldAt(plans, bytes, i) && GapAt(plans, bytes, gaps, i)
    ensures EndOf(plans, k) <= |bytes|
    ensures bytes[SUPERBLOCK_BYTES..EndOf(plans, k)] == Written(plans, gaps, k)[SUPERBLOCK_BYTES..]
  {
    if k == 0 {
      assert Written(plans, gaps, 0)[SUPERBLOCK_BYTES..] == [];
    } else {
      HeldIsWritten(plans, bytes, gaps, k - 1);
      HeldStep(plans, bytes, gaps, k - 1);
    }
  }

  lemma HeldAfterCut(plans: seq<Plan>, bytes: seq<byte>, k: nat)
    requires ExtentsHeld(plans, bytes, k)
    ensures ExtentsHeld(plans, Resized(bytes, OffsetOf(plans, k)), k)
  {
    var cut := Resized(bytes, OffsetOf(plans, k));
    forall i | 0 <= i < k
      ensures HeldAt(plans, cut, i)
    {
      assert HeldAt(plans, bytes, i);
      OffsetsGrow(plans, i, k);
    }
  }

  lemma CutGaps(plans: seq<Plan>, bytes: seq<byte>, k: nat)
    requires ExtentsHeld(plans, bytes, k)
    ensures var gaps := InheritedGaps(plans, bytes, k); var cut := Resized(bytes, OffsetOf(plans, k));
      && (forall i :: 0 <= i < k ==> HeldAt(plans, cut, i) && GapAt(plans, cut, gaps, i))
      && gaps[k] == cut[EndOf(plans, k)..]
  {
    var gaps := InheritedGaps(plans, bytes, k);
    var cut := Resized(bytes, OffsetOf(plans, k));
    HeldAfterCut(plans, bytes, k);
    forall i | 0 <= i <= k
      ensures GapAt(plans, cut, gaps, i)
    {
      OffsetNotAfter(plans, i, k);
    }
    assert GapAt(plans, cut, gaps, k);
  }

  /** Cutting the partial file to the next offset leaves exactly the extents and inherited gaps. */
  lemma CutIsWritten(plans: seq<Plan>, bytes: seq<byte>, k: nat)
    requires ExtentsHeld(plans, bytes, k)
    ensures var gaps := InheritedGaps(plans, bytes, k);
      Resized(bytes, OffsetOf(plans, k))[SUPERBLOCK_BYTES..] ==
      Written(plans, gaps, k)[SUPERBLOCK_BYTES..] + gaps[k]
  {
    var gaps := InheritedGaps(plans, bytes, k);
    var cut := Resized(bytes, OffsetOf(plans, k));
    CutGaps(plans, bytes, k);
    HeldIsWritten(plans, cut, gaps, k);
    SplitTail(cut, SUPERBLOCK_BYTES, EndOf(plans, k));
  }

  lemma SplitTail(b: seq<byte>, from: nat, middle: nat)
    requires from <= middle <= |b|
    ensures b[from..] == b[from..middle] + b[middle..]
  {
  }

  // ----- A partial file that is being extended -----

  /**
   `k` extents are ledgered; behind the last one the file goes on with `tail`, which is nothing yet or
   starts with the next gap. All gaps still to be written are zero.
   */
  ghost predicate Extending(job: Job, files: Files, lo: nat, hi: nat, uuid: Uuid, gaps: seq<seq<byte>>, k: nat,
                            tail: seq<byte>) {
    && k <= |job.plans| && GapsFit(job.plans, gaps)
    && files.ledger == Some(Parsed(LedgerOf(job, uuid, k)))
    && files.output.None? && files.partial.Some?
    && |files.partial.value| >= SUPERBLOCK_BYTES
    && files.partial.value[SUPERBLOCK_BYTES..] == Written(job.plans, gaps, k)[SUPERBLOCK_BYTES..] + tail
    && lo <= SUPERBLOCK_BYTES && EndOf(job.plans, k) <= hi <= |files.partial.value|
    && ZeroAfter(job.plans, gaps, k)
    && (gaps[k] <= tail || (tail == [] && AllZero(gaps[k])))
  }

  ghost predicate ZeroAfter(plans: seq<Plan>, gaps: seq<seq<byte>>, k: nat)
    requires GapsFit(plans, gaps)
  {
    forall i :: k < i <= |plans| ==> AllZero(gaps[i])
  }

  lemma WrittenIsHeld(plans: seq<Plan>, bytes: seq<byte>, gaps: seq<seq<byte>>, k: nat, tail: seq<byte>, i: nat)
    requires i < k <= |plans| && GapsFit(plans, gaps) && |bytes| >= SUPERBLOCK_BYTES
    requires bytes[SUPERBLOCK_BYTES..] == Written(plans, gaps, k)[SUPERBLOCK_BYTES..] + tail
    ensures HeldAt(plans, bytes, i) && GapAt(plans, bytes, gaps, i)
  {
    ExtentBytes(plans, gaps, i, k);
    var w := Written(plans, gaps, k);
    SameBytes(bytes, w, tail, OffsetOf(plans, i), EndOf(plans, i + 1));
    SameBytes(bytes, w, tail, EndOf(plans, i), OffsetOf(plans, i));
  }

  lemma SameBytes(bytes: seq<byte>, w: seq<byte>, tail: seq<byte>, lo: nat, hi: nat)
    requires |bytes| >= SUPERBLOCK_BYTES && |w| >= SUPERBLOCK_BYTES
    requires bytes[SUPERBLOCK_BYTES..] == w[SUPERBLOCK_BYTES..] + tail
    requires SUPERBLOCK_BYTES <= lo <= hi <= |w|
    ensures |bytes| == |w| + |tail| && bytes[lo..hi] == w[lo..hi]
  {
    var rest := bytes[SUPERBLOCK_BYTES..];
    assert |rest| == |bytes| - SUPERBLOCK_BYTES;
    assert bytes[lo..hi] == rest[lo - SUPERBLOCK_BYTES..hi - SUPERBLOCK_BYTES];
    assert w[lo..hi] == w[SUPERBLOCK_BYTES..][lo - SUPERBLOCK_BYTES..hi - SUPERBLOCK_BYTES];
  }

  /** The gap a resumed run would inherit before extent `k` itself. */
  lemma NextGap(plans: seq<Plan>, bytes: seq<byte>, gap: seq<byte>, w: seq<byte>, k: nat, tail: seq<byte>)
    requires k <= |plans| && |w| == EndOf(plans, k) && |gap| == OffsetOf(plans, k) - EndOf(plans, k)
    requires |bytes| >= SUPERBLOCK_BYTES && bytes[SUPERBLOCK_BYTES..] == w[SUPERBLOCK_BYTES..] + tail
    requires gap <= tail || (tail == [] && AllZero(gap))
    ensures InheritedGap(plans, bytes, k, k) == gap
  {
    var a, b := EndOf(plans, k), OffsetOf(plans, k);
    assert |bytes| == a + |tail|;
    var rest := bytes[SUPERBLOCK_BYTES..];
    assert bytes[a..] == rest[a - SUPERBLOCK_BYTES..] == tail;
    var cut := Resized(bytes, b);
    if gap <= tail {
      assert cut[a..b] == bytes[a..][..|gap|];
    } else {
      assert cut[a..b] == Zeros(b - a);
      AllZeroIsZeros(gap);
    }
  }

  /** At every step the disk is as good as a finished run that stopped there. */
  lemma ExtendingIsResumable(job: Job, files: Files, lo: nat, hi: nat, uuid: Uuid, gaps: seq<seq<byte>>, k: nat,
                             tail: seq<byte>)
    requires Extending(job, files, lo, hi, uuid, gaps, k, tail)
    ensures Resumable(job, files, lo, hi, uuid, gaps)
  {
    var plans, bytes := job.plans, files.partial.value;
    var w := Written(plans, gaps, k);
    SameBytes(bytes, w, tail, |w|, |w|);
    forall i | 0 <= i < k
      ensures HeldAt(plans, bytes, i)
    {
      WrittenIsHeld(plans, bytes, gaps, k, tail, i);
    }
    forall i | 0 <= i <= |plans|
      ensures InheritedGap(plans, bytes, k, i) == gaps[i]
    {
      ExtendingGap(plans, bytes, gaps, k, tail, i);
    }
    assert InheritedGaps(plans, bytes, k) == gaps;
  }

  lemma ExtendingGap(plans: seq<Plan>, bytes: seq<byte>, gaps: seq<seq<byte>>, k: nat, tail: seq<byte>, i: nat)
    requires i <= |plans| && k <= |plans| && GapsFit(plans, gaps) && |bytes| >= SUPERBLOCK_BYTES
    requires bytes[SUPERBLOCK_BYTES..] == Written(plans, gaps, k)[SUPERBLOCK_BYTES..] + tail
    requires ZeroAfter(plans, gaps, k)
    requires gaps[k] <= tail || (tail == [] && AllZero(gaps[k]))
    ensures InheritedGap(plans, bytes, k, i) == gaps[i]
  {
    if i < k {
      WrittenIsHeld(plans, bytes, gaps, k, tail, i);
      OffsetsGrow(plans, i, k);
      OffsetNotAfter(plans, i, k);
      var cut := Resized(bytes, OffsetOf(plans, k));
      assert cut[EndOf(plans, i)..OffsetOf(plans, i)] == bytes[EndOf(plans, i)..OffsetOf(plans, i)];
    } else if i == k {
      NextGap(plans, bytes, gaps[k], Written(plans, gaps, k), k, tail);
    } else {
      AllZeroIsZeros(gaps[i]);
    }
  }

  // ----- Restarting -----

  /** What the crash did to the bytes between the last ledgered extent and the next offset. */
  ghost predicate CleanTear(job: Job, files: Files, torn: Option<seq<byte>>) {
    files.ledger.Some? && files.ledger.value.Parsed? && torn.Some? ==>
      var k := |files.ledger.value.ledger.completed|;
      k <= |job.plans| ==> AllZero(InheritedGap(job.plans, torn.value, k, k))
  }

  lemma TearKeepsHeld(plans: seq<Plan>, bytes: seq<byte>, torn: seq<byte>, lo: nat, hi: nat, k: nat, i: nat)
    requires i < k && ExtentsHeld(plans, bytes, k)
    requires lo <= SUPERBLOCK_BYTES && EndOf(plans, k) <= hi <= |bytes|
    requires hi <= |torn| && torn[lo..hi] == bytes[lo..hi]
    ensures HeldAt(plans, torn, i)
  {
    assert HeldAt(plans, bytes, i);
    EndNotAfter(plans, i + 1, k);
    SliceOfSlice(torn, bytes, lo, hi, OffsetOf(plans, i), EndOf(plans, i + 1));
  }

  lemma TearKeepsGap(plans: seq<Plan>, bytes: seq<byte>, torn: seq<byte>, lo: nat, hi: nat, k: nat, i: nat)
    requires i < k <= |plans|
    requires lo <= SUPERBLOCK_BYTES && EndOf(plans, k) <= hi <= |bytes|
    requires hi <= |torn| && torn[lo..hi] == bytes[lo..hi]
    ensures InheritedGap(plans, torn, k, i) == InheritedGap(plans, bytes, k, i)
  {
    OffsetBeforeEnd(plans, i, k);
    SameResized(torn, bytes, lo, hi, OffsetOf(plans, k), EndOf(plans, i), OffsetOf(plans, i));
  }

  lemma OffsetBeforeEnd(plans: seq<Plan>, i: nat, k: nat)
    requires i < k <= |plans|
    ensures OffsetOf(plans, i) <= EndOf(plans, k) <= OffsetOf(plans, k)
  {
    EndNotAfter(plans, i + 1, k);
  }

  lemma SameResized(x: seq<byte>, y: seq<byte>, lo: nat, hi: nat, end: nat, a: nat, b: nat)
    requires lo <= a <= b <= hi <= |x| && hi <= |y| && x[lo..hi] == y[lo..hi] && b <= end
    ensures Resized(x, end)[a..b] == Resized(y, end)[a..b]
  {
    SliceOfSlice(x, y, lo, hi, a, b);
    ResizedSlice(x, end, a, b);
    ResizedSlice(y, end, a, b);
  }

  lemma ResizedSlice(x: seq<byte>, end: nat, a: nat, b: nat)
    requires a <= b <= |x| && b <= end
    ensures Resized(x, end)[a..b] == x[a..b]
  {
  }

  lemma SliceOfSlice(x: seq<byte>, y: seq<byte>, lo: nat, hi: nat, a: nat, b: nat)
    requires lo <= a <= b <= hi <= |x| && hi <= |y| && x[lo..hi] == y[lo..hi]
    ensures x[a..b] == y[a..b]
  {
    forall i | a <= i < b
      ensures x[i] == y[i]
    {
      assert x[lo..hi][i - lo] == y[lo..hi][i - lo];
    }
  }

  lemma {:induction false} EndNotAfter(plans: seq<Plan>, i: nat, k: nat)
    requires i <= k <= |plans|
    ensures EndOf(plans, i) <= EndOf(plans, k)
  {
    if i < k {
      EndNotAfter(plans, i, k - 1);
    }
  }

  /**
   A crash costs nothing that was ledgered: whatever it leaves in the partial file, the same run can go
   on. Only the gap right behind the last ledgered extent may have changed.
   */
  lemma CrashIsRecoverable(job: Job, files: Files, lo: nat, hi: nat, uuid: Uuid, gaps: seq<seq<byte>>,
                           torn: Option<seq<byte>>) returns (after: seq<seq<byte>>)
    requires Underway(job, files, lo, hi, uuid, gaps) && Torn(files.partial, lo, hi, torn)
    ensures var up := if torn.Some? then |torn.value| else 0;
      Underway(job, files.(partial := torn), 0, up, uuid, after)
    ensures gaps == ZeroGaps(job.plans) && CleanTear(job, files, torn) ==> after == ZeroGaps(job.plans)
  {
    if !Resumable(job, files, lo, hi, uuid, gaps) {
      after := gaps;
      return;
    }
    var k := |files.ledger.value.ledger.completed|;
    TornIsHeld(job.plans, files.partial.value, torn.value, lo, hi, k);
    after := InheritedGaps(job.plans, torn.value, k);
    if gaps == ZeroGaps(job.plans) && CleanTear(job, files, torn) {
      TornGapsClean(job.plans, torn.value, gaps, after, k);
    }
  }

  lemma TornIsHeld(plans: seq<Plan>, bytes: seq<byte>, torn: seq<byte>, lo: nat, hi: nat, k: nat)
    requires ExtentsHeld(plans, bytes, k)
    requires lo <= SUPERBLOCK_BYTES && EndOf(plans, k) <= hi <= |bytes|
    requires hi <= |torn| && torn[lo..hi] == bytes[lo..hi]
    ensures ExtentsHeld(plans, torn, k)
    ensures forall i :: 0 <= i < k ==> InheritedGaps(plans, torn, k)[i] == InheritedGaps(plans, bytes, k)[i]
  {
    forall i | 0 <= i < k
      ensures HeldAt(plans, torn, i) && InheritedGaps(plans, torn, k)[i] == InheritedGaps(plans, bytes, k)[i]
    {
      TearKeepsHeld(plans, bytes, torn, lo, hi, k, i);
      TearKeepsGap(plans, bytes, torn, lo, hi, k, i);
    }
  }

  lemma TornGapsClean(plans: seq<Plan>, torn: seq<byte>, gaps: seq<seq<byte>>, after: seq<seq<byte>>, k: nat)
    requires k <= |plans| && gaps == ZeroGaps(plans)
    requires after == InheritedGaps(plans, torn, k)
    requires AllZero(after[k])
    requires forall i :: 0 <= i < k ==> after[i] == gaps[i]
    ensures after == ZeroGaps(plans)
  {
    forall i | 0 <= i <= |plans|
      ensures after[i] == gaps[i]
    {
      if i == k {
        AllZeroIsZeros(after[k]);
      } else if i > k {
        assert after[i] == InheritedGap(plans, torn, k, i);
      }
    }
  }
}
