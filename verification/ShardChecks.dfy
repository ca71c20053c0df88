/** The checks a run makes before it touches the disk, loop by loop, against `Refusal`. */
module ShardChecks {
  import opened Wrappers
  import opened Bytes
  import opened Format
  import opened Reader
  import opened ShardLayout
  import opened ShardReadback
  import opened Disk
  import opened Shard

  /** The checksum of a range of a file, read in chunks of at most `chunkBytes`. */
  method CrcOfRange(h: Hashes, bytes: seq<byte>, offset: nat, length: nat, chunkBytes: nat) returns (r: Result<uint32>)
    requires chunkBytes > 0
    ensures r == CrcAt(h, bytes, offset, length)
  {
    var seen: seq<byte> := [];
    var remaining := length;
    while remaining > 0
      invariant 0 <= remaining && |seen| == length - remaining
      invariant seen == [] || (offset + |seen| <= |bytes| && seen == bytes[offset..offset + |seen|])
    {
      var position := offset + |seen|;
      var wanted := if chunkBytes < remaining then chunkBytes else remaining;
      var end := if position + wanted < |bytes| then position + wanted else |bytes|;
      var chunk := if position < end then bytes[position..end] else [];
      if chunk == [] {
        return Failure("TRUNCATED_FILE");
      }
      SlicesJoin(bytes, offset, position, end);
      seen := seen + chunk;
      remaining := remaining - |chunk|;
    }
    return Success(h.crc(seen));
  }

  lemma SlicesJoin(bytes: seq<byte>, a: nat, b: nat, c: nat)
    requires a <= b <= c <= |bytes|
    ensures bytes[a..b] + bytes[b..c] == bytes[a..c]
  {
  }

  method ValidateResumeExtents(job: Job, completed: seq<Completed>) returns (refusal: Option<string>)
    ensures refusal == if |completed| > |job.plans| then Some("INVALID_RESUME_EXTENT")
                       else LedgerRefusal(job, completed, 0, AlignUp(SUPERBLOCK_BYTES))
  {
    if |completed| > |job.plans| {
      return Some("INVALID_RESUME_EXTENT");
    }
    var expected := AlignUp(SUPERBLOCK_BYTES);
    for i := 0 to |completed|
      invariant LedgerRefusal(job, completed, 0, AlignUp(SUPERBLOCK_BYTES)) == LedgerRefusal(job, completed, i, expected)
    {
      var item, p := completed[i], job.plans[i];
      if item.id != p.id || item.offset != expected || item.length != |p.data| || item.length == 0 {
        return Some("INVALID_RESUME_EXTENT");
      }
      if item.crc != job.h.crc(p.data) {
        return Some("RESUME_SOURCE_EXTENT_MISMATCH");
      }
      expected := AlignUp(item.offset + item.length);
    }
    return None;
  }

  /** Where the last ledgered extent ends. */
  function LedgerEnd(completed: seq<Completed>): nat {
    if completed == [] then SUPERBLOCK_BYTES
    else completed[|completed| - 1].offset + completed[|completed| - 1].length
  }

  /** Reads every ledgered extent back; also yields where the file has to be cut. */
  method CheckPartial(h: Hashes, bytes: seq<byte>, completed: seq<Completed>, chunkBytes: nat)
      returns (refusal: Option<string>, expectedEnd: nat)
    requires chunkBytes > 0
    ensures refusal == PartialRefusal(h, bytes, completed, 0)
    ensures refusal.None? ==>
      expectedEnd == AlignUp(LedgerEnd(completed))
  {
    expectedEnd := AlignUp(SUPERBLOCK_BYTES);
    var requiredEnd := SUPERBLOCK_BYTES;
    for i := 0 to |completed|
      invariant PartialRefusal(h, bytes, completed, 0) == PartialRefusal(h, bytes, completed, i)
      invariant requiredEnd == if i == 0 then SUPERBLOCK_BYTES else completed[i - 1].offset + completed[i - 1].length
      invariant expectedEnd == AlignUp(requiredEnd)
    {
      var item := completed[i];
      var crc := CrcOfRange(h, bytes, item.offset, item.length, chunkBytes);
      if crc.Failure? {
        return Some(crc.error), expectedEnd;
      }
      if crc.value != item.crc {
        return Some("RESUME_EXTENT_CRC_MISMATCH"), expectedEnd;
      }
      requiredEnd := item.offset + item.length;
      expectedEnd := AlignUp(item.offset + item.length);
    }
    if |bytes| < requiredEnd {
      return Some("TRUNCATED_FILE"), expectedEnd;
    }
    return None, expectedEnd;
  }

  /** All of them; `end` is where a resumed partial file is cut. */
  method CheckDisk(job: Job, files: Files, chunkBytes: nat) returns (refusal: Option<string>, end: nat)
    requires chunkBytes > 0
    ensures refusal == Refusal(job, files)
    ensures refusal.None? && files.ledger.Some? && files.partial.Some? ==>
      end == AlignUp(LedgerEnd(files.ledger.value.ledger.completed))
  {
    end := 0;
    if files.output.Some? && files.ledger.None? {
      return Some("OUTPUT_EXISTS"), 0;
    }
    if files.ledger.None? {
      return None, 0;
    }
    if files.ledger.value.Corrupt? {
      return Some("INVALID_RESUME_MANIFEST"), 0;
    }
    var ledger := files.ledger.value.ledger;
    if || ledger.source != SourceSha(job)
       || ledger.version != CONVERTER_VERSION
       || ledger.fingerprint != job.fingerprint
    {
      return Some("RESUME_CONFIGURATION_MISMATCH"), 0;
    }
    if |ledger.uuid| != 16 {
      return Some("INVALID_RESUME_MANIFEST"), 0;
    }
    refusal := ValidateResumeExtents(job, ledger.completed);
    if refusal.Some? {
      return;
    }
    if files.partial.Some? && files.output.Some? {
      return Some("AMBIGUOUS_RESUME_STATE"), 0;
    }
    if files.partial.None? {
      return if files.output.None? then Some("MISSING_PARTIAL_FILE") else None, 0;
    }
    refusal, end := CheckPartial(job.h, files.partial.value, ledger.completed, chunkBytes);
  }

  // ----- What passing the checks means -----

  /** Bytes with the checksum of a ledgered extent are that extent. */
  ghost predicate NoCollision(job: Job, files: Files) {
    files.ledger.Some? && files.ledger.value.Parsed? && files.partial.Some? ==>
      CrcTellsApart(job, files.partial.value, |files.ledger.value.ledger.completed|)
  }

  ghost predicate CrcTellsApart(job: Job, bytes: seq<byte>, k: nat) {
    forall i :: 0 <= i < k && i < |job.plans| && OffsetOf(job.plans, i) + |job.plans[i].data| <= |bytes| ==>
      CrcDecides(job, bytes, i)
  }

  ghost predicate CrcDecides(job: Job, bytes: seq<byte>, i: nat)
    requires i < |job.plans| && OffsetOf(job.plans, i) + |job.plans[i].data| <= |bytes|
  {
    var held := bytes[OffsetOf(job.plans, i)..OffsetOf(job.plans, i) + |job.plans[i].data|];
    job.h.crc(held) == job.h.crc(job.plans[i].data) ==> held == job.plans[i].data
  }

  lemma {:induction false} AcceptedEntries(job: Job, completed: seq<Completed>, i: nat, j: nat)
    requires i <= j < |completed| <= |job.plans|
    requires LedgerRefusal(job, completed, i, OffsetOf(job.plans, i)).None?
    ensures completed[j] == CompletedOf(job, j) && job.plans[j].data != []
    decreases j - i
  {
    if i < j {
      AcceptedEntries(job, completed, i + 1, j);
    }
  }

  lemma {:induction false} AcceptedCrc(h: Hashes, bytes: seq<byte>, completed: seq<Completed>, i: nat, j: nat)
    requires i <= j < |completed| && PartialRefusal(h, bytes, completed, i).None?
    ensures CrcAt(h, bytes, completed[j].offset, completed[j].length) == Success(completed[j].crc)
    decreases j - i
  {
    if i < j {
      AcceptedCrc(h, bytes, completed, i + 1, j);
    }
  }

  lemma CheckedRange(h: Hashes, bytes: seq<byte>, offset: nat, data: seq<byte>)
    requires data != [] && CrcAt(h, bytes, offset, |data|) == Success(h.crc(data))
    ensures offset + |data| <= |bytes| && h.crc(bytes[offset..offset + |data|]) == h.crc(data)
  {
  }

  lemma AcceptedCheck(job: Job, bytes: seq<byte>, k: nat, j: nat, item: Completed)
    requires j < k <= |job.plans| && item == CompletedOf(job, j)
    requires PartialRefusal(job.h, bytes, CompletedUpTo(job, k), 0).None?
    ensures CrcAt(job.h, bytes, item.offset, item.length) == Success(item.crc)
  {
    AcceptedCrc(job.h, bytes, CompletedUpTo(job, k), 0, j);
  }

  lemma AcceptedBytes(job: Job, bytes: seq<byte>, k: nat, j: nat)
    requires j < k <= |job.plans| && CrcTellsApart(job, bytes, k)
    requires PartialRefusal(job.h, bytes, CompletedUpTo(job, k), 0).None?
    requires job.plans[j].data != []
    ensures HeldAt(job.plans, bytes, j)
  {
    var offset, data := OffsetOf(job.plans, j), job.plans[j].data;
    AcceptedCheck(job, bytes, k, j, CompletedOf(job, j));
    CheckedRange(job.h, bytes, offset, data);
    Decided(job, bytes, j);
  }

  lemma Decided(job: Job, bytes: seq<byte>, i: nat)
    requires i < |job.plans| && OffsetOf(job.plans, i) + |job.plans[i].data| <= |bytes|
    requires CrcDecides(job, bytes, i)
    requires job.h.crc(bytes[OffsetOf(job.plans, i)..OffsetOf(job.plans, i) + |job.plans[i].data|])
          == job.h.crc(job.plans[i].data)
    ensures HeldAt(job.plans, bytes, i)
  {
  }

  lemma {:induction false} AcceptedLength(job: Job, bytes: seq<byte>, k: nat, i: nat)
    requires i <= k <= |job.plans|
    requires PartialRefusal(job.h, bytes, CompletedUpTo(job, k), i).None?
    ensures EndOf(job.plans, k) <= |bytes|
    decreases k - i
  {
    if i < k {
      AcceptedLength(job, bytes, k, i + 1);
    }
  }

  /** A ledger that passes is one this very source has produced. */
  lemma AcceptedIsOwn(job: Job, files: Files)
    requires Refusal(job, files).None? && files.ledger.Some?
    ensures files.ledger.value.Parsed? && OwnLedger(job, files.ledger.value.ledger)
  {
    var ledger := files.ledger.value.ledger;
    var k := |ledger.completed|;
    forall j | 0 <= j < k
      ensures ledger.completed[j] == CompletedOf(job, j)
    {
      AcceptedEntries(job, ledger.completed, 0, j);
    }
    assert ledger.completed == CompletedUpTo(job, k);
  }

  /** The gaps a run from these files leaves in its output. */
  function StartGaps(job: Job, files: Files): (gaps: seq<seq<byte>>)
    ensures GapsFit(job.plans, gaps)
  {
    if files.ledger.Some? && files.ledger.value.Parsed? && files.partial.Some?
       && |files.ledger.value.ledger.completed| <= |job.plans|
    then InheritedGaps(job.plans, files.partial.value, |files.ledger.value.ledger.completed|)
    else ZeroGaps(job.plans)
  }

  lemma AcceptedIsResumable(job: Job, files: Files, hi: nat)
    requires Refusal(job, files).None? && files.ledger.Some? && files.partial.Some?
    requires NoCollision(job, files) && hi == |files.partial.value|
    ensures files.ledger.value.Parsed? && |files.ledger.value.ledger.uuid| == 16
    ensures Resumable(job, files, 0, hi, files.ledger.value.ledger.uuid, StartGaps(job, files))
  {
    AcceptedIsOwn(job, files);
    var ledger := files.ledger.value.ledger;
    var k := |ledger.completed|;
    AcceptedLength(job, files.partial.value, k, 0);
    forall j | 0 <= j < k
      ensures HeldAt(job.plans, files.partial.value, j)
    {
      AcceptedEntries(job, ledger.completed, 0, j);
      AcceptedBytes(job, files.partial.value, k, j);
    }
  }

  /** Between runs the ledgered bytes are the source bytes, so there is nothing to tell apart. */
  lemma ResumableHasNoCollision(job: Job, files: Files, lo: nat, hi: nat, uuid: Uuid, gaps: seq<seq<byte>>)
    requires Resumable(job, files, lo, hi, uuid, gaps)
    ensures NoCollision(job, files)
  {
    var bytes := files.partial.value;
    forall i | 0 <= i < |files.ledger.value.ledger.completed|
      ensures OffsetOf(job.plans, i) + |job.plans[i].data| <= |bytes| && CrcDecides(job, bytes, i)
    {
      assert HeldAt(job.plans, bytes, i);
    }
  }
}
