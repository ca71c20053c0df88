/** The artifact of a job passes every check of the reader and gives the source bytes back. */
module ShardReadback {
  import opened Wrappers
  import opened Bytes
  import opened Format
  import opened Reader
  import opened ShardLayout

  lemma {:induction false} TensorsDecode(records: seq<TensorRecord>)
    requires EncodeTensors(records).Success?
    requires forall i :: 0 <= i < |records| ==> records[i].role == 0 && records[i].flags == 0
    ensures DecodeTensors(EncodeTensors(records).value) == Success(records)
  {
    if records != [] {
      var front, last := records[..|records| - 1], records[|records| - 1];
      TensorsDecode(front);
      TensorRoundTrip(last);
      var items := EncodeTensors(records).value;
      assert items[..|items| - 1] == EncodeTensors(front).value;
      assert front + [last] == records;
    }
  }

  lemma {:induction false} LayersDecode(records: seq<LayerRecord>)
    requires EncodeLayers(records).Success?
    requires forall i :: 0 <= i < |records| ==>
      KnownKinds(records[i].attentionKind, records[i].ffnKind) && records[i].flags == 0
    ensures DecodeLayers(EncodeLayers(records).value) == Success(records)
  {
    if records != [] {
      var front, last := records[..|records| - 1], records[|records| - 1];
      LayersDecode(front);
      LayerRoundTrip(last);
      var items := EncodeLayers(records).value;
      assert items[..|items| - 1] == EncodeLayers(front).value;
      assert front + [last] == records;
    }
  }

  lemma {:induction false} ExpertsDecode(records: seq<ExpertRecord>)
    requires EncodeExperts(records).Success?
    requires forall i :: 0 <= i < |records| ==> records[i].flags == 0
    ensures DecodeExperts(EncodeExperts(records).value) == Success(records)
  {
    if records != [] {
      var front, last := records[..|records| - 1], records[|records| - 1];
      ExpertsDecode(front);
      ExpertRoundTrip(last);
      var items := EncodeExperts(records).value;
      assert items[..|items| - 1] == EncodeExperts(front).value;
      assert front + [last] == records;
    }
  }

  /** What opening the artifact of a job should find. */
  function ArtifactOf(job: Job, s: Superblock): Artifact {
    var (layers, experts) := Directories(job.plans, job.hiddenLayers);
    Artifact(s, Records(job, |job.plans|), layers, experts, job.config)
  }

  lemma SectionsDecode(job: Job, s: Superblock)
    requires EncodeSections(job).Success?
    ensures DecodeSections(s, EncodeSections(job).value) == Success(ArtifactOf(job, s))
  {
    var records := Records(job, |job.plans|);
    var (layers, experts) := Directories(job.plans, job.hiddenLayers);
    TensorsDecode(records);
    LayersDecode(layers);
    ExpertsDecode(experts);
    DirectoryRoundTrip(TENSOR_TAG, TENSOR_RECORD_BYTES, EncodeTensors(records).value);
    DirectoryRoundTrip(LAYER_TAG, LAYER_RECORD_BYTES, EncodeLayers(layers).value);
    DirectoryRoundTrip(EXPERT_TAG, EXPERT_RECORD_BYTES, EncodeExperts(experts).value);
  }

  /** A piece of a file. */
  ghost predicate At(b: seq<byte>, offset: nat, piece: seq<byte>) {
    offset + |piece| <= |b| && b[offset..offset + |piece|] == piece
  }

  /** Four pieces in order, the last of them at the end. */
  ghost predicate InOrder(b: seq<byte>, o0: nat, d0: seq<byte>, o1: nat, d1: seq<byte>, o2: nat, d2: seq<byte>,
                          o3: nat, d3: seq<byte>)
  {
    && At(b, o0, d0) && At(b, o1, d1) && At(b, o2, d2) && At(b, o3, d3)
    && o0 + |d0| <= o1 && o1 + |d1| <= o2 && o2 + |d2| <= o3 && o3 + |d3| == |b|
  }

  /** The sections sit where the superblock says, and the file ends where it says. */
  lemma SectionsInPlace(job: Job, uuid: Uuid, gaps: seq<seq<byte>>, s: Sections)
    requires GapsFit(job.plans, gaps) && |s.config| == MODEL_CONFIG_BYTES
    ensures var b := BlockOf(job, uuid, s); var p := Contents(job, gaps, s);
      && |p| == b.fileLength && SUPERBLOCK_BYTES <= b.tensorOffset
      && InOrder(p, b.tensorOffset, s.tensors, b.layerOffset, s.layers, b.expertOffset, s.experts, b.configOffset, s.config)
  {
    var n := |job.plans|;
    var w := Written(job.plans, gaps, n) + gaps[n];
    assert |w| == OffsetOf(job.plans, n);
    PlacedChain(w, s.tensors, s.layers, s.experts, s.config);
  }

  lemma PlacedAt(p: seq<byte>, d: seq<byte>)
    ensures At(Place(p, d), 0, p) && At(Place(p, d), AlignUp(|p|), d)
  {
  }

  lemma StillAt(b: seq<byte>, d: seq<byte>, offset: nat, piece: seq<byte>)
    requires At(b, offset, piece)
    ensures At(Place(b, d), offset, piece)
  {
    SliceOfPrefix(Place(b, d), b, offset, offset + |piece|);
  }

  /** Three sections placed one after the other behind another one stay where they were put. */
  lemma PlacedChain(w: seq<byte>, d0: seq<byte>, d1: seq<byte>, d2: seq<byte>, d3: seq<byte>)
    ensures var r := Place(Place(Place(w + d0, d1), d2), d3);
            var o1 := AlignUp(|w| + |d0|); var o2 := AlignUp(o1 + |d1|); var o3 := AlignUp(o2 + |d2|);
      At(r, 0, w + d0) && InOrder(r, |w|, d0, o1, d1, o2, d2, o3, d3)
  {
    var p := w + d0;
    var p1, o1 := Place(p, d1), AlignUp(|p|);
    var p2, o2 := Place(p1, d2), AlignUp(|p1|);
    PlacedAt(p, d1);
    PlacedAt(p1, d2);
    PlacedAt(p2, d3);
    StillAt(p1, d2, 0, p);
    StillAt(p2, d3, 0, p);
    StillAt(p1, d2, o1, d1);
    StillAt(p2, d3, o1, d1);
    StillAt(p2, d3, o2, d2);
    assert At(p, |w|, d0);
    StillAt(p, d1, |w|, d0);
    StillAt(p1, d2, |w|, d0);
    StillAt(p2, d3, |w|, d0);
  }

  lemma SliceOfPrefix(b: seq<byte>, prefix: seq<byte>, lo: nat, hi: nat)
    requires lo <= hi <= |prefix| <= |b| && b[..|prefix|] == prefix
    ensures b[lo..hi] == prefix[lo..hi]
  {
    forall i | lo <= i < hi
      ensures b[i] == prefix[i]
    {
      assert b[..|prefix|][i] == b[i];
    }
  }

  /** The extents are in the finished payload just as they were written. */
  lemma ExtentsInPayload(job: Job, gaps: seq<seq<byte>>, s: Sections, i: nat)
    requires GapsFit(job.plans, gaps) && i < |job.plans|
    ensures var p := Contents(job, gaps, s); var r := RecordOf(job, i);
      && r.dataOffset + r.dataLength <= |p|
      && p[r.dataOffset..r.dataOffset + r.dataLength] == job.plans[i].data
  {
    var n := |job.plans|;
    var w := Written(job.plans, gaps, n);
    var p1 := w + gaps[n] + s.tensors;
    var p2 := Place(p1, s.layers);
    var p3 := Place(p2, s.experts);
    var p := Place(p3, s.config);
    ExtentBytes(job.plans, gaps, i, n);
    var lo, hi := OffsetOf(job.plans, i), EndOf(job.plans, i + 1);
    assert p1[..|w|] == w;
    SliceOfPrefix(p1, w, lo, hi);
    SliceOfPrefix(p2, p1, lo, hi);
    SliceOfPrefix(p3, p2, lo, hi);
    SliceOfPrefix(p, p3, lo, hi);
  }

  /** The extents of the planned records: the data where planned, no auxiliary bytes. */
  function PlannedExtent(plans: seq<Plan>, index: nat): Extent
    requires index < 2 * |plans|
  {
    if index % 2 == 0 then Extent(OffsetOf(plans, index / 2), |plans[index / 2].data|) else Extent(0, 0)
  }

  lemma {:induction false} ExtentsOfRecords(job: Job, k: nat, index: nat)
    requires k <= |job.plans| && index < 2 * k
    ensures AllExtents(Records(job, k))[index] == PlannedExtent(job.plans, index)
  {
    var r := Records(job, k);
    assert r[..k - 1] == Records(job, k - 1);
    var before := AllExtents(Records(job, k - 1));
    assert AllExtents(r) == before + ExtentsOf(RecordOf(job, k - 1));
    if index < 2 * (k - 1) {
      ExtentsOfRecords(job, k - 1, index);
      assert AllExtents(r)[index] == before[index];
    } else {
      assert index / 2 == k - 1;
      assert AllExtents(r)[index] == ExtentsOf(RecordOf(job, k - 1))[index - 2 * (k - 1)];
    }
  }

  lemma {:induction false} EndsInside(plans: seq<Plan>, i: nat)
    requires i < |plans|
    ensures EndOf(plans, i + 1) <= EndOf(plans, |plans|)
    decreases |plans| - i
  {
    if i + 1 < |plans| {
      EndsInside(plans, i + 1);
    }
  }

  lemma PlannedPlacement(plans: seq<Plan>, index: nat, fileLength: nat)
    requires index < 2 * |plans| && EndOf(plans, |plans|) <= fileLength
    ensures Placed(PlannedExtent(plans, index), fileLength, 4096) <==> index % 2 == 1 || plans[index / 2].data != []
  {
    EndsInside(plans, index / 2);
  }

  lemma PlannedApart(plans: seq<Plan>, i: nat, j: nat)
    requires i < j < 2 * |plans|
    ensures Disjoint(PlannedExtent(plans, i), PlannedExtent(plans, j))
  {
    if i % 2 == 0 && j % 2 == 0 {
      OffsetsGrow(plans, i / 2, j / 2);
    }
  }

  /** The planned layout is legal exactly when every tensor has bytes. */
  lemma PlannedLayout(job: Job, fileLength: nat)
    requires EndOf(job.plans, |job.plans|) <= fileLength
    ensures LayoutOk(AllExtents(Records(job, |job.plans|)), fileLength, 4096) <==> PositivePlans(job.plans)
  {
    var n := |job.plans|;
    var all := AllExtents(Records(job, n));
    forall index | 0 <= index < 2 * n
      ensures all[index] == PlannedExtent(job.plans, index)
      ensures Placed(all[index], fileLength, 4096) <==> index % 2 == 1 || job.plans[index / 2].data != []
    {
      ExtentsOfRecords(job, n, index);
      PlannedPlacement(job.plans, index, fileLength);
    }
    forall i, j | 0 <= i < j < 2 * n
      ensures Disjoint(all[i], all[j])
    {
      PlannedApart(job.plans, i, j);
    }
    if !PositivePlans(job.plans) {
      var i :| 0 <= i < n && job.plans[i].data == [];
      assert !Placed(all[2 * i], fileLength, 4096);
    }
  }

  lemma BodyAgrees(f: seq<byte>, seal: seq<byte>, contents: seq<byte>, lo: nat, hi: nat)
    requires |seal| == SUPERBLOCK_BYTES <= |contents| && f == seal + contents[SUPERBLOCK_BYTES..]
    requires SUPERBLOCK_BYTES <= lo <= hi <= |contents|
    ensures |f| == |contents| && f[lo..hi] == contents[lo..hi]
  {
  }

  lemma PayloadsCheck(job: Job, gaps: seq<seq<byte>>, s: Sections, seal: seq<byte>)
    requires GapsFit(job.plans, gaps) && |s.config| == MODEL_CONFIG_BYTES && |seal| == SUPERBLOCK_BYTES
    ensures var f := seal + Contents(job, gaps, s)[SUPERBLOCK_BYTES..];
      && EndOf(job.plans, |job.plans|) <= |f|
      && AllPayloadsOk(job.h, f, Records(job, |job.plans|))
      && forall i :: 0 <= i < |job.plans| ==>
           InFile(f, RecordOf(job, i)) && Data(f, RecordOf(job, i)) == job.plans[i].data
  {
    var contents := Contents(job, gaps, s);
    var f := seal + contents[SUPERBLOCK_BYTES..];
    forall i | 0 <= i < |job.plans|
      ensures InFile(f, RecordOf(job, i)) && Data(f, RecordOf(job, i)) == job.plans[i].data
    {
      ExtentsInPayload(job, gaps, s, i);
      var r := RecordOf(job, i);
      BodyAgrees(f, seal, contents, r.dataOffset, r.dataOffset + r.dataLength);
    }
  }

  /** The superblock that ends up in the file. */
  function FinalBlock(job: Job, uuid: Uuid, gaps: seq<seq<byte>>, s: Sections): Superblock
    requires GapsFit(job.plans, gaps) && |s.config| == MODEL_CONFIG_BYTES
    requires SuperblockPackable(BlockOf(job, uuid, s))
  {
    var block := BlockOf(job, uuid, s);
    block.(rootSha := RootSha(job.h, EncodeSuperblock(job.h, block).value + Contents(job, gaps, s)[SUPERBLOCK_BYTES..]))
  }

  /** Superblock, sections and root digest of the sealed file, as the reader sees them. */
  lemma SealedFileReads(job: Job, uuid: Uuid, gaps: seq<seq<byte>>, s: Sections)
    requires GapsFit(job.plans, gaps) && |s.config| == MODEL_CONFIG_BYTES
    requires Sealed(job, uuid, gaps, s).Success?
    ensures var f := Sealed(job, uuid, gaps, s).value; var final := FinalBlock(job, uuid, gaps, s);
      && SuperblockPackable(final)
      && f == EncodeSuperblock(job.h, final).value + Contents(job, gaps, s)[SUPERBLOCK_BYTES..]
      && ReadSuperblock(job.h, f) == Success(final)
      && ReadSections(f, final) == Success(s)
      && RootSha(job.h, f) == final.rootSha
  {
    var contents := Contents(job, gaps, s);
    var block := BlockOf(job, uuid, s);
    var final := FinalBlock(job, uuid, gaps, s);
    RootDigestExcludesItself(job.h, block, final.rootSha, contents[SUPERBLOCK_BYTES..]);
    var seal := EncodeSuperblock(job.h, final).value;
    var f := seal + contents[SUPERBLOCK_BYTES..];
    SuperblockRoundTrip(job.h, final);
    assert f[..SUPERBLOCK_BYTES] == seal;
    SectionsRead(job, uuid, gaps, s, f, seal, final);
  }

  lemma SectionAgrees(f: seq<byte>, seal: seq<byte>, contents: seq<byte>, offset: nat, piece: seq<byte>)
    requires |seal| == SUPERBLOCK_BYTES <= offset && At(contents, offset, piece)
    requires f == seal + contents[SUPERBLOCK_BYTES..]
    ensures At(f, offset, piece)
  {
    BodyAgrees(f, seal, contents, offset, offset + |piece|);
  }

  /** Under any superblock with its offsets the sections read back. */
  lemma SectionsRead(job: Job, uuid: Uuid, gaps: seq<seq<byte>>, s: Sections, f: seq<byte>, seal: seq<byte>,
                     final: Superblock)
    requires GapsFit(job.plans, gaps) && |s.config| == MODEL_CONFIG_BYTES && |seal| == SUPERBLOCK_BYTES
    requires f == seal + Contents(job, gaps, s)[SUPERBLOCK_BYTES..]
    requires final == BlockOf(job, uuid, s).(rootSha := final.rootSha)
    ensures ReadSections(f, final) == Success(s) && |f| == final.fileLength
  {
    var contents := Contents(job, gaps, s);
    SectionsInPlace(job, uuid, gaps, s);
    SectionAgrees(f, seal, contents, final.tensorOffset, s.tensors);
    SectionAgrees(f, seal, contents, final.layerOffset, s.layers);
    SectionAgrees(f, seal, contents, final.expertOffset, s.experts);
    SectionAgrees(f, seal, contents, final.configOffset, s.config);
  }

  /**
   Convert, open, read: for every job, uuid and gap bytes, the finished file opens with every check on
   exactly when all tensors are non-empty; it then holds the planned records, and every tensor reads
   back as its source bytes.
   */
  lemma FinishedFileOpens(job: Job, uuid: Uuid, gaps: seq<seq<byte>>)
    requires GapsFit(job.plans, gaps) && Assemble(job, uuid, gaps).Success?
    ensures var f := Assemble(job, uuid, gaps).value; var seen := Open(job.h, f, true, true);
      && (seen.Some? <==> PositivePlans(job.plans))
      && (seen.Some? ==>
            && seen.value == ArtifactOf(job, seen.value.superblock)
            && seen.value.superblock.uuid == uuid
            && seen.value.superblock.sourceSha == SourceSha(job))
      && forall i :: 0 <= i < |job.plans| ==>
           InFile(f, RecordOf(job, i)) && Data(f, RecordOf(job, i)) == job.plans[i].data
  {
    var s := EncodeSections(job).value;
    var f := Assemble(job, uuid, gaps).value;
    var final := FinalBlock(job, uuid, gaps, s);
    SealedFileReads(job, uuid, gaps, s);
    SectionsDecode(job, final);
    PayloadsCheck(job, gaps, s, EncodeSuperblock(job.h, final).value);
    PlannedLayout(job, |f|);
    OpenOfParts(job.h, f, final, s, ArtifactOf(job, final));
  }

  // ----- The gaps -----

  /** The gap bytes a finished file carries. */
  function GapsIn(plans: seq<Plan>, file: seq<byte>): (gaps: seq<seq<byte>>)
    requires OffsetOf(plans, |plans|) <= |file|
    ensures GapsFit(plans, gaps)
  {
    assert forall i :: 0 <= i <= |plans| ==> OffsetOf(plans, i) <= |file| by {
      forall i | 0 <= i <= |plans|
        ensures OffsetOf(plans, i) <= |file|
      {
        OffsetInFile(plans, i);
      }
    }
    seq(|plans| + 1, i requires 0 <= i <= |plans| =>
      OffsetInFile(plans, i);
      file[EndOf(plans, i)..OffsetOf(plans, i)])
  }

  lemma OffsetInFile(plans: seq<Plan>, i: nat)
    requires i <= |plans|
    ensures OffsetOf(plans, i) <= OffsetOf(plans, |plans|)
  {
    if i < |plans| {
      OffsetsGrow(plans, i, |plans|);
    }
  }

  lemma GapsInContents(job: Job, gaps: seq<seq<byte>>, s: Sections, i: nat)
    requires GapsFit(job.plans, gaps) && i <= |job.plans|
    ensures var p := Contents(job, gaps, s);
      && OffsetOf(job.plans, i) <= |p|
      && p[EndOf(job.plans, i)..OffsetOf(job.plans, i)] == gaps[i]
  {
    var n := |job.plans|;
    var w := Written(job.plans, gaps, n);
    var p1 := w + gaps[n] + s.tensors;
    var lo, hi := EndOf(job.plans, i), OffsetOf(job.plans, i);
    OffsetInFile(job.plans, i);
    if i == n {
      assert p1[lo..hi] == gaps[n];
    } else {
      ExtentBytes(job.plans, gaps, i, n);
      assert p1[..|w|] == w;
      SliceOfPrefix(p1, w, lo, hi);
    }
    PlacedChain(w + gaps[n], s.tensors, s.layers, s.experts, s.config);
    SliceOfPrefix(Contents(job, gaps, s), p1, lo, hi);
  }

  lemma GapInFile(job: Job, gaps: seq<seq<byte>>, s: Sections, seal: seq<byte>, i: nat)
    requires GapsFit(job.plans, gaps) && i <= |job.plans| && |seal| == SUPERBLOCK_BYTES
    ensures var f := seal + Contents(job, gaps, s)[SUPERBLOCK_BYTES..];
      OffsetOf(job.plans, i) <= |f| && f[EndOf(job.plans, i)..OffsetOf(job.plans, i)] == gaps[i]
  {
    var contents := Contents(job, gaps, s);
    GapsInContents(job, gaps, s, i);
    BodyAgrees(seal + contents[SUPERBLOCK_BYTES..], seal, contents, EndOf(job.plans, i), OffsetOf(job.plans, i));
  }

  lemma GapsOfBytes(plans: seq<Plan>, file: seq<byte>, gaps: seq<seq<byte>>)
    requires GapsFit(plans, gaps)
    requires forall i :: 0 <= i <= |plans| ==>
      OffsetOf(plans, i) <= |file| && file[EndOf(plans, i)..OffsetOf(plans, i)] == gaps[i]
    ensures OffsetOf(plans, |plans|) <= |file| && GapsIn(plans, file) == gaps
  {
  }

  /** Different gap bytes give different files: the gaps can be read off the file. */
  lemma GapsReadBack(job: Job, uuid: Uuid, gaps: seq<seq<byte>>)
    requires GapsFit(job.plans, gaps) && Assemble(job, uuid, gaps).Success?
    ensures var f := Assemble(job, uuid, gaps).value;
      && OffsetOf(job.plans, |job.plans|) <= |f|
      && GapsIn(job.plans, f) == gaps
  {
    var s := EncodeSections(job).value;
    SealedFileReads(job, uuid, gaps, s);
    var f := Assemble(job, uuid, gaps).value;
    var seal := EncodeSuperblock(job.h, FinalBlock(job, uuid, gaps, s)).value;
    forall i | 0 <= i <= |job.plans|
      ensures OffsetOf(job.plans, i) <= |f| && f[EndOf(job.plans, i)..OffsetOf(job.plans, i)] == gaps[i]
    {
      GapInFile(job, gaps, s, seal, i);
    }
    GapsOfBytes(job.plans, f, gaps);
  }

  /** A finished file of the job: some gaps, the given uuid. */
  predicate IsConversion(job: Job, uuid: Uuid, file: seq<byte>) {
    && OffsetOf(job.plans, |job.plans|) <= |file|
    && Assemble(job, uuid, GapsIn(job.plans, file)) == Success(file)
  }

  lemma AssembledIsConversion(job: Job, uuid: Uuid, gaps: seq<seq<byte>>)
    requires GapsFit(job.plans, gaps) && Assemble(job, uuid, gaps).Success?
    ensures IsConversion(job, uuid, Assemble(job, uuid, gaps).value)
  {
    GapsReadBack(job, uuid, gaps);
  }

  /** The file is the uninterrupted conversion exactly when all its gaps are zero. */
  lemma CanonicalExactly(job: Job, uuid: Uuid, gaps: seq<seq<byte>>)
    requires GapsFit(job.plans, gaps) && Assemble(job, uuid, gaps).Success?
    ensures Assemble(job, uuid, gaps) == Canonical(job, uuid) <==> gaps == ZeroGaps(job.plans)
  {
    if Assemble(job, uuid, gaps) == Canonical(job, uuid) {
      GapsReadBack(job, uuid, gaps);
      GapsReadBack(job, uuid, ZeroGaps(job.plans));
    }
  }
}
