/**
 The artifact one shard converts to: where every extent, directory and digest goes, as a function of
 the plan, the file uuid and the bytes in the alignment gaps between extents.
 */
module ShardLayout {
  import opened Wrappers
  import opened Bytes
  import opened Format
  import opened Reader

  datatype Role = Gate | Up | Down

  /** One planned tensor: its source bytes and what its name says about layer, expert and role. */
  datatype Plan = Plan(name: string, id: nat, dtype: DType, shape: seq<nat>, layer: int, expert: int,
                       role: Option<Role>, data: seq<byte>)

  type ConfigBytes = c: seq<byte> | |c| == MODEL_CONFIG_BYTES witness Zeros(MODEL_CONFIG_BYTES)

  /** Everything that is the same in every run over an unchanged source shard. */
  datatype Job = Job(h: Hashes, source: seq<byte>, plans: seq<Plan>, hiddenLayers: nat,
                     config: ConfigBytes, shardName: string, fingerprint: Digest)

  function SourceSha(job: Job): Digest {
    job.h.sha(job.source)
  }

  predicate DistinctPlans(plans: seq<Plan>) {
    forall i, j :: 0 <= i < j < |plans| ==> plans[i].id != plans[j].id
  }

  predicate PositivePlans(plans: seq<Plan>) {
    forall i :: 0 <= i < |plans| ==> plans[i].data != []
  }

  // ----- Extents -----

  /** Where the file ends once `k` extents are written. */
  function EndOf(plans: seq<Plan>, k: nat): (end: nat)
    requires k <= |plans|
    ensures end >= SUPERBLOCK_BYTES
  {
    if k == 0 then SUPERBLOCK_BYTES else AlignUp(EndOf(plans, k - 1)) + |plans[k - 1].data|
  }

  /** Where extent `k` (or, after the last one, the tensor directory) starts. */
  function OffsetOf(plans: seq<Plan>, k: nat): (offset: nat)
    requires k <= |plans|
    ensures offset % EXTENT_ALIGNMENT == 0 && EndOf(plans, k) <= offset
  {
    AlignUp(EndOf(plans, k))
  }

  ghost predicate GapsFit(plans: seq<Plan>, gaps: seq<seq<byte>>) {
    && |gaps| == |plans| + 1
    && forall i :: 0 <= i <= |plans| ==> |gaps[i]| == OffsetOf(plans, i) - EndOf(plans, i)
  }

  function ZeroGaps(plans: seq<Plan>): (gaps: seq<seq<byte>>)
    ensures GapsFit(plans, gaps)
  {
    seq(|plans| + 1, i requires 0 <= i <= |plans| => Zeros(OffsetOf(plans, i) - EndOf(plans, i)))
  }

  /** The first `k` extents with the gaps before them, behind a blank superblock. */
  function Written(plans: seq<Plan>, gaps: seq<seq<byte>>, k: nat): (b: seq<byte>)
    requires GapsFit(plans, gaps) && k <= |plans|
    ensures |b| == EndOf(plans, k)
  {
    if k == 0 then Zeros(SUPERBLOCK_BYTES)
    else Written(plans, gaps, k - 1) + gaps[k - 1] + plans[k - 1].data
  }

  lemma {:induction false} WrittenPrefix(plans: seq<Plan>, gaps: seq<seq<byte>>, j: nat, k: nat)
    requires GapsFit(plans, gaps) && j <= k <= |plans|
    ensures EndOf(plans, j) <= EndOf(plans, k)
    ensures Written(plans, gaps, k)[..EndOf(plans, j)] == Written(plans, gaps, j)
  {
    if j < k {
      WrittenPrefix(plans, gaps, j, k - 1);
      var before, n := Written(plans, gaps, k - 1), EndOf(plans, j);
      PrefixOfMore(before, gaps[k - 1], plans[k - 1].data, n);
    }
  }

  lemma PrefixOfMore(before: seq<byte>, gap: seq<byte>, data: seq<byte>, n: nat)
    requires n <= |before|
    ensures (before + gap + data)[..n] == before[..n]
  {
  }

  lemma PartsOf(a: seq<byte>, b: seq<byte>, c: seq<byte>)
    ensures (a + b + c)[|a|..|a| + |b|] == b
    ensures (a + b + c)[|a| + |b|..|a| + |b| + |c|] == c
  {
    var all := a + b + c;
    assert all == (a + b) + c;
    assert all[|a| + |b|..] == c;
    assert (a + b)[|a|..] == b;
    assert all[|a|..|a| + |b|] == (a + b)[|a|..];
  }

  lemma SliceOfStart(w: seq<byte>, n: nat, start: seq<byte>, lo: nat, hi: nat)
    requires lo <= hi <= n == |start| <= |w| && w[..n] == start
    ensures w[lo..hi] == start[lo..hi]
  {
    forall i | lo <= i < hi
      ensures w[i] == start[i]
    {
      assert w[..n][i] == w[i];
    }
  }

  /** Every written extent holds its source bytes, every gap before it the given bytes. */
  lemma ExtentBytes(plans: seq<Plan>, gaps: seq<seq<byte>>, j: nat, k: nat)
    requires GapsFit(plans, gaps) && j < k <= |plans|
    ensures EndOf(plans, j + 1) <= EndOf(plans, k)
    ensures Written(plans, gaps, k)[OffsetOf(plans, j)..EndOf(plans, j + 1)] == plans[j].data
    ensures Written(plans, gaps, k)[EndOf(plans, j)..OffsetOf(plans, j)] == gaps[j]
  {
    WrittenPrefix(plans, gaps, j + 1, k);
    var w, start := Written(plans, gaps, k), Written(plans, gaps, j + 1);
    var lo, at, hi := EndOf(plans, j), OffsetOf(plans, j), EndOf(plans, j + 1);
    assert |gaps[j]| == at - lo;
    PartsOf(Written(plans, gaps, j), gaps[j], plans[j].data);
    SliceOfStart(w, hi, start, at, hi);
    SliceOfStart(w, hi, start, lo, at);
  }

  lemma {:induction false} OffsetsGrow(plans: seq<Plan>, j: nat, k: nat)
    requires j < k <= |plans|
    ensures EndOf(plans, j + 1) <= OffsetOf(plans, k)
  {
    if j + 1 < k {
      OffsetsGrow(plans, j, k - 1);
    }
  }

  // ----- Records and directories -----

  function RecordOf(job: Job, i: nat): TensorRecord
    requires i < |job.plans|
  {
    var p := job.plans[i];
    TensorRecord(p.id, 0, p.dtype, Unquantized, p.shape, p.layer, p.expert, OffsetOf(job.plans, i), |p.data|,
                 |p.data|, 0, 0, job.h.crc(p.data), 0, 0)
  }

  function Records(job: Job, k: nat): (r: seq<TensorRecord>)
    requires k <= |job.plans|
    ensures |r| == k
    ensures forall i :: 0 <= i < k ==> r[i] == RecordOf(job, i)
  {
    if k == 0 then [] else Records(job, k - 1) + [RecordOf(job, k - 1)]
  }

  /** The positions of the plans of one layer, in order. */
  function LayerIndices(plans: seq<Plan>, layer: nat, k: nat): (indices: seq<nat>)
    requires k <= |plans|
    ensures forall i :: i in indices <==> 0 <= i < k && plans[i].layer == layer
    ensures forall i, j :: 0 <= i < j < |indices| ==> indices[i] < indices[j]
  {
    if k == 0 then []
    else
      var before := LayerIndices(plans, layer, k - 1);
      assert forall i :: 0 <= i < |before| ==> before[i] in before;
      if plans[k - 1].layer == layer then before + [k - 1] else before
  }

  function InsertId(ids: seq<int>, x: int): (r: seq<int>)
    requires forall i, j :: 0 <= i < j < |ids| ==> ids[i] < ids[j]
    ensures forall i, j :: 0 <= i < j < |r| ==> r[i] < r[j]
    ensures forall y :: y in r <==> y in ids || y == x
  {
    if ids == [] || x < ids[0] then [x] + ids
    else if x == ids[0] then ids
    else
      var rest := InsertId(ids[1..], x);
      assert forall i :: 0 <= i < |rest| ==> rest[i] in rest;
      [ids[0]] + rest
  }

  /** The distinct expert ids of a layer, ascending. */
  function ExpertIds(plans: seq<Plan>, layer: nat, k: nat): (ids: seq<int>)
    requires k <= |plans|
    ensures forall i, j :: 0 <= i < j < |ids| ==> ids[i] < ids[j]
    ensures forall x :: x in ids <==>
      exists i :: 0 <= i < k && plans[i].layer == layer && plans[i].role.Some? && plans[i].expert == x
  {
    if k == 0 then []
    else
      var before := ExpertIds(plans, layer, k - 1);
      var p := plans[k - 1];
      if p.layer == layer && p.role.Some? then InsertId(before, p.expert) else before
  }

  /** The tensor id playing a role for an expert; a later plan of the same name would win. */
  function RoleId(plans: seq<Plan>, layer: nat, expert: int, role: Role, k: nat): (id: Option<nat>)
    requires k <= |plans|
    ensures id.Some? ==> exists i :: 0 <= i < k && plans[i].layer == layer && plans[i].expert == expert
                                     && plans[i].role == Some(role) && plans[i].id == id.value
    ensures id.None? ==> forall i :: 0 <= i < k && plans[i].layer == layer && plans[i].expert == expert ==>
                                     plans[i].role != Some(role)
  {
    if k == 0 then None
    else
      var p := plans[k - 1];
      if p.layer == layer && p.expert == expert && p.role == Some(role) then Some(p.id)
      else RoleId(plans, layer, expert, role, k - 1)
  }

  /** One record per expert of the layer whose three roles are all in the shard. */
  function LayerExperts(plans: seq<Plan>, layer: nat, ids: seq<int>, first: nat): (r: seq<ExpertRecord>)
    ensures forall i :: 0 <= i < |r| ==>
      r[i].layerIndex == layer && r[i].physicalOrder == first + i && r[i].flags == 0 && r[i].expertId in ids
  {
    if ids == [] then []
    else
      var before := LayerExperts(plans, layer, ids[..|ids| - 1], first);
      var id := ids[|ids| - 1];
      var gate, up, down := RoleId(plans, layer, id, Gate, |plans|), RoleId(plans, layer, id, Up, |plans|),
                            RoleId(plans, layer, id, Down, |plans|);
      if id >= 0 && gate.Some? && up.Some? && down.Some? then
        before + [ExpertRecord(layer, id, first + |before|, 0, gate.value, up.value, down.value, 0)]
      else before
  }

  predicate HasExpert(plans: seq<Plan>, layer: nat) {
    exists i :: 0 <= i < |plans| && plans[i].layer == layer && plans[i].expert >= 0
  }

  function LayerOf(plans: seq<Plan>, layer: nat, firstExpert: nat, expertCount: nat): LayerRecord {
    var indices := LayerIndices(plans, layer, |plans|);
    LayerRecord(layer, 1, if HasExpert(plans, layer) then 2 else 1,
                if indices == [] then 0 else indices[0], |indices|, firstExpert, expertCount, 0, 0)
  }

  /** The layer and expert directories of the first `layers` layers. */
  function Directories(plans: seq<Plan>, layers: nat): (r: (seq<LayerRecord>, seq<ExpertRecord>))
    ensures |r.0| == layers
    ensures forall l :: 0 <= l < layers ==>
      && r.0[l].layerIndex == l && KnownKinds(r.0[l].attentionKind, r.0[l].ffnKind) && r.0[l].flags == 0
      && r.0[l].firstExpert + r.0[l].expertCount <= |r.1|
      && (forall e :: 0 <= e < |r.1| ==>
            (r.1[e].layerIndex == l <==> r.0[l].firstExpert <= e < r.0[l].firstExpert + r.0[l].expertCount))
    ensures forall e :: 0 <= e < |r.1| ==>
      r.1[e].physicalOrder == e && r.1[e].flags == 0 && r.1[e].layerIndex < layers
  {
    if layers == 0 then ([], [])
    else
      var (before, experts) := Directories(plans, layers - 1);
      var layer := layers - 1;
      var added := LayerExperts(plans, layer, ExpertIds(plans, layer, |plans|), |experts|);
      (before + [LayerOf(plans, layer, |experts|, |added|)], experts + added)
  }

  function EncodeTensors(records: seq<TensorRecord>): (r: Result<seq<seq<byte>>>)
    ensures r.Success? ==> |r.value| == |records|
  {
    if records == [] then Success([])
    else
      var before :- EncodeTensors(records[..|records| - 1]);
      var last :- EncodeTensor(records[|records| - 1]);
      Success(before + [last])
  }

  function EncodeLayers(records: seq<LayerRecord>): (r: Result<seq<seq<byte>>>) {
    if records == [] then Success([])
    else
      var before :- EncodeLayers(records[..|records| - 1]);
      var last :- EncodeLayer(records[|records| - 1]);
      Success(before + [last])
  }

  function EncodeExperts(records: seq<ExpertRecord>): (r: Result<seq<seq<byte>>>) {
    if records == [] then Success([])
    else
      var before :- EncodeExperts(records[..|records| - 1]);
      var last :- EncodeExpert(records[|records| - 1]);
      Success(before + [last])
  }

  /** The three directories and the model configuration, ready to be written. */
  function SectionsOf(job: Job, records: seq<TensorRecord>): (r: Result<Sections>)
    ensures r.Success? ==> r.value.config == job.config
  {
    var tensors :- EncodeTensors(records);
    var (layers, experts) := Directories(job.plans, job.hiddenLayers);
    var layerItems :- EncodeLayers(layers);
    var expertItems :- EncodeExperts(experts);
    var tens :- EncodeDirectory(TENSOR_TAG, TENSOR_RECORD_BYTES, tensors);
    var layr :- EncodeDirectory(LAYER_TAG, LAYER_RECORD_BYTES, layerItems);
    var expt :- EncodeDirectory(EXPERT_TAG, EXPERT_RECORD_BYTES, expertItems);
    Success(Sections(tens, layr, expt, job.config))
  }

  function EncodeSections(job: Job): (r: Result<Sections>)
    ensures r.Success? ==> r.value.config == job.config
  {
    SectionsOf(job, Records(job, |job.plans|))
  }

  // ----- The finished file -----

  /** `d` appended at the next aligned offset. */
  function Place(b: seq<byte>, d: seq<byte>): (r: seq<byte>)
    ensures |r| == AlignUp(|b|) + |d| && r[..|b|] == b && r[AlignUp(|b|)..] == d
  {
    b + Zeros(AlignUp(|b|) - |b|) + d
  }

  /** All extents and sections behind a blank superblock. */
  function Contents(job: Job, gaps: seq<seq<byte>>, s: Sections): (b: seq<byte>)
    requires GapsFit(job.plans, gaps)
    ensures |b| >= SUPERBLOCK_BYTES
  {
    var n := |job.plans|;
    var withTensors := Written(job.plans, gaps, n) + gaps[n] + s.tensors;
    Place(Place(Place(withTensors, s.layers), s.experts), s.config)
  }

  /** The superblock describing the sections, still without the root digest. */
  function BlockOf(job: Job, uuid: Uuid, s: Sections): Superblock
    requires |s.config| == MODEL_CONFIG_BYTES
  {
    var t := OffsetOf(job.plans, |job.plans|);
    var l := AlignUp(t + |s.tensors|);
    var e := AlignUp(l + |s.layers|);
    var c := AlignUp(e + |s.experts|);
    Superblock(SourceSha(job), uuid, 1, 0, 0, t, |s.tensors|, l, |s.layers|, e, |s.experts|, c, |s.config|,
               SUPERBLOCK_BYTES, c + |s.config|, job.h.sha(DirectoryBytes(s)), Zeros(32))
  }

  /** Payload with the superblock in place: first without, then with the digest of the whole. */
  function Sealed(job: Job, uuid: Uuid, gaps: seq<seq<byte>>, s: Sections): (r: Result<seq<byte>>)
    requires GapsFit(job.plans, gaps) && |s.config| == MODEL_CONFIG_BYTES
  {
    var body := Contents(job, gaps, s)[SUPERBLOCK_BYTES..];
    var block := BlockOf(job, uuid, s);
    var unsealed :- EncodeSuperblock(job.h, block);
    var seal :- EncodeSuperblock(job.h, block.(rootSha := RootSha(job.h, unsealed + body)));
    Success(seal + body)
  }

  /** The artifact of a job; fails when a record or the superblock cannot be encoded. */
  function Assemble(job: Job, uuid: Uuid, gaps: seq<seq<byte>>): (r: Result<seq<byte>>)
    requires GapsFit(job.plans, gaps)
  {
    var s :- EncodeSections(job);
    Sealed(job, uuid, gaps, s)
  }

  /** The uninterrupted conversion: every gap is zero. */
  function Canonical(job: Job, uuid: Uuid): Result<seq<byte>> {
    Assemble(job, uuid, ZeroGaps(job.plans))
  }
}
