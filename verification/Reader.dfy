/** Opening a finished artifact with every integrity check, and reading tensors back from it. */
module Reader {
  import opened Wrappers
  import opened Bytes
  import opened Format

  datatype Artifact = Artifact(
    superblock: Superblock,
    tensors: seq<TensorRecord>,
    layers: seq<LayerRecord>,
    experts: seq<ExpertRecord>,
    config: seq<byte>)

  function ReadExact(file: seq<byte>, offset: nat, length: nat): (r: Result<seq<byte>>)
    ensures r.Success? <==> offset + length <= |file|
    ensures r.Success? ==> r.value == file[offset..offset + length]
  {
    if offset + length > |file| then Failure("TRUNCATED_FILE") else Success(file[offset..offset + length])
  }

  const TENSOR_TAG: seq<byte> := [0x54, 0x45, 0x4E, 0x53]  // "TENS"
  const LAYER_TAG: seq<byte> := [0x4C, 0x41, 0x59, 0x52]   // "LAYR"
  const EXPERT_TAG: seq<byte> := [0x45, 0x58, 0x50, 0x54]  // "EXPT"

  function DecodeTensors(items: seq<seq<byte>>): (r: Result<seq<TensorRecord>>)
    ensures r.Success? ==> |r.value| == |items|
  {
    if items == [] then Success([])
    else
      var before :- DecodeTensors(items[..|items| - 1]);
      var last :- DecodeTensor(items[|items| - 1]);
      Success(before + [last])
  }

  function DecodeLayers(items: seq<seq<byte>>): (r: Result<seq<LayerRecord>>) {
    if items == [] then Success([])
    else
      var before :- DecodeLayers(items[..|items| - 1]);
      var last :- DecodeLayer(items[|items| - 1]);
      Success(before + [last])
  }

  function DecodeExperts(items: seq<seq<byte>>): (r: Result<seq<ExpertRecord>>) {
    if items == [] then Success([])
    else
      var before :- DecodeExperts(items[..|items| - 1]);
      var last :- DecodeExpert(items[|items| - 1]);
      Success(before + [last])
  }

  /** The four byte ranges the directory digest covers. */
  datatype Sections = Sections(tensors: seq<byte>, layers: seq<byte>, experts: seq<byte>, config: seq<byte>)

  function ReadSections(file: seq<byte>, s: Superblock): (r: Result<Sections>) {
    var tensors :- ReadExact(file, s.tensorOffset, s.tensorLength);
    var layers :- ReadExact(file, s.layerOffset, s.layerLength);
    var experts :- ReadExact(file, s.expertOffset, s.expertLength);
    if s.configLength != MODEL_CONFIG_BYTES then Failure("INVALID_MODEL_CONFIG_LENGTH")
    else
      var config :- ReadExact(file, s.configOffset, s.configLength);
      Success(Sections(tensors, layers, experts, config))
  }

  function ReadSuperblock(h: Hashes, file: seq<byte>): (r: Result<Superblock>) {
    var block := if |file| < SUPERBLOCK_BYTES then file else file[..SUPERBLOCK_BYTES];
    var s :- DecodeSuperblock(h, block);
    if s.state != 1 then Failure("UNFINALIZED_FILE")
    else if s.fileLength != |file| then Failure("TRUNCATED_FILE")
    else Success(s)
  }

  function DecodeSections(s: Superblock, sections: Sections): (r: Result<Artifact>) {
    var tensorItems :- DecodeDirectory(sections.tensors, TENSOR_TAG, TENSOR_RECORD_BYTES);
    var tensors :- DecodeTensors(tensorItems);
    var layerItems :- DecodeDirectory(sections.layers, LAYER_TAG, LAYER_RECORD_BYTES);
    var layers :- DecodeLayers(layerItems);
    var expertItems :- DecodeDirectory(sections.experts, EXPERT_TAG, EXPERT_RECORD_BYTES);
    var experts :- DecodeExperts(expertItems);
    Success(Artifact(s, tensors, layers, experts, sections.config))
  }

  function Data(file: seq<byte>, r: TensorRecord): seq<byte>
    requires r.dataOffset + r.dataLength <= |file|
  {
    file[r.dataOffset..r.dataOffset + r.dataLength]
  }

  function Auxiliary(file: seq<byte>, r: TensorRecord): seq<byte>
    requires r.auxiliaryLength != 0 ==> r.auxiliaryOffset + r.auxiliaryLength <= |file|
  {
    if r.auxiliaryLength != 0 then file[r.auxiliaryOffset..r.auxiliaryOffset + r.auxiliaryLength] else []
  }

  predicate InFile(file: seq<byte>, r: TensorRecord) {
    && r.dataOffset + r.dataLength <= |file|
    && (r.auxiliaryLength != 0 ==> r.auxiliaryOffset + r.auxiliaryLength <= |file|)
  }

  /** The payload bytes carry the checksums their record promises. */
  predicate PayloadOk(h: Hashes, file: seq<byte>, r: TensorRecord)
    requires InFile(file, r)
  {
    && h.crc(Data(file, r)) == r.dataCrc
    && (r.auxiliaryLength != 0 ==> h.crc(Auxiliary(file, r)) == r.auxiliaryCrc)
  }

  lemma {:induction false} PlacedInFile(records: seq<TensorRecord>, fileLength: nat, i: nat)
    requires AllPlaced(AllExtents(records), fileLength, 4096) && i < |records|
    ensures records[i].dataOffset + records[i].dataLength <= fileLength
    ensures records[i].auxiliaryOffset + records[i].auxiliaryLength <= fileLength
  {
    NextExtents(records, i);
    assert Placed(AllExtents(records)[2 * i], fileLength, 4096);
    assert Placed(AllExtents(records)[2 * i + 1], fileLength, 4096);
  }

  predicate AllPayloadsOk(h: Hashes, file: seq<byte>, records: seq<TensorRecord>) {
    forall i :: 0 <= i < |records| ==> InFile(file, records[i]) && PayloadOk(h, file, records[i])
  }

  function DirectoryBytes(s: Sections): seq<byte> {
    s.tensors + s.layers + s.experts + s.config
  }

  /** What `open` accepts and what it then knows. */
  function Open(h: Hashes, file: seq<byte>, verifyRoot: bool, verifyPayloads: bool): (r: Option<Artifact>)
  {
    var superblock := ReadSuperblock(h, file);
    if superblock.Failure? then None
    else
      var s := superblock.value;
      var sections := ReadSections(file, s);
      if sections.Failure? then None
      else
        var artifact := DecodeSections(s, sections.value);
        if artifact.Failure? then None
        else if !LayoutOk(AllExtents(artifact.value.tensors), |file|, 4096) then None
        else if verifyPayloads && !AllPayloadsOk(h, file, artifact.value.tensors) then None
        else if h.sha(DirectoryBytes(sections.value)) != s.directorySha then None
        else if verifyRoot && RootSha(h, file) != s.rootSha then None
        else Some(artifact.value)
  }

  /** A file whose parts all check out is accepted exactly when its layout is legal. */
  lemma OpenOfParts(h: Hashes, file: seq<byte>, s: Superblock, sections: Sections, artifact: Artifact)
    requires ReadSuperblock(h, file) == Success(s)
    requires ReadSections(file, s) == Success(sections)
    requires DecodeSections(s, sections) == Success(artifact)
    requires AllPayloadsOk(h, file, artifact.tensors)
    requires h.sha(DirectoryBytes(sections)) == s.directorySha
    requires RootSha(h, file) == s.rootSha
    ensures Open(h, file, true, true) ==
      if LayoutOk(AllExtents(artifact.tensors), |file|, 4096) then Some(artifact) else None
  {
  }

  /** The checks in the order the source makes them, with the code of the first that fails. */
  method OpenFile(h: Hashes, file: seq<byte>, verifyRoot: bool, verifyPayloads: bool, rootChunk: nat)
      returns (r: Result<Artifact>)
    requires rootChunk > 0
    ensures r.Success? <==> Open(h, file, verifyRoot, verifyPayloads).Some?
    ensures r.Success? ==> r.value == Open(h, file, verifyRoot, verifyPayloads).value
  {
    var superblock :- ReadSuperblock(h, file);
    var sections :- ReadSections(file, superblock);
    var artifact :- DecodeSections(superblock, sections);
    var _ :- ValidateExtentLayout(artifact.tensors, |file|, 4096);
    if verifyPayloads {
      var _ :- VerifyPayloads(h, file, artifact.tensors);
    }
    if h.sha(DirectoryBytes(sections)) != superblock.directorySha {
      return Failure("DIRECTORY_SHA256_MISMATCH");
    }
    if verifyRoot {
      var root := ComputeRootSha(h, file, |file|, rootChunk);
      assert file[..|file|] == file;
      if root != Success(superblock.rootSha) {
        return Failure("ROOT_SHA256_MISMATCH");
      }
    }
    return Success(artifact);
  }

  method VerifyPayloads(h: Hashes, file: seq<byte>, records: seq<TensorRecord>) returns (r: Result<bool>)
    requires AllPlaced(AllExtents(records), |file|, 4096)
    ensures r.Success? <==> AllPayloadsOk(h, file, records)
  {
    for index := 0 to |records|
      invariant AllPayloadsOk(h, file, records[..index])
    {
      PlacedInFile(records, |file|, index);
      var record := records[index];
      if h.crc(Data(file, record)) != record.dataCrc {
        return Failure("DATA_CRC_MISMATCH");
      }
      if record.auxiliaryLength != 0 && h.crc(Auxiliary(file, record)) != record.auxiliaryCrc {
        return Failure("AUXILIARY_CRC_MISMATCH");
      }
    }
    assert records[..|records|] == records;
    return Success(true);
  }

  /** The payloads a record stands for: its data, and its auxiliary bytes when it has any. */
  function Payload(file: seq<byte>, r: TensorRecord): (seq<byte>, seq<byte>)
    requires InFile(file, r)
  {
    (Data(file, r), Auxiliary(file, r))
  }

  predicate DistinctIds(records: seq<TensorRecord>) {
    forall i, j :: 0 <= i < j < |records| ==> records[i].tensorId != records[j].tensorId
  }

  function Ids(records: seq<TensorRecord>): set<nat> {
    set r | r in records :: r.tensorId
  }

  /** Exactly one entry for each record: its payload in the file. */
  ghost predicate Holds(values: map<nat, (seq<byte>, seq<byte>)>, file: seq<byte>, records: seq<TensorRecord>) {
    && values.Keys == Ids(records)
    && forall r :: r in records ==> InFile(file, r) && r.tensorId in values && values[r.tensorId] == Payload(file, r)
  }

  lemma HoldsMore(values: map<nat, (seq<byte>, seq<byte>)>, file: seq<byte>, records: seq<TensorRecord>, index: nat,
                  payload: (seq<byte>, seq<byte>))
    requires index < |records| && DistinctIds(records) && Holds(values, file, records[..index])
    requires InFile(file, records[index]) && payload == Payload(file, records[index])
    ensures Holds(values[records[index].tensorId := payload], file, records[..index + 1])
  {
    assert records[..index + 1] == records[..index] + [records[index]];
  }

  class K3XReader {
    const h: Hashes
    const file: seq<byte>
    const tensors: seq<TensorRecord>
    const payloadsVerified: bool
    var verifiedIds: set<nat>
    var calls: nat

    /** An id is only ever marked once its own payload has passed the checksums. */
    ghost predicate Valid()
      reads this
    {
      && DistinctIds(tensors)
      && (payloadsVerified ==> AllPayloadsOk(h, file, tensors))
      && forall id :: id in verifiedIds ==> forall i :: 0 <= i < |tensors| && tensors[i].tensorId == id ==>
           InFile(file, tensors[i]) && PayloadOk(h, file, tensors[i])
    }

    constructor (h: Hashes, file: seq<byte>, artifact: Artifact, payloadsVerified: bool)
      requires DistinctIds(artifact.tensors)
      requires payloadsVerified ==> AllPayloadsOk(h, file, artifact.tensors)
      ensures Valid() && this.h == h && this.file == file && tensors == artifact.tensors
      ensures this.payloadsVerified == payloadsVerified && verifiedIds == {} && calls == 0
    {
      this.h, this.file, tensors := h, file, artifact.tensors;
      this.payloadsVerified := payloadsVerified;
      verifiedIds := {};
      calls := 0;
    }

    /** The read loop: the payloads of all records, in one pass over the file. */
    method ReadAll(records: seq<TensorRecord>) returns (r: Result<map<nat, (seq<byte>, seq<byte>)>>)
      requires DistinctIds(records)
      ensures r.Success? <==> forall i :: 0 <= i < |records| ==> InFile(file, records[i])
      ensures r.Success? ==> Holds(r.value, file, records)
    {
      var values: map<nat, (seq<byte>, seq<byte>)> := map[];
      for index := 0 to |records|
        invariant Holds(values, file, records[..index])
        invariant forall i :: 0 <= i < index ==> InFile(file, records[i])
      {
        var record := records[index];
        var data :- ReadExact(file, record.dataOffset, record.dataLength);
        var auxiliary: seq<byte> := [];
        if record.auxiliaryLength != 0 {
          auxiliary :- ReadExact(file, record.auxiliaryOffset, record.auxiliaryLength);
        }
        HoldsMore(values, file, records, index, (data, auxiliary));
        values := values[record.tensorId := (data, auxiliary)];
      }
      assert records[..|records|] == records;
      return Success(values);
    }

    /** Checks one payload the first time its id is read, and remembers that it passed. */
    method VerifyOnce(record: TensorRecord) returns (r: Result<bool>)
      requires Valid() && record in tensors && InFile(file, record)
      modifies `verifiedIds
      ensures Valid()
      ensures r.Success? ==> PayloadOk(h, file, record) && verifiedIds == old(verifiedIds) + {record.tensorId}
      ensures r.Failure? ==> !PayloadOk(h, file, record) && verifiedIds == old(verifiedIds)
    {
      if record.tensorId !in verifiedIds {
        if h.crc(Data(file, record)) != record.dataCrc {
          return Failure("DATA_CRC_MISMATCH");
        }
        if record.auxiliaryLength != 0 && h.crc(Auxiliary(file, record)) != record.auxiliaryCrc {
          return Failure("AUXILIARY_CRC_MISMATCH");
        }
        verifiedIds := verifiedIds + {record.tensorId};
      }
      return Success(true);
    }

    method VerifyAll(records: seq<TensorRecord>) returns (r: Result<bool>)
      requires Valid() && forall record :: record in records ==> record in tensors && InFile(file, record)
      modifies `verifiedIds
      ensures Valid()
      ensures r.Success? <==> AllPayloadsOk(h, file, records)
      ensures r.Success? ==> verifiedIds == old(verifiedIds) + Ids(records)
      ensures verifiedIds >= old(verifiedIds)
    {
      for index := 0 to |records|
        invariant Valid()
        invariant AllPayloadsOk(h, file, records[..index])
        invariant verifiedIds == old(verifiedIds) + Ids(records[..index])
      {
        assert records[..index + 1] == records[..index] + [records[index]];
        var _ :- VerifyOnce(records[index]);
      }
      assert records[..|records|] == records;
      return Success(true);
    }

    lemma AlreadyVerified(records: seq<TensorRecord>)
      requires Valid() && payloadsVerified && forall record :: record in records ==> record in tensors
      ensures AllPayloadsOk(h, file, records)
    {
      forall i | 0 <= i < |records|
        ensures InFile(file, records[i]) && PayloadOk(h, file, records[i])
      {
        assert records[i] in tensors;
        var k :| 0 <= k < |tensors| && tensors[k] == records[i];
      }
    }

    /**
     Several tensors at once. What comes back is what the file holds, and every one of its payloads
     has passed its checksums, at open time, in an earlier read, or now.
     */
    method ReadTensorExtentsMany(records: seq<TensorRecord>) returns (r: Result<map<nat, (seq<byte>, seq<byte>)>>)
      requires Valid() && forall record :: record in records ==> record in tensors
      modifies this
      ensures Valid()
      ensures r.Success? <==>
        DistinctIds(records)
        && (forall i :: 0 <= i < |records| ==> InFile(file, records[i]))
        && AllPayloadsOk(h, file, records)
      ensures r.Success? ==> Holds(r.value, file, records)
      ensures r.Success? ==> verifiedIds == old(verifiedIds) + if payloadsVerified then {} else Ids(records)
      ensures r.Failure? ==> verifiedIds >= old(verifiedIds)
    {
      if records == [] {
        return Success(map[]);
      }
      if !DistinctIds(records) {
        return Failure("DUPLICATE_TENSOR_ID");
      }
      var values :- ReadAll(records);
      calls := calls + 1;
      if !payloadsVerified {
        var _ :- VerifyAll(records);
      } else {
        AlreadyVerified(records);
      }
      return Success(values);
    }
  }
}
