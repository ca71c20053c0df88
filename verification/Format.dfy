/**
 The K3X v1 binary layout: alignment, the superblock, the three record types, directories, the
 extent layout check and the self-excluding root digest. CRC32C and SHA-256 are arbitrary functions.
 */
module Format {
  import opened Wrappers
  import opened Bytes
  import opened Arithmetic

  const SUPERBLOCK_BYTES: nat := 4096
  const EXTENT_ALIGNMENT: nat := 4096
  const TENSOR_RECORD_BYTES: nat := 128
  const LAYER_RECORD_BYTES: nat := 64
  const EXPERT_RECORD_BYTES: nat := 64
  const MODEL_CONFIG_BYTES: nat := 256

  type uint32 = x: int | 0 <= x < 0x1_0000_0000
  type Digest = d: seq<byte> | |d| == 32 witness Zeros(32)
  type Uuid = u: seq<byte> | |u| == 16 witness Zeros(16)

  datatype Hashes = Hashes(crc: seq<byte> -> uint32, sha: seq<byte> -> Digest)

  /** The least multiple of the extent alignment that is not below `value`. */
  function AlignUp(value: nat): (r: nat)
    ensures r % EXTENT_ALIGNMENT == 0 && value <= r < value + EXTENT_ALIGNMENT
  {
    (value + EXTENT_ALIGNMENT - 1) / EXTENT_ALIGNMENT * EXTENT_ALIGNMENT
  }

  lemma AlignUpOfAligned(value: nat)
    requires value % EXTENT_ALIGNMENT == 0
    ensures AlignUp(value) == value
  {
  }

  // ----- Tensor records -----

  datatype DType = FP32 | UINT8 | BF16
  datatype Quantization = Unquantized | MXFP4

  function DTypeCode(d: DType): nat {
    match d case FP32 => 1 case UINT8 => 2 case BF16 => 3
  }

  function DTypeOf(code: nat): (r: Option<DType>)
    ensures r.Some? ==> DTypeCode(r.value) == code
  {
    if code == 1 then Some(FP32) else if code == 2 then Some(UINT8) else if code == 3 then Some(BF16) else None
  }

  function QuantizationCode(q: Quantization): nat {
    match q case Unquantized => 0 case MXFP4 => 1
  }

  function QuantizationOf(code: nat): (r: Option<Quantization>)
    ensures r.Some? ==> QuantizationCode(r.value) == code
  {
    if code == 0 then Some(Unquantized) else if code == 1 then Some(MXFP4) else None
  }

  datatype TensorRecord = TensorRecord(
    tensorId: nat,
    role: nat,
    dtype: DType,
    quantization: Quantization,
    dimensions: seq<nat>,
    layerId: int,
    expertId: int,
    dataOffset: nat,
    dataLength: nat,
    logicalLength: nat,
    auxiliaryOffset: nat,
    auxiliaryLength: nat,
    dataCrc: nat,
    auxiliaryCrc: nat,
    flags: nat)

  // "<QIHHBBHiiI" and "<4Q5QII"
  const TENSOR_HEAD: seq<nat> := [8, 4, 2, 2] + [1, 1, 2] + [4, 4, 4]
  const TENSOR_TAIL: seq<nat> := [8, 8, 8, 8] + [8, 8, 8] + [8, 8, 4, 4]

  lemma TensorWidths()
    ensures Total(TENSOR_HEAD) == 32 && Total(TENSOR_TAIL) == 80
  {
    TotalAppend([8, 4, 2, 2] + [1, 1, 2], [4, 4, 4]);
    TotalAppend([8, 4, 2, 2], [1, 1, 2]);
    TotalAppend([8, 8, 8, 8] + [8, 8, 8], [8, 8, 4, 4]);
    TotalAppend([8, 8, 8, 8], [8, 8, 8]);
  }

  function HeadFields(r: TensorRecord): (f: seq<nat>)
    requires IsInt32(r.layerId) && IsInt32(r.expertId)
    ensures |f| == |TENSOR_HEAD|
  {
    [r.tensorId, r.role, DTypeCode(r.dtype), QuantizationCode(r.quantization), |r.dimensions|, r.flags, 0,
     FromSigned(r.layerId), FromSigned(r.expertId), 0]
  }

  function Dimension(r: TensorRecord, i: nat): nat {
    if i < |r.dimensions| then r.dimensions[i] else 0
  }

  function TailFields(r: TensorRecord): (f: seq<nat>)
    ensures |f| == |TENSOR_TAIL|
  {
    [Dimension(r, 0), Dimension(r, 1), Dimension(r, 2), Dimension(r, 3),
     r.dataOffset, r.dataLength, r.logicalLength, r.auxiliaryOffset, r.auxiliaryLength,
     r.dataCrc, r.auxiliaryCrc]
  }

  /** Every field fits its width; `struct.pack_into` raises otherwise. */
  predicate TensorPackable(r: TensorRecord) {
    && IsInt32(r.layerId) && IsInt32(r.expertId)
    && Fits(TENSOR_HEAD, HeadFields(r)) && Fits(TENSOR_TAIL, TailFields(r))
  }

  function JoinTensor(head: seq<nat>, tail: seq<nat>): (b: seq<byte>)
    requires Fits(TENSOR_HEAD, head) && Fits(TENSOR_TAIL, tail)
    ensures |b| == TENSOR_RECORD_BYTES
  {
    TensorWidths();
    Pack(TENSOR_HEAD, head) + Pack(TENSOR_TAIL, tail) + Zeros(16)
  }

  lemma JoinTensorInverse(b: seq<byte>)
    requires |b| == TENSOR_RECORD_BYTES && AllZero(b[112..])
    requires |b[..32]| == Total(TENSOR_HEAD) && |b[32..112]| == Total(TENSOR_TAIL)
    ensures JoinTensor(Unpack(TENSOR_HEAD, b[..32]), Unpack(TENSOR_TAIL, b[32..112])) == b
  {
    PackUnpack(TENSOR_HEAD, b[..32]);
    PackUnpack(TENSOR_TAIL, b[32..112]);
    AllZeroIsZeros(b[112..]);
    assert b == b[..32] + b[32..112] + b[112..];
  }

  function EncodeTensor(r: TensorRecord): (b: Result<seq<byte>>)
    ensures b.Success? ==> |b.value| == TENSOR_RECORD_BYTES
    ensures b.Success? <==> |r.dimensions| <= 4 && TensorPackable(r)
  {
    if |r.dimensions| > 4 then Failure("INVALID_TENSOR_RANK")
    else if !TensorPackable(r) then Failure("struct.error")
    else Success(JoinTensor(HeadFields(r), TailFields(r)))
  }

  predicate AllZeroNat(v: seq<nat>) {
    forall i :: 0 <= i < |v| ==> v[i] == 0
  }

  /** The field-by-field part of decoding, once the two structs are unpacked. */
  function TensorOfFields(head: seq<nat>, reserved: seq<byte>, tail: seq<nat>): (r: Result<TensorRecord>)
    requires |head| == |TENSOR_HEAD| && |tail| == |TENSOR_TAIL|
    requires head[7] < 0x1_0000_0000 && head[8] < 0x1_0000_0000
  {
    if head[1] != 0 then Failure("UNSUPPORTED_TENSOR_ROLE")
    else if head[5] != 0 then Failure("UNSUPPORTED_TENSOR_FLAGS")
    else if head[6] != 0 || head[9] != 0 || !AllZero(reserved) then Failure("NONZERO_RESERVED_BYTES")
    else if head[4] > 4 then Failure("INVALID_TENSOR_RANK")
    else if !AllZeroNat(tail[head[4]..4]) then Failure("NONZERO_UNUSED_DIMENSION")
    else if DTypeOf(head[2]).None? || QuantizationOf(head[3]).None? then Failure("INVALID_TENSOR_ENUM")
    else
      Success(TensorRecord(head[0], head[1], DTypeOf(head[2]).value, QuantizationOf(head[3]).value,
                           tail[..head[4]], ToSigned(head[7]), ToSigned(head[8]),
                           tail[4], tail[5], tail[6], tail[7], tail[8], tail[9], tail[10], head[5]))
  }

  function DecodeTensor(b: seq<byte>): (r: Result<TensorRecord>) {
    if |b| != TENSOR_RECORD_BYTES then Failure("INVALID_TENSOR_RECORD")
    else
      TensorWidths();
      var head := Unpack(TENSOR_HEAD, b[..32]);
      SignedFieldsFit(head);
      TensorOfFields(head, b[112..], Unpack(TENSOR_TAIL, b[32..112]))
  }

  lemma SignedFieldsFit(head: seq<nat>)
    requires Fits(TENSOR_HEAD, head)
    ensures head[7] < 0x1_0000_0000 && head[8] < 0x1_0000_0000
  {
    RangeValues();
    assert head[7] < Range(TENSOR_HEAD[7]) && head[8] < Range(TENSOR_HEAD[8]);
  }

  lemma FieldsOfTensor(r: TensorRecord)
    requires |r.dimensions| <= 4 && IsInt32(r.layerId) && IsInt32(r.expertId)
    ensures TensorOfFields(HeadFields(r), Zeros(16), TailFields(r)) ==
      if r.role != 0 then Failure("UNSUPPORTED_TENSOR_ROLE")
      else if r.flags != 0 then Failure("UNSUPPORTED_TENSOR_FLAGS")
      else Success(r)
  {
    assert TailFields(r)[..|r.dimensions|] == r.dimensions;
  }

  lemma TensorOfFieldsInverse(head: seq<nat>, reserved: seq<byte>, tail: seq<nat>)
    requires |head| == |TENSOR_HEAD| && |tail| == |TENSOR_TAIL|
    requires head[7] < 0x1_0000_0000 && head[8] < 0x1_0000_0000
    requires TensorOfFields(head, reserved, tail).Success?
    ensures var r := TensorOfFields(head, reserved, tail).value;
      && |r.dimensions| <= 4
      && HeadFields(r) == head && TailFields(r) == tail && AllZero(reserved)
  {
    var r := TensorOfFields(head, reserved, tail).value;
    assert forall i :: head[4] <= i < 4 ==> tail[i] == tail[head[4]..4][i - head[4]];
    assert HeadFields(r) == head;
    assert TailFields(r) == tail;
  }

  /** What is encoded decodes to itself; the reader only refuses the role and the flags it does not know. */
  lemma TensorRoundTrip(r: TensorRecord)
    requires EncodeTensor(r).Success?
    ensures DecodeTensor(EncodeTensor(r).value) ==
      if r.role != 0 then Failure("UNSUPPORTED_TENSOR_ROLE")
      else if r.flags != 0 then Failure("UNSUPPORTED_TENSOR_FLAGS")
      else Success(r)
  {
    TensorWidths();
    var b := EncodeTensor(r).value;
    assert b[..32] == Pack(TENSOR_HEAD, HeadFields(r));
    assert b[32..112] == Pack(TENSOR_TAIL, TailFields(r));
    assert b[112..] == Zeros(16);
    UnpackPack(TENSOR_HEAD, HeadFields(r));
    UnpackPack(TENSOR_TAIL, TailFields(r));
    FieldsOfTensor(r);
  }

  /** An accepted record re-encodes to the very same bytes. */
  lemma TensorBytesRoundTrip(b: seq<byte>)
    requires DecodeTensor(b).Success?
    ensures EncodeTensor(DecodeTensor(b).value) == Success(b)
  {
    TensorWidths();
    var head := Unpack(TENSOR_HEAD, b[..32]);
    SignedFieldsFit(head);
    TensorOfFieldsInverse(head, b[112..], Unpack(TENSOR_TAIL, b[32..112]));
    JoinTensorInverse(b);
  }

  // ----- Layer records: "<IHHIIIIiI" and 32 reserved bytes -----

  datatype LayerRecord = LayerRecord(
    layerIndex: nat, attentionKind: nat, ffnKind: nat, firstTensor: nat, tensorCount: nat,
    firstExpert: nat, expertCount: nat, residualWriteIndex: int, flags: nat)

  const LAYER_WIDTHS: seq<nat> := [4, 2, 2] + [4, 4, 4] + [4, 4, 4]

  lemma LayerWidths()
    ensures Total(LAYER_WIDTHS) == 32
  {
    TotalAppend([4, 2, 2] + [4, 4, 4], [4, 4, 4]);
    TotalAppend([4, 2, 2], [4, 4, 4]);
  }

  function LayerFields(r: LayerRecord): (f: seq<nat>)
    requires IsInt32(r.residualWriteIndex)
    ensures |f| == |LAYER_WIDTHS|
  {
    [r.layerIndex, r.attentionKind, r.ffnKind, r.firstTensor, r.tensorCount, r.firstExpert, r.expertCount,
     FromSigned(r.residualWriteIndex), r.flags]
  }

  function EncodeLayer(r: LayerRecord): (b: Result<seq<byte>>)
    ensures b.Success? ==> |b.value| == LAYER_RECORD_BYTES
  {
    if !IsInt32(r.residualWriteIndex) || !Fits(LAYER_WIDTHS, LayerFields(r)) then Failure("struct.error")
    else
      LayerWidths();
      Success(Pack(LAYER_WIDTHS, LayerFields(r)) + Zeros(32))
  }

  predicate KnownKinds(attention: nat, ffn: nat) {
    (attention == 1 || attention == 2) && (ffn == 1 || ffn == 2)
  }

  function LayerOfFields(f: seq<nat>): (r: Result<LayerRecord>)
    requires |f| == |LAYER_WIDTHS| && f[7] < 0x1_0000_0000
  {
    if !KnownKinds(f[1], f[2]) then Failure("INVALID_LAYER_ENUM")
    else if f[8] != 0 then Failure("UNSUPPORTED_LAYER_FLAGS")
    else Success(LayerRecord(f[0], f[1], f[2], f[3], f[4], f[5], f[6], ToSigned(f[7]), f[8]))
  }

  function DecodeLayer(b: seq<byte>): (r: Result<LayerRecord>) {
    if |b| != LAYER_RECORD_BYTES || !AllZero(b[32..]) then Failure("INVALID_LAYER_RECORD")
    else
      LayerWidths();
      RangeValues();
      var f := Unpack(LAYER_WIDTHS, b[..32]);
      assert f[7] < Range(LAYER_WIDTHS[7]);
      LayerOfFields(f)
  }

  lemma FieldsOfLayer(r: LayerRecord)
    requires IsInt32(r.residualWriteIndex)
    ensures LayerOfFields(LayerFields(r)) ==
      if !KnownKinds(r.attentionKind, r.ffnKind) then Failure("INVALID_LAYER_ENUM")
      else if r.flags != 0 then Failure("UNSUPPORTED_LAYER_FLAGS")
      else Success(r)
  {
  }

  lemma LayerRoundTrip(r: LayerRecord)
    requires EncodeLayer(r).Success?
    ensures DecodeLayer(EncodeLayer(r).value) ==
      if !KnownKinds(r.attentionKind, r.ffnKind) then Failure("INVALID_LAYER_ENUM")
      else if r.flags != 0 then Failure("UNSUPPORTED_LAYER_FLAGS")
      else Success(r)
  {
    LayerWidths();
    var b := EncodeLayer(r).value;
    assert b[..32] == Pack(LAYER_WIDTHS, LayerFields(r));
    assert b[32..] == Zeros(32);
    UnpackPack(LAYER_WIDTHS, LayerFields(r));
    FieldsOfLayer(r);
  }

  lemma LayerBytesRoundTrip(b: seq<byte>)
    requires DecodeLayer(b).Success?
    ensures EncodeLayer(DecodeLayer(b).value) == Success(b)
  {
    LayerWidths();
    var f := Unpack(LAYER_WIDTHS, b[..32]);
    var r := DecodeLayer(b).value;
    assert LayerFields(r) == f;
    PackUnpack(LAYER_WIDTHS, b[..32]);
    AllZeroIsZeros(b[32..]);
    assert b == b[..32] + b[32..];
  }

  // ----- Expert records: "<IIIIQQQQ" and 16 reserved bytes -----

  datatype ExpertRecord = ExpertRecord(
    layerIndex: nat, expertId: nat, physicalOrder: nat, flags: nat,
    gateTensorId: nat, upTensorId: nat, downTensorId: nat, profileFrequency: nat)

  const EXPERT_WIDTHS: seq<nat> := [4, 4, 4, 4] + [8, 8, 8, 8]

  lemma ExpertWidths()
    ensures Total(EXPERT_WIDTHS) == 48
  {
    TotalAppend([4, 4, 4, 4], [8, 8, 8, 8]);
  }

  function ExpertFields(r: ExpertRecord): (f: seq<nat>)
    ensures |f| == |EXPERT_WIDTHS|
  {
    [r.layerIndex, r.expertId, r.physicalOrder, r.flags, r.gateTensorId, r.upTensorId, r.downTensorId,
     r.profileFrequency]
  }

  function EncodeExpert(r: ExpertRecord): (b: Result<seq<byte>>)
    ensures b.Success? ==> |b.value| == EXPERT_RECORD_BYTES
  {
    if !Fits(EXPERT_WIDTHS, ExpertFields(r)) then Failure("struct.error")
    else
      ExpertWidths();
      Success(Pack(EXPERT_WIDTHS, ExpertFields(r)) + Zeros(16))
  }

  function DecodeExpert(b: seq<byte>): (r: Result<ExpertRecord>) {
    if |b| != EXPERT_RECORD_BYTES || !AllZero(b[48..]) then Failure("INVALID_EXPERT_RECORD")
    else
      ExpertWidths();
      var f := Unpack(EXPERT_WIDTHS, b[..48]);
      if f[3] != 0 then Failure("UNSUPPORTED_EXPERT_FLAGS")
      else Success(ExpertRecord(f[0], f[1], f[2], f[3], f[4], f[5], f[6], f[7]))
  }

  lemma ExpertRoundTrip(r: ExpertRecord)
    requires EncodeExpert(r).Success?
    ensures DecodeExpert(EncodeExpert(r).value) ==
      if r.flags != 0 then Failure("UNSUPPORTED_EXPERT_FLAGS") else Success(r)
  {
    ExpertWidths();
    var b := EncodeExpert(r).value;
    assert b[..48] == Pack(EXPERT_WIDTHS, ExpertFields(r));
    assert b[48..] == Zeros(16);
    UnpackPack(EXPERT_WIDTHS, ExpertFields(r));
  }

  lemma ExpertBytesRoundTrip(b: seq<byte>)
    requires DecodeExpert(b).Success?
    ensures EncodeExpert(DecodeExpert(b).value) == Success(b)
  {
    ExpertWidths();
    var f := Unpack(EXPERT_WIDTHS, b[..48]);
    assert ExpertFields(DecodeExpert(b).value) == f;
    PackUnpack(EXPERT_WIDTHS, b[..48]);
    AllZeroIsZeros(b[48..]);
    assert b == b[..48] + b[48..];
  }

  // ----- Directories -----

  const DIRECTORY_HEADER: seq<nat> := [4, 8]

  function EncodeDirectory(tag: seq<byte>, recordSize: nat, items: seq<seq<byte>>): (b: Result<seq<byte>>)
    ensures b.Success? ==> |b.value| == 16 + |items| * recordSize
  {
    if |tag| != 4 || exists i :: 0 <= i < |items| && |items[i]| != recordSize then Failure("INVALID_DIRECTORY")
    else if !Fits(DIRECTORY_HEADER, [recordSize, |items|]) then Failure("struct.error")
    else
      ConcatLength(items, recordSize);
      Success(tag + Pack(DIRECTORY_HEADER, [recordSize, |items|]) + Concat(items))
  }

  function DecodeDirectory(b: seq<byte>, tag: seq<byte>, recordSize: nat): (r: Result<seq<seq<byte>>>)
    requires recordSize > 0
    ensures r.Success? ==> forall i :: 0 <= i < |r.value| ==> |r.value[i]| == recordSize
  {
    if |b| < 16 then Failure("TRUNCATED_DIRECTORY")
    else
      var header := Unpack(DIRECTORY_HEADER, b[4..16]);
      if b[..4] != tag || header[0] != recordSize then Failure("INVALID_DIRECTORY_HEADER")
      else if header[1] > (|b| - 16) / recordSize || |b| != 16 + header[1] * recordSize then
        Failure("INVALID_DIRECTORY_LENGTH")
      else
        Success(Slices(b[16..], recordSize, header[1]))
  }

  /** `b` cut into `count` pieces of `size` bytes. */
  function Slices(b: seq<byte>, size: nat, count: nat): (parts: seq<seq<byte>>)
    requires |b| == count * size
    ensures |parts| == count
    ensures forall i :: 0 <= i < count ==> |parts[i]| == size
  {
    if count == 0 then []
    else
      assert |b| == (count - 1) * size + size;
      Slices(b[..(count - 1) * size], size, count - 1) + [b[(count - 1) * size..]]
  }

  lemma {:induction false} ConcatLength(parts: seq<seq<byte>>, size: nat)
    requires forall i :: 0 <= i < |parts| ==> |parts[i]| == size
    ensures |Concat(parts)| == |parts| * size
  {
    if parts != [] {
      ConcatLength(parts[..|parts| - 1], size);
      assert |parts| * size == (|parts| - 1) * size + size;
    }
  }

  lemma {:induction false} SlicesOfConcat(parts: seq<seq<byte>>, size: nat)
    requires forall i :: 0 <= i < |parts| ==> |parts[i]| == size
    ensures |Concat(parts)| == |parts| * size
    ensures Slices(Concat(parts), size, |parts|) == parts
  {
    ConcatLength(parts, size);
    if parts != [] {
      var front := parts[..|parts| - 1];
      SlicesOfConcat(front, size);
      assert Concat(parts)[..(|parts| - 1) * size] == Concat(front);
      assert Concat(parts)[(|parts| - 1) * size..] == parts[|parts| - 1];
    }
  }

  lemma {:induction false} ConcatOfSlices(b: seq<byte>, size: nat, count: nat)
    requires |b| == count * size
    ensures Concat(Slices(b, size, count)) == b
  {
    if count != 0 {
      assert |b| == (count - 1) * size + size;
      ConcatOfSlices(b[..(count - 1) * size], size, count - 1);
      var parts := Slices(b, size, count);
      assert parts[..count - 1] == Slices(b[..(count - 1) * size], size, count - 1);
    }
  }

  lemma DirectoryRoundTrip(tag: seq<byte>, recordSize: nat, items: seq<seq<byte>>)
    requires recordSize > 0 && EncodeDirectory(tag, recordSize, items).Success?
    ensures DecodeDirectory(EncodeDirectory(tag, recordSize, items).value, tag, recordSize) == Success(items)
  {
    var header := [recordSize, |items|];
    var b := EncodeDirectory(tag, recordSize, items).value;
    assert b[..4] == tag;
    assert b[4..16] == Pack(DIRECTORY_HEADER, header);
    assert b[16..] == Concat(items);
    UnpackPack(DIRECTORY_HEADER, header);
    SlicesOfConcat(items, recordSize);
    QuotientUnique(|items| * recordSize, recordSize, |items|, 0);
  }

  lemma DirectoryBytesRoundTrip(b: seq<byte>, tag: seq<byte>, recordSize: nat)
    requires recordSize > 0 && |tag| == 4 && DecodeDirectory(b, tag, recordSize).Success?
    ensures EncodeDirectory(tag, recordSize, DecodeDirectory(b, tag, recordSize).value) == Success(b)
  {
    var header := Unpack(DIRECTORY_HEADER, b[4..16]);
    PackUnpack(DIRECTORY_HEADER, b[4..16]);
    assert header == [recordSize, header[1]];
    ConcatOfSlices(b[16..], recordSize, header[1]);
    assert b == b[..4] + b[4..16] + b[16..];
  }

  // ----- The superblock -----

  datatype Superblock = Superblock(
    sourceSha: Digest, uuid: Uuid, state: nat, requiredFeatures: nat, optionalFeatures: nat,
    tensorOffset: nat, tensorLength: nat, layerOffset: nat, layerLength: nat,
    expertOffset: nat, expertLength: nat, configOffset: nat, configLength: nat,
    payloadOffset: nat, fileLength: nat, directorySha: Digest, rootSha: Digest)

  const MAGIC: seq<byte> := [0x4B, 0x33, 0x58, 0x43, 0x48, 0x4B, 0x50, 0x54]  // "K3XCHKPT"
  const SUPERBLOCK_HEAD: seq<nat> := [2, 2, 4] + [4, 4] + [8, 8]
  const SUPERBLOCK_TAIL: seq<nat> := [8, 8, 8, 8, 8] + [8, 8, 8, 8, 8]

  lemma SuperblockWidths()
    ensures Total(SUPERBLOCK_HEAD) == 32 && Total(SUPERBLOCK_TAIL) == 80
  {
    TotalAppend([2, 2, 4] + [4, 4], [8, 8]);
    TotalAppend([2, 2, 4], [4, 4]);
    TotalAppend([8, 8, 8, 8, 8], [8, 8, 8, 8, 8]);
  }

  function SuperblockHead(s: Superblock): (f: seq<nat>)
    ensures |f| == |SUPERBLOCK_HEAD|
  {
    [1, 0, SUPERBLOCK_BYTES, EXTENT_ALIGNMENT, s.state, s.requiredFeatures, s.optionalFeatures]
  }

  function SuperblockTail(s: Superblock): (f: seq<nat>)
    ensures |f| == |SUPERBLOCK_TAIL|
  {
    [s.tensorOffset, s.tensorLength, s.layerOffset, s.layerLength, s.expertOffset, s.expertLength,
     s.configOffset, s.configLength, s.payloadOffset, s.fileLength]
  }

  predicate SuperblockPackable(s: Superblock) {
    Fits(SUPERBLOCK_HEAD, SuperblockHead(s)) && Fits(SUPERBLOCK_TAIL, SuperblockTail(s))
  }

  /** The 168 bytes before the two digests. */
  function SuperblockFields(s: Superblock): (b: seq<byte>)
    requires SuperblockPackable(s)
    ensures |b| == 168
  {
    SuperblockWidths();
    MAGIC + Pack(SUPERBLOCK_HEAD, SuperblockHead(s)) + s.uuid + s.sourceSha
    + Pack(SUPERBLOCK_TAIL, SuperblockTail(s))
  }

  function SuperblockPrefix(s: Superblock): (b: seq<byte>)
    requires SuperblockPackable(s)
    ensures |b| == 4092
  {
    SuperblockFields(s) + s.directorySha + s.rootSha + Zeros(3860)
  }

  function CrcBytes(h: Hashes, b: seq<byte>): (c: seq<byte>)
    ensures |c| == 4
  {
    RangeValues();
    ToLE(h.crc(b), 4)
  }

  function EncodeSuperblock(h: Hashes, s: Superblock): (b: Result<seq<byte>>)
    ensures b.Success? ==> |b.value| == SUPERBLOCK_BYTES
    ensures b.Success? <==> SuperblockPackable(s)
  {
    if !SuperblockPackable(s) then Failure("struct.error")
    else Success(SuperblockPrefix(s) + CrcBytes(h, SuperblockPrefix(s)))
  }

  function SuperblockOfFields(head: seq<nat>, uuid: Uuid, sourceSha: Digest, tail: seq<nat>,
                              directorySha: Digest, rootSha: Digest): Superblock
    requires |head| == |SUPERBLOCK_HEAD| && |tail| == |SUPERBLOCK_TAIL|
  {
    Superblock(sourceSha, uuid, head[4], head[5], head[6], tail[0], tail[1], tail[2], tail[3], tail[4],
               tail[5], tail[6], tail[7], tail[8], tail[9], directorySha, rootSha)
  }

  function DecodeSuperblock(h: Hashes, b: seq<byte>): (r: Result<Superblock>) {
    if |b| != SUPERBLOCK_BYTES then Failure("TRUNCATED_SUPERBLOCK")
    else if b[..8] != MAGIC then Failure("BAD_MAGIC")
    else
      SuperblockWidths();
      var head := Unpack(SUPERBLOCK_HEAD, b[8..40]);
      if head[0] != 1 || head[1] != 0 then Failure("UNSUPPORTED_VERSION")
      else if head[2] != SUPERBLOCK_BYTES || head[3] != EXTENT_ALIGNMENT then Failure("INVALID_SUPERBLOCK_LAYOUT")
      else if b[4092..] != CrcBytes(h, b[..4092]) then Failure("SUPERBLOCK_CRC_MISMATCH")
      else if !AllZero(b[232..4092]) then Failure("NONZERO_RESERVED_BYTES")
      else if head[5] != 0 then Failure("UNSUPPORTED_REQUIRED_FEATURE")
      else
        Success(SuperblockOfFields(head, b[40..56], b[56..88], Unpack(SUPERBLOCK_TAIL, b[88..168]),
                                   b[168..200], b[200..232]))
  }

  /** Where each part of an encoded superblock sits. */
  lemma SuperblockParts(h: Hashes, s: Superblock)
    requires SuperblockPackable(s)
    ensures var b := EncodeSuperblock(h, s).value;
      && b[..8] == MAGIC
      && b[8..40] == Pack(SUPERBLOCK_HEAD, SuperblockHead(s))
      && b[40..56] == s.uuid && b[56..88] == s.sourceSha
      && b[88..168] == Pack(SUPERBLOCK_TAIL, SuperblockTail(s))
  {
    SuperblockWidths();
    var b := EncodeSuperblock(h, s).value;
    var fields := SuperblockFields(s);
    assert b[..168] == fields;
    assert fields[..8] == MAGIC;
    assert fields[8..40] == Pack(SUPERBLOCK_HEAD, SuperblockHead(s));
    assert fields[40..56] == s.uuid;
    assert fields[56..88] == s.sourceSha;
    assert fields[88..168] == Pack(SUPERBLOCK_TAIL, SuperblockTail(s));
    assert b[..8] == fields[..8] && b[8..40] == fields[8..40] && b[40..56] == fields[40..56]
           && b[56..88] == fields[56..88] && b[88..168] == fields[88..168];
  }

  lemma SuperblockDigests(h: Hashes, s: Superblock)
    requires SuperblockPackable(s)
    ensures var b := EncodeSuperblock(h, s).value;
      && b[168..200] == s.directorySha && b[200..232] == s.rootSha
      && b[232..4092] == Zeros(3860)
      && b[..4092] == SuperblockPrefix(s) && b[4092..] == CrcBytes(h, b[..4092])
  {
    var b := EncodeSuperblock(h, s).value;
    assert b[..4092] == SuperblockPrefix(s);
    assert b[168..200] == SuperblockPrefix(s)[168..200];
    assert b[200..232] == SuperblockPrefix(s)[200..232];
    assert b[232..4092] == SuperblockPrefix(s)[232..4092];
  }

  lemma SuperblockRoundTrip(h: Hashes, s: Superblock)
    requires EncodeSuperblock(h, s).Success?
    ensures DecodeSuperblock(h, EncodeSuperblock(h, s).value) ==
      if s.requiredFeatures != 0 then Failure("UNSUPPORTED_REQUIRED_FEATURE") else Success(s)
  {
    SuperblockWidths();
    SuperblockParts(h, s);
    SuperblockDigests(h, s);
    UnpackPack(SUPERBLOCK_HEAD, SuperblockHead(s));
    UnpackPack(SUPERBLOCK_TAIL, SuperblockTail(s));
  }

  lemma PrefixRejoins(s: Superblock, b: seq<byte>)
    requires SuperblockPackable(s) && |b| == SUPERBLOCK_BYTES
    requires b[..8] == MAGIC && b[8..40] == Pack(SUPERBLOCK_HEAD, SuperblockHead(s))
    requires b[40..56] == s.uuid && b[56..88] == s.sourceSha
    requires b[88..168] == Pack(SUPERBLOCK_TAIL, SuperblockTail(s))
    requires b[168..200] == s.directorySha && b[200..232] == s.rootSha && b[232..4092] == Zeros(3860)
    ensures SuperblockPrefix(s) == b[..4092]
  {
    SuperblockWidths();
    assert SuperblockFields(s) == b[..168] by {
      assert b[..168] == b[..8] + b[8..40] + b[40..56] + b[56..88] + b[88..168];
    }
    assert b[..4092] == b[..168] + b[168..200] + b[200..232] + b[232..4092];
  }

  lemma DecodedParts(h: Hashes, b: seq<byte>)
    requires DecodeSuperblock(h, b).Success?
    ensures |b| == SUPERBLOCK_BYTES
    ensures var s := DecodeSuperblock(h, b).value;
      && SuperblockPackable(s)
      && b[..8] == MAGIC && b[8..40] == Pack(SUPERBLOCK_HEAD, SuperblockHead(s))
      && b[40..56] == s.uuid && b[56..88] == s.sourceSha
      && b[88..168] == Pack(SUPERBLOCK_TAIL, SuperblockTail(s))
      && b[168..200] == s.directorySha && b[200..232] == s.rootSha
    ensures b[232..4092] == Zeros(3860) && b[4092..] == CrcBytes(h, b[..4092])
  {
    SuperblockWidths();
    var s := DecodeSuperblock(h, b).value;
    assert SuperblockHead(s) == Unpack(SUPERBLOCK_HEAD, b[8..40]);
    assert SuperblockTail(s) == Unpack(SUPERBLOCK_TAIL, b[88..168]);
    PackUnpack(SUPERBLOCK_HEAD, b[8..40]);
    PackUnpack(SUPERBLOCK_TAIL, b[88..168]);
    AllZeroIsZeros(b[232..4092]);
  }

  lemma SuperblockBytesRoundTrip(h: Hashes, b: seq<byte>)
    requires DecodeSuperblock(h, b).Success?
    ensures EncodeSuperblock(h, DecodeSuperblock(h, b).value) == Success(b)
  {
    DecodedParts(h, b);
    PrefixRejoins(DecodeSuperblock(h, b).value, b);
    assert b == b[..4092] + b[4092..];
  }

  // ----- The self-excluding root digest -----

  predicate Excluded(position: nat) {
    200 <= position < 232 || 4092 <= position < 4096
  }

  /** The file with the root digest field and the superblock checksum blanked out. */
  function Masked(b: seq<byte>): (m: seq<byte>)
    ensures |m| == |b|
  {
    seq(|b|, i requires 0 <= i < |b| => if Excluded(i) then 0 else b[i])
  }

  function RootSha(h: Hashes, b: seq<byte>): Digest {
    h.sha(Masked(b))
  }

  /** Filling in the root digest does not change the root digest. */
  lemma RootDigestExcludesItself(h: Hashes, s: Superblock, root: Digest, body: seq<byte>)
    requires SuperblockPackable(s)
    ensures EncodeSuperblock(h, s.(rootSha := root)).Success?
    ensures RootSha(h, EncodeSuperblock(h, s.(rootSha := root)).value + body) ==
            RootSha(h, EncodeSuperblock(h, s).value + body)
  {
    var t := s.(rootSha := root);
    var a, b := EncodeSuperblock(h, s).value, EncodeSuperblock(h, t).value;
    assert SuperblockFields(t) == SuperblockFields(s);
    SuperblockDigests(h, s);
    SuperblockDigests(h, t);
    forall i | 0 <= i < SUPERBLOCK_BYTES && !Excluded(i)
      ensures a[i] == b[i]
    {
      assert a[i] == SuperblockPrefix(s)[i];
      assert b[i] == SuperblockPrefix(t)[i];
    }
    assert Masked(a + body) == Masked(b + body);
  }

  /** Blanks the part of `chunk` (read at `position`) that falls into [start, end). */
  function Blank(chunk: seq<byte>, position: nat, start: nat, end: nat): (r: seq<byte>)
    requires start <= end
    ensures |r| == |chunk|
    ensures forall i :: 0 <= i < |chunk| ==>
      r[i] == if start <= position + i < end then 0 else chunk[i]
  {
    var left := if start > position then start - position else 0;
    var right := if end < position then 0 else if end - position < |chunk| then end - position else |chunk|;
    if left < right then chunk[..left] + Zeros(right - left) + chunk[right..] else chunk
  }

  /** The digest loop: whatever the chunk size, it hashes the masked file. */
  method ComputeRootSha(h: Hashes, file: seq<byte>, fileLength: nat, chunkBytes: nat) returns (r: Result<Digest>)
    requires chunkBytes > 0
    ensures r == if |file| < fileLength then Failure("TRUNCATED_FILE")
                 else Success(RootSha(h, file[..fileLength]))
  {
    var hashed: seq<byte> := [];
    var position := 0;
    while position < fileLength
      invariant position == |hashed| <= fileLength && position <= |file|
      invariant hashed == Masked(file[..position])
    {
      var wanted := if chunkBytes < fileLength - position then chunkBytes else fileLength - position;
      var end := if position + wanted < |file| then position + wanted else |file|;
      var chunk := file[position..end];
      if chunk == [] {
        return Failure("TRUNCATED_FILE");
      }
      chunk := Blank(chunk, position, 200, 232);
      chunk := Blank(chunk, position, 4092, 4096);
      hashed := hashed + chunk;
      position := end;
    }
    return Success(h.sha(hashed));
  }

  // ----- The extent layout -----

  datatype Extent = Extent(offset: nat, length: nat)

  function ExtentsOf(r: TensorRecord): seq<Extent> {
    [Extent(r.dataOffset, r.dataLength), Extent(r.auxiliaryOffset, r.auxiliaryLength)]
  }

  function AllExtents(records: seq<TensorRecord>): (e: seq<Extent>)
    ensures |e| == 2 * |records|
  {
    if records == [] then [] else AllExtents(records[..|records| - 1]) + ExtentsOf(records[|records| - 1])
  }

  predicate Placed(e: Extent, fileLength: nat, alignment: nat)
    requires alignment > 0
  {
    if e.length == 0 then e.offset == 0
    else e.offset % alignment == 0 && e.offset + e.length <= fileLength
  }

  predicate Disjoint(a: Extent, b: Extent) {
    a.length == 0 || b.length == 0 || a.offset + a.length <= b.offset || b.offset + b.length <= a.offset
  }

  /** Every extent is inside the file and aligned, and no two of them share a byte. */
  predicate LayoutOk(extents: seq<Extent>, fileLength: nat, alignment: nat)
    requires alignment > 0
  {
    && AllPlaced(extents, fileLength, alignment)
    && (forall i, j :: 0 <= i < j < |extents| ==> Disjoint(extents[i], extents[j]))
  }

  // Python tuples compare lexicographically.
  predicate Before(a: Extent, b: Extent) {
    a.offset < b.offset || (a.offset == b.offset && a.length <= b.length)
  }

  predicate Sorted(e: seq<Extent>) {
    |e| <= 1 || (Before(e[0], e[1]) && Sorted(e[1..]))
  }

  function Insert(e: seq<Extent>, x: Extent): (r: seq<Extent>)
    requires Sorted(e)
    ensures Sorted(r) && |r| == |e| + 1
    ensures forall y :: y in r <==> y in e || y == x
    ensures e != [] ==> r[0] == x || r[0] == e[0]
  {
    if e == [] || Before(x, e[0]) then [x] + e else [e[0]] + Insert(e[1..], x)
  }

  function Sort(e: seq<Extent>): (r: seq<Extent>)
    ensures Sorted(r) && |r| == |e|
    ensures forall y :: y in r <==> y in e
  {
    if e == [] then [] else Insert(Sort(e[1..]), e[0])
  }

  predicate AdjacentApart(e: seq<Extent>) {
    |e| <= 1 || (e[0].offset + e[0].length <= e[1].offset && AdjacentApart(e[1..]))
  }

  predicate PairwiseApart(e: seq<Extent>) {
    e == [] || ((forall y :: y in e[1..] ==> Disjoint(e[0], y)) && PairwiseApart(e[1..]))
  }

  lemma {:induction false} AdjacentBoundsTail(e: seq<Extent>, y: Extent)
    requires e != [] && AdjacentApart(e) && y in e[1..]
    ensures e[0].offset + e[0].length <= y.offset
  {
    if y != e[1] {
      assert y in e[1..][1..];
      AdjacentBoundsTail(e[1..], y);
    }
  }

  /** In sorted order it is enough to compare neighbours. */
  lemma {:induction false} NeighboursSuffice(e: seq<Extent>)
    requires Sorted(e) && forall y :: y in e ==> y.length > 0
    ensures AdjacentApart(e) <==> PairwiseApart(e)
  {
    if |e| >= 2 {
      NeighboursSuffice(e[1..]);
      if AdjacentApart(e) {
        forall y | y in e[1..]
          ensures Disjoint(e[0], y)
        {
          AdjacentBoundsTail(e, y);
        }
      }
      if PairwiseApart(e) {
        assert e[1] in e[1..];
      }
    }
  }

  lemma {:induction false} InsertKeepsApart(e: seq<Extent>, x: Extent)
    requires Sorted(e)
    ensures PairwiseApart(Insert(e, x)) <==> PairwiseApart(e) && forall y :: y in e ==> Disjoint(x, y)
  {
    var r := Insert(e, x);
    if e == [] || Before(x, e[0]) {
      assert r[1..] == e;
    } else {
      assert r[1..] == Insert(e[1..], x);
      InsertKeepsApart(e[1..], x);
      assert forall y :: y in e <==> y == e[0] || y in e[1..];
      assert x in r[1..];
      assert Disjoint(x, e[0]) <==> Disjoint(e[0], x);
    }
  }

  lemma {:induction false} SortKeepsApart(e: seq<Extent>)
    ensures PairwiseApart(Sort(e)) <==> PairwiseApart(e)
  {
    if e != [] {
      SortKeepsApart(e[1..]);
      InsertKeepsApart(Sort(e[1..]), e[0]);
    }
  }

  lemma {:induction false} PairwiseByIndex(e: seq<Extent>)
    ensures PairwiseApart(e) <==> forall i, j :: 0 <= i < j < |e| ==> Disjoint(e[i], e[j])
  {
    if e != [] {
      PairwiseByIndex(e[1..]);
      if PairwiseApart(e) {
        forall i, j | 0 <= i < j < |e|
          ensures Disjoint(e[i], e[j])
        {
          if i == 0 {
            assert e[j] in e[1..];
          } else {
            assert e[1..][i - 1] == e[i] && e[1..][j - 1] == e[j];
          }
        }
      }
      if forall i, j :: 0 <= i < j < |e| ==> Disjoint(e[i], e[j]) {
        forall i, j | 0 <= i < j < |e[1..]|
          ensures Disjoint(e[1..][i], e[1..][j])
        {
          assert Disjoint(e[i + 1], e[j + 1]);
        }
      }
    }
  }

  /** The extents that occupy bytes. */
  function Occupied(e: seq<Extent>): (r: seq<Extent>)
    ensures forall y :: y in r <==> y in e && y.length > 0
  {
    if e == [] then []
    else Occupied(e[..|e| - 1]) + if e[|e| - 1].length > 0 then [e[|e| - 1]] else []
  }

  lemma {:induction false} PairwiseSnoc(e: seq<Extent>, x: Extent)
    ensures PairwiseApart(e + [x]) <==> PairwiseApart(e) && forall y :: y in e ==> Disjoint(y, x)
  {
    if e != [] {
      var tail := e[1..] + [x];
      assert (e + [x])[1..] == tail && (e + [x])[0] == e[0];
      PairwiseSnoc(e[1..], x);
      assert forall y :: y in e <==> y == e[0] || y in e[1..];
      assert forall y :: y in tail <==> y in e[1..] || y == x;
      assert PairwiseApart(e + [x]) <==> (forall y :: y in tail ==> Disjoint(e[0], y)) && PairwiseApart(tail);
    } else {
      assert (e + [x])[1..] == [];
    }
  }

  lemma {:induction false} EmptyExtentsDoNotMatter(e: seq<Extent>)
    ensures PairwiseApart(Occupied(e)) <==> PairwiseApart(e)
  {
    if e != [] {
      var front, x := e[..|e| - 1], e[|e| - 1];
      assert e == front + [x];
      EmptyExtentsDoNotMatter(front);
      PairwiseSnoc(front, x);
      PairwiseSnoc(Occupied(front), x);
      assert Occupied(front) + [] == Occupied(front);
    }
  }

  /** The checks on one extent; the range it occupies, if any. */
  method CheckExtent(e: Extent, fileLength: nat, alignment: nat) returns (r: Result<seq<Extent>>)
    requires alignment > 0
    ensures r.Success? <==> Placed(e, fileLength, alignment)
    ensures r.Success? ==> r.value == if e.length > 0 then [e] else []
    ensures r.Failure? ==> r.error != "OVERLAPPING_EXTENT"
  {
    if e.length == 0 {
      if e.offset != 0 {
        return Failure("INVALID_EMPTY_EXTENT");
      }
      return Success([]);
    }
    if e.offset % alignment != 0 {
      return Failure("UNALIGNED_EXTENT");
    }
    if e.offset + e.length > fileLength {
      return Failure("TRUNCATED_FILE");
    }
    return Success([e]);
  }

  lemma OccupiedSnoc(e: seq<Extent>, x: Extent)
    ensures Occupied(e + [x]) == Occupied(e) + if x.length > 0 then [x] else []
  {
    assert (e + [x])[..|e|] == e;
  }

  predicate AllPlaced(e: seq<Extent>, fileLength: nat, alignment: nat)
    requires alignment > 0
  {
    forall i :: 0 <= i < |e| ==> Placed(e[i], fileLength, alignment)
  }

  lemma NextExtents(records: seq<TensorRecord>, index: nat)
    requires index < |records|
    ensures var before := AllExtents(records[..index]); var e := ExtentsOf(records[index]);
      && AllExtents(records[..index + 1]) == before + e
      && AllExtents(records)[2 * index] == e[0] && AllExtents(records)[2 * index + 1] == e[1]
      && Occupied(before + e) == Occupied(before) + (if e[0].length > 0 then [e[0]] else [])
                                 + (if e[1].length > 0 then [e[1]] else [])
  {
    var before, e := AllExtents(records[..index]), ExtentsOf(records[index]);
    assert records[..index + 1][..index] == records[..index];
    ExtentsPrefix(records, index + 1);
    assert before + e == (before + [e[0]]) + [e[1]];
    OccupiedSnoc(before, e[0]);
    OccupiedSnoc(before + [e[0]], e[1]);
  }

  /** The first loop: collects the occupied ranges, or stops at the first misplaced extent. */
  method CollectRanges(records: seq<TensorRecord>, fileLength: nat, alignment: nat) returns (r: Result<seq<Extent>>)
    requires alignment > 0
    ensures r.Success? <==> AllPlaced(AllExtents(records), fileLength, alignment)
    ensures r.Success? ==> r.value == Occupied(AllExtents(records))
    ensures r.Failure? ==> r.error != "OVERLAPPING_EXTENT"
  {
    var ranges: seq<Extent> := [];
    for index := 0 to |records|
      invariant ranges == Occupied(AllExtents(records[..index]))
      invariant AllPlaced(AllExtents(records[..index]), fileLength, alignment)
    {
      var e := ExtentsOf(records[index]);
      NextExtents(records, index);
      var data :- CheckExtent(e[0], fileLength, alignment);
      var auxiliary :- CheckExtent(e[1], fileLength, alignment);
      ranges := ranges + data + auxiliary;
    }
    assert records[..|records|] == records;
    return Success(ranges);
  }

  /** The second loop: compares each sorted range with the one before it. */
  method NeighboursApart(ranges: seq<Extent>) returns (apart: bool)
    ensures apart <==> AdjacentApart(ranges)
  {
    var index := 1;
    while index < |ranges|
      invariant 1 <= index && (index <= |ranges| || |ranges| == 0)
      invariant index <= |ranges| ==> (AdjacentApart(ranges) <==> AdjacentApart(ranges[index - 1..]))
    {
      assert ranges[index - 1..][1..] == ranges[index..];
      if ranges[index].offset < ranges[index - 1].offset + ranges[index - 1].length {
        return false;
      }
      index := index + 1;
    }
    return true;
  }

  /** One pass over the extents, a sort, and a comparison of neighbours decide the layout exactly. */
  method ValidateExtentLayout(records: seq<TensorRecord>, fileLength: nat, alignment: nat) returns (r: Result<bool>)
    requires alignment > 0
    ensures r.Success? <==> LayoutOk(AllExtents(records), fileLength, alignment)
    ensures r == Failure("OVERLAPPING_EXTENT") <==>
      AllPlaced(AllExtents(records), fileLength, alignment)
      && !LayoutOk(AllExtents(records), fileLength, alignment)
  {
    var collected :- CollectRanges(records, fileLength, alignment);
    OrderDecides(AllExtents(records));
    var apart := NeighboursApart(Sort(collected));
    if !apart {
      return Failure("OVERLAPPING_EXTENT");
    }
    return Success(true);
  }

  lemma OrderDecides(all: seq<Extent>)
    ensures AdjacentApart(Sort(Occupied(all))) <==>
            forall i, j :: 0 <= i < j < |all| ==> Disjoint(all[i], all[j])
  {
    SortKeepsApart(Occupied(all));
    NeighboursSuffice(Sort(Occupied(all)));
    EmptyExtentsDoNotMatter(all);
    PairwiseByIndex(all);
  }

  lemma {:induction false} ExtentsPrefix(records: seq<TensorRecord>, count: nat)
    requires count <= |records|
    ensures AllExtents(records[..count]) <= AllExtents(records)
    decreases |records|
  {
    if count == |records| {
      assert records[..count] == records;
    } else {
      var front := records[..|records| - 1];
      ExtentsPrefix(front, count);
      assert front[..count] == records[..count];
    }
  }
}
