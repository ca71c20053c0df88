/**
 Whole matrices in the packed form: element groups end to end, two codes to a byte, one scale byte a group.
 Encoding what was decoded gives it back; encoding in chunks is the same as encoding at once exactly when
 no chunk splits a byte.
 */
module Mxfp4Layout {
  import opened Arithmetic
  import opened Mxfp4
  import opened Reals
  import opened Stacking
  import opened Wrappers

  // ----- Nibbles -----

  predicate IsBytes(b: seq<nat>) {
    forall i :: 0 <= i < |b| ==> b[i] < 256
  }

  /** Even positions in the low half of each byte, odd ones in the high half. */
  function Pack(codes: seq<nat>): (b: seq<nat>)
    ensures |b| == |codes| / 2
  {
    seq(|codes| / 2, i requires 0 <= i < |codes| / 2 => codes[2 * i] + 16 * codes[2 * i + 1])
  }

  function Unpack(b: seq<nat>): (codes: seq<nat>)
    requires IsBytes(b)
    ensures |codes| == 2 * |b| && Codes(codes)
  {
    seq(2 * |b|, i requires 0 <= i < 2 * |b| => if i % 2 == 0 then b[i / 2] % 16 else b[i / 2] / 16)
  }

  lemma UnpackPack(codes: seq<nat>)
    requires Codes(codes) && |codes| % 2 == 0
    ensures IsBytes(Pack(codes)) && Unpack(Pack(codes)) == codes
  {
    var b := Pack(codes);
    forall i | 0 <= i < |codes|
      ensures Unpack(b)[i] == codes[i]
    {
      var k := i / 2;
      assert b[k] == codes[2 * k] + 16 * codes[2 * k + 1];
    }
  }

  lemma PackUnpack(b: seq<nat>)
    requires IsBytes(b)
    ensures Pack(Unpack(b)) == b
  {
    var codes := Unpack(b);
    forall i | 0 <= i < |b|
      ensures Pack(codes)[i] == b[i]
    {
      assert codes[2 * i] == b[i] % 16 && codes[2 * i + 1] == b[i] / 16;
    }
  }

  lemma PackJoins(a: seq<nat>, b: seq<nat>)
    requires |a| % 2 == 0
    ensures Pack(a + b) == Pack(a) + Pack(b)
  {
    var whole, parts := Pack(a + b), Pack(a) + Pack(b);
    forall i | 0 <= i < |whole|
      ensures whole[i] == parts[i]
    {
      if 2 * i >= |a| {
        var k := i - |a| / 2;
        assert (a + b)[2 * i] == b[2 * k] && (a + b)[2 * i + 1] == b[2 * k + 1];
      }
    }
  }

  // ----- Encoding and decoding -----

  predicate Positive(rows: int, cols: int, size: int) {
    rows > 0 && cols > 0 && size > 0
  }

  predicate Aligned(cols: int, size: int)
    requires size > 0
  {
    cols % size == 0 && cols % 2 == 0
  }

  /** Groups of a matrix, row after row. */
  function Count(rows: nat, cols: nat, size: nat): nat
    requires size > 0
  {
    rows * (cols / size)
  }

  lemma CountForm(rows: nat, cols: nat, size: nat)
    requires Positive(rows, cols, size) && Aligned(cols, size)
    ensures Count(rows, cols, size) * size == rows * cols && rows * cols % 2 == 0
    ensures Count(rows, cols, size) == rows * cols / size > 0
  {
    var q, h := cols / size, cols / 2;
    assert cols == q * size && q > 0;
    assert rows * q * size == rows * (q * size);
    assert rows * cols == 2 * (rows * h);
    assert rows * q > 0;
    QuotientUnique(rows * cols, size, rows * q, 0);
  }

  predicate AreGroups<T>(groups: seq<seq<T>>, n: nat, size: nat) {
    |groups| == n && forall i :: 0 <= i < n ==> |groups[i]| == size
  }

  predicate GroupInRange(g: seq<real>) {
    MaxAbs(g) <= 6.0 * Scale(HIGHEST)
  }

  predicate AllInRange(groups: seq<seq<real>>) {
    forall i :: 0 <= i < |groups| ==> GroupInRange(groups[i])
  }

  function Exponents(groups: seq<seq<real>>, mode: Mode): (e: seq<int>)
    requires AllInRange(groups)
    ensures |e| == |groups|
    ensures forall i :: 0 <= i < |groups| ==> Some(e[i]) == GroupExponent(groups[i], mode)
  {
    seq(|groups|, i requires 0 <= i < |groups| => GroupExponent(groups[i], mode).value)
  }

  function GroupCodes(groups: seq<seq<real>>, exponents: seq<int>): (codes: seq<seq<nat>>)
    requires |exponents| == |groups|
    ensures |codes| == |groups|
    ensures forall i :: 0 <= i < |groups| ==> codes[i] == EncodeAt(groups[i], exponents[i])
  {
    seq(|groups|, i requires 0 <= i < |groups| => EncodeAt(groups[i], exponents[i]))
  }

  function ScaleBytes(exponents: seq<int>): (b: seq<nat>)
    requires forall i :: 0 <= i < |exponents| ==> LOWEST <= exponents[i] <= HIGHEST
    ensures |b| == |exponents| && IsBytes(b)
    ensures forall i :: 0 <= i < |b| ==> b[i] <= 253 && b[i] as int - 127 == exponents[i]
  {
    seq(|exponents|, i requires 0 <= i < |exponents| => exponents[i] + 127)
  }

  datatype Payload = Payload(packed: seq<nat>, scales: seq<nat>)

  /** Encoding the whole matrix at once. */
  function Encode(groups: seq<seq<real>>, rows: nat, cols: nat, size: nat, mode: Mode): (r: Result<Payload>)
    requires Positive(rows, cols, size) && Aligned(cols, size) ==> AreGroups(groups, Count(rows, cols, size), size)
  {
    if !Positive(rows, cols, size) then Failure("rows, cols, and group_size must be positive")
    else if !Aligned(cols, size) then Failure("cols must align to group_size and nibble pairs")
    else if !AllInRange(groups) then Failure("values exceed the E8M0 exponent range")
    else
      var exponents := Exponents(groups, mode);
      Success(Payload(Pack(Stack(GroupCodes(groups, exponents))), ScaleBytes(exponents)))
  }

  function Decode(packed: seq<nat>, scales: seq<nat>, rows: nat, cols: nat, size: nat): (r: Result<seq<seq<real>>>)
    requires IsBytes(packed) && IsBytes(scales)
    ensures r.Success? ==> Positive(rows, cols, size) && Aligned(cols, size)
    ensures r.Success? ==> AreGroups(r.value, Count(rows, cols, size), size)
  {
    if !Positive(rows, cols, size) then Failure("rows, cols, and group_size must be positive")
    else if !Aligned(cols, size) then Failure("cols must align to group_size and nibble pairs")
    else if |packed| != rows * cols / 2 then Failure("packed length")
    else if |scales| != rows * cols / size then Failure("scale length")
    else if 0xFF in scales then Failure("E8M0 scale 0xff is reserved")
    else
      CountForm(rows, cols, size);
      var n := Count(rows, cols, size);
      Success(DecodeGroups(CodeGroups(packed, size, n), scales))
  }

  predicate AllCodes(codes: seq<seq<nat>>) {
    forall i :: 0 <= i < |codes| ==> Codes(codes[i])
  }

  function DecodeGroups(codes: seq<seq<nat>>, scales: seq<nat>): (groups: seq<seq<real>>)
    requires AllCodes(codes) && |scales| == |codes|
    ensures |groups| == |codes|
    ensures forall i :: 0 <= i < |codes| ==> groups[i] == DecodeAt(codes[i], scales[i] as int - 127)
  {
    seq(|codes|, i requires 0 <= i < |codes| => DecodeAt(codes[i], scales[i] as int - 127))
  }

  /** The codes of a packed matrix, by group. */
  function CodeGroups(packed: seq<nat>, size: nat, n: nat): (codes: seq<seq<nat>>)
    requires IsBytes(packed) && 2 * |packed| == n * size
    ensures AreGroups(codes, n, size) && AllCodes(codes)
  {
    CutCodes(Unpack(packed), size, n);
    Cut(Unpack(packed), size, n)
  }

  lemma {:induction false} CutCodes(x: seq<nat>, size: nat, n: nat)
    requires Codes(x) && |x| == n * size
    ensures AllCodes(Cut(x, size, n))
    decreases n
  {
    if n > 0 {
      var cut := (n - 1) * size;
      assert n * size == cut + size;
      CutCodes(x[..cut], size, n - 1);
    }
  }

  lemma {:induction false} StackCodes(parts: seq<seq<nat>>)
    requires AllCodes(parts)
    ensures Codes(Stack(parts))
  {
    if parts != [] {
      StackCodes(parts[..|parts| - 1]);
    }
  }

  /** Every group rounded under its own exponent. */
  function Rounded(groups: seq<seq<real>>, exponents: seq<int>): (r: seq<seq<real>>)
    requires |exponents| == |groups|
    ensures |r| == |groups|
    ensures forall i :: 0 <= i < |r| ==> r[i] == DecodeAt(EncodeAt(groups[i], exponents[i]), exponents[i])
  {
    seq(|groups|, i requires 0 <= i < |groups| => DecodeAt(EncodeAt(groups[i], exponents[i]), exponents[i]))
  }

  lemma CodesComeBack(codes: seq<seq<nat>>, size: nat, n: nat)
    requires AreGroups(codes, n, size) && AllCodes(codes) && n * size % 2 == 0
    ensures |Pack(Stack(codes))| * 2 == n * size
    ensures IsBytes(Pack(Stack(codes))) && CodeGroups(Pack(Stack(codes)), size, n) == codes
  {
    StackCodes(codes);
    CutStack(codes, size);
    UnpackPack(Stack(codes));
  }

  lemma SameGroups<T>(a: seq<seq<T>>, b: seq<seq<T>>)
    requires |a| == |b| && forall i :: 0 <= i < |a| ==> a[i] == b[i]
    ensures a == b
  {
  }

  /** The payload of groups already turned into codes. */
  lemma PayloadDecodes(codes: seq<seq<nat>>, exponents: seq<int>, rows: nat, cols: nat, size: nat)
    requires Positive(rows, cols, size) && Aligned(cols, size) && AreGroups(codes, Count(rows, cols, size), size)
    requires AllCodes(codes) && |exponents| == |codes|
    requires forall i :: 0 <= i < |exponents| ==> LOWEST <= exponents[i] <= HIGHEST
    ensures IsBytes(Pack(Stack(codes)))
    ensures Decode(Pack(Stack(codes)), ScaleBytes(exponents), rows, cols, size)
         == Success(DecodeGroups(codes, ScaleBytes(exponents)))
  {
    CountForm(rows, cols, size);
    CodesComeBack(codes, size, |codes|);
    DecodedPayload(Pack(Stack(codes)), ScaleBytes(exponents), codes, rows, cols, size);
  }

  lemma RoundedGroups(groups: seq<seq<real>>, exponents: seq<int>)
    requires |exponents| == |groups|
    requires forall i :: 0 <= i < |exponents| ==> LOWEST <= exponents[i] <= HIGHEST
    ensures AllCodes(GroupCodes(groups, exponents))
    ensures DecodeGroups(GroupCodes(groups, exponents), ScaleBytes(exponents)) == Rounded(groups, exponents)
  {
    SameGroups(DecodeGroups(GroupCodes(groups, exponents), ScaleBytes(exponents)), Rounded(groups, exponents));
  }

  /** Decoding what was encoded gives every group rounded under its own exponent. */
  lemma DecodeEncode(groups: seq<seq<real>>, rows: nat, cols: nat, size: nat, mode: Mode)
    requires Positive(rows, cols, size) && Aligned(cols, size) && AreGroups(groups, Count(rows, cols, size), size)
    requires AllInRange(groups)
    ensures Encode(groups, rows, cols, size, mode).Success?
    ensures var p := Encode(groups, rows, cols, size, mode).value;
      && IsBytes(p.packed)
      && Decode(p.packed, p.scales, rows, cols, size) == Success(Rounded(groups, Exponents(groups, mode)))
  {
    var e := Exponents(groups, mode);
    RoundedGroups(groups, e);
    PayloadDecodes(GroupCodes(groups, e), e, rows, cols, size);
  }

  lemma DecodedPayload(packed: seq<nat>, scales: seq<nat>, codes: seq<seq<nat>>, rows: nat, cols: nat, size: nat)
    requires Positive(rows, cols, size) && Aligned(cols, size) && IsBytes(packed) && IsBytes(scales)
    requires 2 * |packed| == Count(rows, cols, size) * size && |scales| == Count(rows, cols, size)
    requires CodeGroups(packed, size, Count(rows, cols, size)) == codes && 255 !in scales
    ensures Decode(packed, scales, rows, cols, size) == Success(DecodeGroups(codes, scales))
  {
    CountForm(rows, cols, size);
  }

  /** A group decoded under scale byte b can be encoded again. */
  predicate Encodable(codes: seq<nat>, b: nat)
    requires Codes(codes)
  {
    b <= 253 || forall i :: 0 <= i < |codes| ==> Abs(Value(codes[i])) <= 3.0
  }

  predicate AllEncodable(codes: seq<seq<nat>>, scales: seq<nat>)
    requires AllCodes(codes) && |scales| == |codes|
  {
    forall i :: 0 <= i < |codes| ==> Encodable(codes[i], scales[i])
  }

  lemma DecodedGroupsInRange(codes: seq<seq<nat>>, scales: seq<nat>)
    requires AllCodes(codes) && |scales| == |codes| && forall i :: 0 <= i < |scales| ==> scales[i] < 255
    ensures AllInRange(DecodeGroups(codes, scales)) <==> AllEncodable(codes, scales)
  {
    var groups := DecodeGroups(codes, scales);
    forall i | 0 <= i < |codes|
      ensures GroupInRange(groups[i]) <==> Encodable(codes[i], scales[i])
    {
      DecodedInRange(codes[i], scales[i] as int - 127);
    }
  }

  lemma RoundedIsExact(codes: seq<seq<nat>>, scales: seq<nat>, mode: Mode)
    requires AllCodes(codes) && |scales| == |codes| && AllInRange(DecodeGroups(codes, scales))
    ensures var g := DecodeGroups(codes, scales); Rounded(g, Exponents(g, mode)) == g
  {
    var g := DecodeGroups(codes, scales);
    var e := Exponents(g, mode);
    forall i | 0 <= i < |g|
      ensures Rounded(g, e)[i] == g[i]
    {
      assert Some(e[i]) == GroupExponent(g[i], mode);
      GroupIsStable(codes[i], scales[i] as int - 127, mode);
    }
  }

  /**
   A decoded matrix is encoded again, in either mode, exactly when no group under the top scale byte holds an
   element beyond half the largest one; and then decoding gives the same matrix.
   */
  lemma ReEncoding(packed: seq<nat>, scales: seq<nat>, rows: nat, cols: nat, size: nat, mode: Mode)
    requires IsBytes(packed) && IsBytes(scales) && Decode(packed, scales, rows, cols, size).Success?
    ensures var n := Count(rows, cols, size); var groups := Decode(packed, scales, rows, cols, size).value;
      && 2 * |packed| == n * size && |scales| == n
      && (Encode(groups, rows, cols, size, mode).Success? <==> AllEncodable(CodeGroups(packed, size, n), scales))
      && (Encode(groups, rows, cols, size, mode).Success? ==>
            var p := Encode(groups, rows, cols, size, mode).value;
            IsBytes(p.packed) && Decode(p.packed, p.scales, rows, cols, size) == Success(groups))
  {
    var n := Count(rows, cols, size);
    CountForm(rows, cols, size);
    var codes := CodeGroups(packed, size, n);
    DecodedGroupsInRange(codes, scales);
    var groups := DecodeGroups(codes, scales);
    if AllInRange(groups) {
      DecodeEncode(groups, rows, cols, size, mode);
      RoundedIsExact(codes, scales, mode);
    }
  }

  // ----- Encoding in chunks -----

  /**
   One chunk's bytes: the codes at even positions joined with those at odd ones. When the chunk has an odd
   number of codes the two halves differ in length, and broadcasting stretches a half of one element to fit the
   other, or fails.
   */
  function PackChunk(codes: seq<nat>): Result<seq<nat>> {
    if |codes| % 2 == 0 then Success(Pack(codes))
    else if |codes| == 1 then Success([])
    else if |codes| == 3 then Success([codes[0] + 16 * codes[1], codes[2] + 16 * codes[1]])
    else Failure("shape mismatch")
  }

  function Stop(from: nat, chunk: nat, n: nat): nat {
    if from + chunk < n then from + chunk else n
  }

  /** The bytes of the chunks from group `from` on. */
  function PackChunks(codes: seq<seq<nat>>, chunk: nat, from: nat): Result<seq<nat>>
    requires chunk > 0 && from <= |codes|
    decreases |codes| - from
  {
    if from == |codes| then Success([])
    else
      var stop := Stop(from, chunk, |codes|);
      var first := PackChunk(Stack(codes[from..stop]));
      if first.Failure? then first
      else
        var rest := PackChunks(codes, chunk, stop);
        if rest.Failure? then rest else Success(first.value + rest.value)
  }

  lemma {:induction false} StackJoins<T>(a: seq<seq<T>>, b: seq<seq<T>>)
    ensures Stack(a + b) == Stack(a) + Stack(b)
  {
    if b == [] {
      assert a + b == a;
    } else {
      var before, last := b[..|b| - 1], b[|b| - 1];
      StackJoins(a, before);
      assert (a + b)[..|a + b| - 1] == a + before;
      assert Stack(a + b) == Stack(a + before) + last;
    }
  }

  lemma StackFrom<T>(codes: seq<seq<T>>, from: nat, stop: nat, size: nat)
    requires AreGroups(codes, |codes|, size) && from <= stop <= |codes|
    ensures Stack(codes[from..]) == Stack(codes[from..stop]) + Stack(codes[stop..])
    ensures |Stack(codes[from..stop])| == (stop - from) * size
    ensures |Stack(codes[from..])| == (|codes| - from) * size
  {
    assert codes[from..] == codes[from..stop] + codes[stop..];
    StackJoins(codes[from..stop], codes[stop..]);
    StackLength(codes[from..stop], size);
    StackLength(codes[from..], size);
  }

  /** Chunks of whole bytes make the same bytes as one pass. */
  lemma {:induction false} EvenChunks(codes: seq<seq<nat>>, size: nat, chunk: nat, from: nat)
    requires chunk > 0 && from <= |codes| && AreGroups(codes, |codes|, size)
    requires chunk * size % 2 == 0 && |Stack(codes[from..])| % 2 == 0
    ensures PackChunks(codes, chunk, from) == Success(Pack(Stack(codes[from..])))
    decreases |codes| - from
  {
    if from < |codes| {
      var stop := Stop(from, chunk, |codes|);
      StackFrom(codes, from, stop, size);
      var first, rest := Stack(codes[from..stop]), Stack(codes[stop..]);
      if stop == |codes| {
        assert codes[stop..] == [];
        assert rest == [];
      }
      assert |first| % 2 == 0;
      EvenChunks(codes, size, chunk, stop);
      PackJoins(first, rest);
    }
  }

  /** Bytes produced from m codes in chunks of three. */
  function BytesByThrees(m: nat): nat {
    if m < 3 then m / 2 else 2 + BytesByThrees(m - 3)
  }

  lemma {:induction false} TooManyBytes(m: nat)
    requires m >= 5
    ensures 2 * BytesByThrees(m) > m
  {
    if m >= 8 {
      TooManyBytes(m - 3);
    }
  }

  lemma NextChunk<T>(codes: seq<seq<T>>, size: nat, chunk: nat, from: nat) returns (stop: nat, m: nat, rest: nat)
    requires chunk > 0 && from < |codes| && AreGroups(codes, |codes|, size)
    ensures stop == Stop(from, chunk, |codes|) && m == (|codes| - from) * size && rest == (|codes| - stop) * size
    ensures |Stack(codes[from..stop])| == m - rest
    ensures if stop < |codes| then m - rest == chunk * size else rest == 0 && m <= chunk * size
  {
    stop, m := Stop(from, chunk, |codes|), (|codes| - from) * size;
    rest := (|codes| - stop) * size;
    StackFrom(codes, from, stop, size);
    assert m == (stop - from) * size + rest;
    if stop == |codes| {
      assert (chunk - (stop - from)) * size >= 0;
    }
  }

  lemma {:induction false} ChunksOfThree(codes: seq<seq<nat>>, size: nat, chunk: nat, from: nat)
    requires from <= |codes| && AreGroups(codes, |codes|, size) && chunk * size == 3 && chunk > 0
    ensures var r := PackChunks(codes, chunk, from);
      r.Success? && |r.value| == BytesByThrees((|codes| - from) * size)
    decreases |codes| - from
  {
    if from < |codes| {
      var stop, m, rest := NextChunk(codes, size, chunk, from);
      ChunksOfThree(codes, size, chunk, stop);
    }
  }

  lemma {:induction false} ChunksOfOne(codes: seq<seq<nat>>, chunk: nat, from: nat)
    requires from <= |codes| && AreGroups(codes, |codes|, 1) && chunk == 1
    ensures PackChunks(codes, chunk, from) == Success([])
    decreases |codes| - from
  {
    if from < |codes| {
      var stop, m, rest := NextChunk(codes, 1, chunk, from);
      ChunksOfOne(codes, chunk, stop);
      var none: seq<nat> := [];
      assert none + none == none;
    }
  }

  lemma OddChunkFails(codes: seq<seq<nat>>, size: nat, chunk: nat)
    requires AreGroups(codes, |codes|, size) && 0 < chunk < |codes| && chunk * size % 2 == 1 && chunk * size >= 5
    ensures PackChunks(codes, chunk, 0).Failure?
  {
    var stop, m, rest := NextChunk(codes, size, chunk, 0);
  }

  lemma Factors(a: nat, b: nat, p: nat)
    requires a * b == p && p in {1, 3}
    ensures (a == 1 && b == p) || (a == p && b == 1)
  {
    assert a == 0 || b == 0 ==> a * b == 0;
    assert a >= 2 && b >= 2 ==> (a - 2) * (b - 2) >= 0;
  }

  lemma {:induction false} Singles<T>(codes: seq<seq<T>>)
    requires AreGroups(codes, |codes|, 1)
    ensures |Stack(codes)| == |codes| && forall i :: 0 <= i < |codes| ==> Stack(codes)[i] == codes[i][0]
  {
    if codes != [] {
      Singles(codes[..|codes| - 1]);
    }
  }

  lemma ThreesOfFour(codes: seq<seq<nat>>, a: nat, b: nat, c: nat, d: nat)
    requires AreGroups(codes, 4, 1)
    requires Stack(codes[0..3]) == [a, b, c] && Stack(codes[3..4]) == [d]
    ensures PackChunks(codes, 3, 0) == Success([a + 16 * b, c + 16 * b])
  {
    var none: seq<nat> := [];
    var two := [a + 16 * b, c + 16 * b];
    assert PackChunks(codes, 3, 4) == Success(none);
    assert PackChunks(codes, 3, 3) == Success(none) by {
      assert none + none == none;
    }
    assert two + none == two;
  }

  /** Four codes in chunks of three: the last one is lost, and the second stands in for it. */
  lemma FourInThrees(codes: seq<seq<nat>>)
    requires AreGroups(codes, 4, 1)
    ensures PackChunks(codes, 3, 0) == Success(Pack(Stack(codes))) <==> codes[1] == codes[3]
  {
    var a, b, c, d := codes[0][0], codes[1][0], codes[2][0], codes[3][0];
    Singles(codes[0..3]);
    Singles(codes[3..4]);
    Singles(codes);
    assert Stack(codes[0..3]) == [a, b, c] && Stack(codes[3..4]) == [d] && Stack(codes) == [a, b, c, d];
    ThreesOfFour(codes, a, b, c, d);
    assert Pack([a, b, c, d]) == [a + 16 * b, c + 16 * d];
    assert codes[1] == [b] && codes[3] == [d];
  }

  /**
   Encoding in chunks gives the bytes of one pass exactly when every chunk is whole bytes or there is only one
   chunk, but for four codes in chunks of three whose second and fourth happen to agree.
   */
  lemma ChunkedExactly(codes: seq<seq<nat>>, size: nat, chunk: nat)
    requires AreGroups(codes, |codes|, size) && chunk > 0 && size > 0 && |codes| * size % 2 == 0
    ensures PackChunks(codes, chunk, 0) == Success(Pack(Stack(codes)))
      <==> || chunk * size % 2 == 0
           || |codes| <= chunk
           || (chunk * size == 3 && |codes| * size == 4 && codes[1] == codes[3])
  {
    var n, l := |codes|, chunk * size;
    assert codes[0..] == codes;
    StackLength(codes, size);
    if l % 2 == 0 {
      EvenChunks(codes, size, chunk, 0);
    } else if n <= chunk {
      OneChunk(codes, size, chunk);
    } else {
      MoreThanOne(codes, size, chunk);
    }
  }

  lemma OneChunk(codes: seq<seq<nat>>, size: nat, chunk: nat)
    requires AreGroups(codes, |codes|, size) && 0 < chunk && |codes| <= chunk && |codes| * size % 2 == 0
    ensures PackChunks(codes, chunk, 0) == Success(Pack(Stack(codes)))
  {
    StackLength(codes, size);
    assert codes[0..|codes|] == codes;
    var none: seq<nat> := [];
    assert Pack(Stack(codes)) + none == Pack(Stack(codes));
  }

  lemma MoreThanOne(codes: seq<seq<nat>>, size: nat, chunk: nat)
    requires AreGroups(codes, |codes|, size) && 0 < chunk < |codes| && |codes| * size % 2 == 0
    requires chunk * size % 2 == 1
    ensures PackChunks(codes, chunk, 0) == Success(Pack(Stack(codes)))
      <==> (chunk * size == 3 && |codes| * size == 4 && codes[1] == codes[3])
  {
    var l, m := chunk * size, |codes| * size;
    StackLength(codes, size);
    assert m > l by {
      LongerProduct(chunk, |codes|, size);
    }
    if l >= 5 {
      OddChunkFails(codes, size, chunk);
    } else if l == 3 {
      ByThrees(codes, size, chunk, m);
    } else {
      assert l == 1;
      assert chunk == 1 && size == 1 by {
        Factors(chunk, size, 1);
      }
      ChunksOfOne(codes, chunk, 0);
    }
  }

  lemma LongerProduct(a: nat, b: nat, c: nat)
    requires a < b && a * c % 2 == 1
    ensures b * c > a * c
  {
    assert c == 0 ==> a * c == 0;
    assert (b - a) * c == b * c - a * c;
    assert c > 0 ==> (b - a) * c > 0;
  }

  lemma ByThrees(codes: seq<seq<nat>>, size: nat, chunk: nat, m: nat)
    requires AreGroups(codes, |codes|, size) && 0 < chunk < |codes| && m == |codes| * size && m % 2 == 0 && m > 3
    requires chunk * size == 3 && |Stack(codes)| == m
    ensures PackChunks(codes, chunk, 0) == Success(Pack(Stack(codes))) <==> (m == 4 && codes[1] == codes[3])
  {
    ChunksOfThree(codes, size, chunk, 0);
    if m == 4 {
      assert size == 1 && |codes| == 4 && chunk == 3 by {
        Factors(chunk, size, 3);
      }
      FourInThrees(codes);
    } else {
      TooManyBytes(m);
    }
  }

  function Prepend(before: seq<nat>, r: Result<seq<nat>>): Result<seq<nat>> {
    if r.Success? then Success(before + r.value) else r
  }

  /** The loop over chunks of groups, joining each chunk's bytes and scale bytes to those before. */
  method EncodeChunks(groups: seq<seq<real>>, exponents: seq<int>, chunk: nat) returns (r: Result<Payload>)
    requires chunk > 0 && |exponents| == |groups|
    requires forall i :: 0 <= i < |exponents| ==> LOWEST <= exponents[i] <= HIGHEST
    ensures var packed := PackChunks(GroupCodes(groups, exponents), chunk, 0);
      r == if packed.Success? then Success(Payload(packed.value, ScaleBytes(exponents))) else Failure(packed.error)
  {
    ghost var codes := GroupCodes(groups, exponents);
    var packed: seq<nat>, scales: seq<nat> := [], [];
    var start := 0;
    PrependNothing(PackChunks(codes, chunk, 0));
    while start < |groups|
      invariant start <= |groups|
      invariant Prepend(packed, PackChunks(codes, chunk, start)) == PackChunks(codes, chunk, 0)
      invariant scales == ScaleBytes(exponents[..start])
    {
      var stop := Stop(start, chunk, |groups|);
      var part := GroupCodes(groups[start..stop], exponents[start..stop]);
      assert part == codes[start..stop];
      var bytes := PackChunk(Stack(part));
      ChunkStep(codes, chunk, start, packed);
      if bytes.Failure? {
        return Failure(bytes.error);
      }
      packed := packed + bytes.value;
      scales := scales + ScaleBytes(exponents[start..stop]);
      ScaleBytesJoin(exponents, start, stop);
      start := stop;
    }
    assert exponents[..start] == exponents;
    NothingLeft(codes, chunk, packed);
    r := Success(Payload(packed, scales));
  }

  lemma PrependNothing(r: Result<seq<nat>>)
    ensures Prepend([], r) == r
  {
    if r.Success? {
      assert [] + r.value == r.value;
    }
  }

  lemma NothingLeft(codes: seq<seq<nat>>, chunk: nat, packed: seq<nat>)
    requires chunk > 0
    ensures Prepend(packed, PackChunks(codes, chunk, |codes|)) == Success(packed)
  {
    assert packed + [] == packed;
  }

  lemma ChunkStep(codes: seq<seq<nat>>, chunk: nat, start: nat, packed: seq<nat>)
    requires chunk > 0 && start < |codes|
    ensures var stop := Stop(start, chunk, |codes|); var first := PackChunk(Stack(codes[start..stop]));
      Prepend(packed, PackChunks(codes, chunk, start))
      == if first.Failure? then first else Prepend(packed + first.value, PackChunks(codes, chunk, stop))
  {
    var stop := Stop(start, chunk, |codes|);
    var first, rest := PackChunk(Stack(codes[start..stop])), PackChunks(codes, chunk, stop);
    if first.Success? && rest.Success? {
      assert packed + (first.value + rest.value) == packed + first.value + rest.value;
    }
  }

  lemma ScaleBytesJoin(exponents: seq<int>, start: nat, stop: nat)
    requires start <= stop <= |exponents|
    requires forall i :: 0 <= i < |exponents| ==> LOWEST <= exponents[i] <= HIGHEST
    ensures ScaleBytes(exponents[..start]) + ScaleBytes(exponents[start..stop]) == ScaleBytes(exponents[..stop])
  {
  }

  /** The whole encoder: the same payload as one pass when its chunks are whole bytes. */
  method EncodeMatrix(groups: seq<seq<real>>, rows: nat, cols: nat, size: nat, chunk: int, mode: Mode)
    returns (r: Result<Payload>)
    requires Positive(rows, cols, size) && Aligned(cols, size) ==> AreGroups(groups, Count(rows, cols, size), size)
    ensures r.Success? ==> Positive(rows, cols, size) && Aligned(cols, size) && chunk > 0 && AllInRange(groups)
    ensures chunk > 0 && (chunk * size % 2 == 0 || |groups| <= chunk) ==> r == Encode(groups, rows, cols, size, mode)
  {
    if !Positive(rows, cols, size) {
      return Failure("rows, cols, and group_size must be positive");
    }
    if !Aligned(cols, size) {
      return Failure("cols must align to group_size and nibble pairs");
    }
    if chunk <= 0 {
      return Failure("chunk_groups must be positive");
    }
    if !AllInRange(groups) {
      return Failure("values exceed the E8M0 exponent range");
    }
    var exponents := Exponents(groups, mode);
    r := EncodeChunks(groups, exponents, chunk);
    CountForm(rows, cols, size);
    ChunkedExactly(GroupCodes(groups, exponents), size, chunk);
  }
}
