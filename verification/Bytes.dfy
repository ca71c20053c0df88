/** Bytes, little-endian integers, and fixed-width struct packing. */
module Bytes {

  type byte = x: int | 0 <= x < 256

  function Zeros(n: nat): (z: seq<byte>)
    ensures |z| == n && AllZero(z)
  {
    seq(n, _ => 0)
  }

  predicate AllZero(b: seq<byte>) {
    forall i :: 0 <= i < |b| ==> b[i] == 0
  }

  lemma AllZeroIsZeros(b: seq<byte>)
    requires AllZero(b)
    ensures b == Zeros(|b|)
  {
  }

  /** The number of values of a `width`-byte unsigned integer. */
  function Range(width: nat): (r: nat)
    ensures r > 0
  {
    if width == 0 then 1 else 256 * Range(width - 1)
  }

  function ToLE(value: nat, width: nat): (b: seq<byte>)
    requires value < Range(width)
    ensures |b| == width
  {
    if width == 0 then [] else [value % 256] + ToLE(value / 256, width - 1)
  }

  function FromLE(b: seq<byte>): (value: nat)
    ensures value < Range(|b|)
  {
    if b == [] then 0 else b[0] + 256 * FromLE(b[1..])
  }

  lemma {:induction false} FromToLE(value: nat, width: nat)
    requires value < Range(width)
    ensures FromLE(ToLE(value, width)) == value
  {
    if width != 0 {
      FromToLE(value / 256, width - 1);
      assert ToLE(value, width)[1..] == ToLE(value / 256, width - 1);
    }
  }

  lemma {:induction false} ToFromLE(b: seq<byte>)
    ensures ToLE(FromLE(b), |b|) == b
  {
    if b != [] {
      ToFromLE(b[1..]);
      assert FromLE(b) % 256 == b[0] && FromLE(b) / 256 == FromLE(b[1..]);
    }
  }

  function Total(widths: seq<nat>): nat {
    if widths == [] then 0 else widths[0] + Total(widths[1..])
  }

  lemma {:induction false} TotalAppend(a: seq<nat>, b: seq<nat>)
    ensures Total(a + b) == Total(a) + Total(b)
  {
    if a == [] {
      assert a + b == b;
    } else {
      assert (a + b)[1..] == a[1..] + b;
      TotalAppend(a[1..], b);
    }
  }

  predicate Fits(widths: seq<nat>, values: seq<nat>) {
    && |values| == |widths|
    && forall i :: 0 <= i < |widths| ==> values[i] < Range(widths[i])
  }

  /** `struct.pack` of unsigned fields. */
  function Pack(widths: seq<nat>, values: seq<nat>): (b: seq<byte>)
    requires Fits(widths, values)
    ensures |b| == Total(widths)
  {
    if widths == [] then [] else ToLE(values[0], widths[0]) + Pack(widths[1..], values[1..])
  }

  /** `struct.unpack` of unsigned fields. */
  function Unpack(widths: seq<nat>, b: seq<byte>): (values: seq<nat>)
    requires |b| == Total(widths)
    ensures |values| == |widths| && Fits(widths, values)
  {
    if widths == [] then [] else [FromLE(b[..widths[0]])] + Unpack(widths[1..], b[widths[0]..])
  }

  lemma {:induction false} UnpackPack(widths: seq<nat>, values: seq<nat>)
    requires Fits(widths, values)
    ensures Unpack(widths, Pack(widths, values)) == values
  {
    if widths != [] {
      var b := Pack(widths, values);
      assert b[..widths[0]] == ToLE(values[0], widths[0]);
      assert b[widths[0]..] == Pack(widths[1..], values[1..]);
      FromToLE(values[0], widths[0]);
      UnpackPack(widths[1..], values[1..]);
    }
  }

  lemma {:induction false} PackUnpack(widths: seq<nat>, b: seq<byte>)
    requires |b| == Total(widths)
    ensures Pack(widths, Unpack(widths, b)) == b
  {
    if widths != [] {
      ToFromLE(b[..widths[0]]);
      PackUnpack(widths[1..], b[widths[0]..]);
      assert b == b[..widths[0]] + b[widths[0]..];
      assert Unpack(widths, b)[1..] == Unpack(widths[1..], b[widths[0]..]);
    }
  }

  // ----- Signed 32-bit fields -----

  predicate IsInt32(x: int) {
    -0x8000_0000 <= x < 0x8000_0000
  }

  function FromSigned(x: int): (u: nat)
    requires IsInt32(x)
    ensures u < 0x1_0000_0000
  {
    if x < 0 then x + 0x1_0000_0000 else x
  }

  function ToSigned(u: nat): (x: int)
    requires u < 0x1_0000_0000
    ensures IsInt32(x) && FromSigned(x) == u
  {
    if u < 0x8000_0000 then u else u - 0x1_0000_0000
  }

  lemma RangeValues()
    ensures Range(1) == 0x100 && Range(2) == 0x1_0000 && Range(4) == 0x1_0000_0000
    ensures Range(8) == 0x1_0000_0000_0000_0000
  {
    assert Range(3) == 256 * Range(2);
    assert Range(5) == 256 * Range(4);
    assert Range(6) == 256 * Range(5);
    assert Range(7) == 256 * Range(6);
  }

  function Concat(parts: seq<seq<byte>>): seq<byte> {
    if parts == [] then [] else Concat(parts[..|parts| - 1]) + parts[|parts| - 1]
  }
}
