/**
 Rotated quantisation of key and value rows, over exact reals: the rotation undoes itself and keeps the
 norm, so the error of a restored row is bounded by the rounding of its rotated lanes.
 */
module TurboQuant {
  import opened Hadamard
  import opened Reals
  import opened Wrappers

  // ----- Rotation -----

  /** Everything a rotation needs: 2^k lanes, the exact square root of that, and a sign per lane. */
  datatype Rotation = Rotation(k: nat, root: real, signs: seq<real>)

  predicate RotationOk(r: Rotation) {
    && r.root > 0.0 && r.root * r.root == Pow2(r.k) as real
    && |r.signs| == Pow2(r.k)
    && forall i :: 0 <= i < |r.signs| ==> r.signs[i] == 1.0 || r.signs[i] == -1.0
  }

  /** The padded width: the least power of two that holds the row. */
  function Exponent(width: nat): (k: nat)
    ensures Pow2(k) >= width && (k > 0 ==> Pow2(k - 1) < width)
    decreases width
  {
    if width <= 1 then 0 else Exponent((width + 1) / 2) + 1
  }

  function Normalised(v: Vector, k: nat, root: real): (r: Vector)
    requires |v| == Pow2(k) && root > 0.0
    ensures |r| == |v|
  {
    Scale(1.0 / root, Transform(v, k))
  }

  function Flip(v: Vector, signs: seq<real>): (r: Vector)
    requires |v| == |signs|
    ensures |r| == |v|
  {
    seq(|v|, i requires 0 <= i < |v| => v[i] * signs[i])
  }

  function ZeroLanes(n: nat): (z: Vector)
    ensures |z| == n && forall i :: 0 <= i < n ==> z[i] == 0.0
  {
    seq(n, _ => 0.0)
  }

  function Rotate(x: Vector, r: Rotation): (y: Vector)
    requires RotationOk(r) && |x| <= Pow2(r.k)
    ensures |y| == Pow2(r.k)
  {
    Normalised(Flip(x + ZeroLanes(Pow2(r.k) - |x|), r.signs), r.k, r.root)
  }

  function InverseRotate(y: Vector, width: nat, r: Rotation): (x: Vector)
    requires RotationOk(r) && |y| == Pow2(r.k) && width <= |y|
    ensures |x| == width
  {
    Flip(Normalised(y, r.k, r.root), r.signs)[..width]
  }

  lemma InverseSquare(root: real, n: real)
    requires root > 0.0 && root * root == n
    ensures var c := 1.0 / root; c * c * n == 1.0
  {
    var c := 1.0 / root;
    assert c * root == 1.0;
    calc {
      c * c * n;
      c * c * (root * root);
      { FourFactors(c, root); }
      (c * root) * (c * root);
      1.0;
    }
  }

  lemma FourFactors(c: real, r: real)
    ensures c * c * (r * r) == (c * r) * (c * r)
  {
    assert c * c * (r * r) == c * (c * r) * r;
  }

  lemma ScaleTwice(c: real, d: real, e: real, v: Vector)
    requires c * d * e == 1.0
    ensures Scale(c, Scale(d, Scale(e, v))) == v
  {
    var x := Scale(e, v);
    var y := Scale(d, x);
    var z := Scale(c, y);
    forall i | 0 <= i < |v|
      ensures z[i] == v[i]
    {
      assert x[i] == e * v[i] && y[i] == d * x[i] && z[i] == c * y[i];
      OneTimes(c, d, e, v[i]);
    }
  }

  lemma OneTimes(c: real, d: real, e: real, x: real)
    requires c * d * e == 1.0
    ensures c * (d * (e * x)) == x
  {
    assert c * (d * (e * x)) == (c * d * e) * x;
  }

  /** The normalised transform is its own inverse. */
  lemma NormalisedTwice(v: Vector, k: nat, root: real)
    requires |v| == Pow2(k) && root > 0.0 && root * root == Pow2(k) as real
    ensures Normalised(Normalised(v, k, root), k, root) == v
  {
    var c := 1.0 / root;
    TransformScales(c, Transform(v, k), k);
    TransformTwice(v, k);
    InverseSquare(root, Pow2(k) as real);
    ScaleTwice(c, c, Pow2(k) as real, v);
  }

  lemma FlipTwice(v: Vector, signs: seq<real>)
    requires |v| == |signs| && forall i :: 0 <= i < |signs| ==> signs[i] == 1.0 || signs[i] == -1.0
    ensures Flip(Flip(v, signs), signs) == v
  {
    forall i | 0 <= i < |v|
      ensures v[i] * signs[i] * signs[i] == v[i]
    {
      if signs[i] == 1.0 {
      } else {
        assert signs[i] == -1.0;
      }
    }
  }

  /** The rotation undoes itself, for every row, width and sign vector. */
  lemma RotationRoundTrip(x: Vector, r: Rotation)
    requires RotationOk(r) && |x| <= Pow2(r.k)
    ensures InverseRotate(Rotate(x, r), |x|, r) == x
  {
    var padded := x + ZeroLanes(Pow2(r.k) - |x|);
    NormalisedTwice(Flip(padded, r.signs), r.k, r.root);
    FlipTwice(padded, r.signs);
    assert padded[..|x|] == x;
  }

  // ----- Energy -----

  lemma {:induction false} FlipEnergy(v: Vector, signs: seq<real>, n: nat)
    requires |v| == |signs| && n <= |v|
    requires forall i :: 0 <= i < |signs| ==> signs[i] == 1.0 || signs[i] == -1.0
    ensures EnergyTo(Square, Flip(v, signs), n) == EnergyTo(Square, v, n)
  {
    if n > 0 {
      FlipEnergy(v, signs, n - 1);
      SignedSquare(v[n - 1], signs[n - 1]);
    }
  }

  lemma SignedSquare(x: real, s: real)
    requires s == 1.0 || s == -1.0
    ensures Square(x * s) == Square(x)
  {
  }

  lemma {:induction false} ZeroEnergy(n: nat, k: nat)
    requires k <= n
    ensures EnergyTo(Square, ZeroLanes(n), k) == 0.0
  {
    if k > 0 {
      ZeroEnergy(n, k - 1);
      assert ZeroLanes(n)[k - 1] == 0.0 && Square(0.0) == 0.0;
    }
  }

  lemma PaddedEnergy(x: Vector, n: nat)
    ensures Energy(Square, x + ZeroLanes(n)) == Energy(Square, x)
  {
    EnergyJoins(Square, x, ZeroLanes(n), n);
    ZeroEnergy(n, n);
  }

  lemma ScaledTransformEnergy(sq: real -> real, c: real, d: real, n: real, v: Vector, k: nat)
    requires |v| == Pow2(k) && n == Pow2(k) as real && d * n == 1.0
    requires Parallelograms(sq) && forall x :: ScalesAt(sq, c, d, x)
    ensures Energy(sq, Scale(c, Transform(v, k))) == Energy(sq, v)
  {
    var w := Transform(v, k);
    var e, t, s := Energy(sq, v), Energy(sq, w), Energy(sq, Scale(c, w));
    assert t == n * e by {
      TransformEnergy(sq, v, k);
      DoubledIsProduct(k, e, n);
    }
    assert s == d * t by {
      AllEnergyScales(sq, c, d, w, t);
    }
    Cancels(d, n, e, t);
  }

  /** The normalised transform keeps the energy. */
  lemma NormalisedEnergy(v: Vector, k: nat, root: real)
    requires |v| == Pow2(k) && root > 0.0 && root * root == Pow2(k) as real
    ensures Energy(Square, Normalised(v, k, root)) == Energy(Square, v)
  {
    var c, n := 1.0 / root, Pow2(k) as real;
    var d := c * c;
    InverseSquare(root, n);
    SquareLaws(c, d);
    ScaledTransformEnergy(Square, c, d, n, v, k);
  }

  lemma Cancels(d: real, n: real, e: real, t: real)
    requires d * n == 1.0 && t == n * e
    ensures d * t == e
  {
    assert d * (n * e) == (d * n) * e;
  }

  /** So does the rotation: the squared norm of the row. */
  lemma RotationEnergy(x: Vector, r: Rotation)
    requires RotationOk(r) && |x| <= Pow2(r.k)
    ensures Energy(Square, Rotate(x, r)) == Energy(Square, x)
  {
    var n := Pow2(r.k) - |x|;
    var padded := x + ZeroLanes(n);
    PaddedEnergy(x, n);
    FlipEnergy(padded, r.signs, |padded|);
    NormalisedEnergy(Flip(padded, r.signs), r.k, r.root);
  }

  lemma {:induction false} FewerLanes(v: Vector, n: nat)
    requires n <= |v|
    ensures Energy(Square, v[..n]) <= Energy(Square, v)
  {
    EnergyJoins(Square, v[..n], v[n..], |v| - n);
    assert v[..n] + v[n..] == v;
    NotNegative(v[n..], |v| - n);
  }

  lemma {:induction false} NotNegative(v: Vector, n: nat)
    requires n <= |v|
    ensures EnergyTo(Square, v, n) >= 0.0
  {
    if n > 0 {
      NotNegative(v, n - 1);
      SquareNotNegative(v[n - 1]);
    }
  }

  lemma SquareNotNegative(x: real)
    ensures Square(x) >= 0.0
  {
  }

  lemma FlipSubtracts(a: Vector, b: Vector, signs: seq<real>)
    requires |a| == |b| == |signs|
    ensures Flip(Sub(a, b), signs) == Sub(Flip(a, signs), Flip(b, signs))
  {
    var left, right := Flip(Sub(a, b), signs), Sub(Flip(a, signs), Flip(b, signs));
    forall i | 0 <= i < |a|
      ensures left[i] == right[i]
    {
      assert left[i] == (a[i] - b[i]) * signs[i];
      Distributes(signs[i], a[i], b[i]);
    }
  }

  lemma NormalisedSubtracts(y: Vector, z: Vector, k: nat, root: real)
    requires |y| == |z| == Pow2(k) && root > 0.0
    ensures Normalised(Sub(y, z), k, root) == Sub(Normalised(y, k, root), Normalised(z, k, root))
  {
    TransformAdds(y, z, k);
    ScaleAdds(1.0 / root, Transform(y, k), Transform(z, k));
  }

  /** Going back is linear: the restored error is the error sent back. */
  lemma RestoredDifference(y: Vector, x: Vector, r: Rotation)
    requires RotationOk(r) && |x| <= |y| == Pow2(r.k)
    ensures Sub(InverseRotate(y, |x|, r), x) == InverseRotate(Sub(y, Rotate(x, r)), |x|, r)
  {
    var z := Rotate(x, r);
    var a, b := Normalised(y, r.k, r.root), Normalised(z, r.k, r.root);
    RotationRoundTrip(x, r);
    FirstLanes(Flip(a, r.signs), Flip(b, r.signs), |x|);
    FlipSubtracts(a, b, r.signs);
    NormalisedSubtracts(y, z, r.k, r.root);
  }

  /** Sending a row back and keeping its first lanes does not enlarge it. */
  lemma SentBackEnergy(e: Vector, n: nat, r: Rotation)
    requires RotationOk(r) && n <= |e| == Pow2(r.k)
    ensures Energy(Square, InverseRotate(e, n, r)) <= Energy(Square, e)
  {
    var back := Normalised(e, r.k, r.root);
    FewerLanes(Flip(back, r.signs), n);
    FlipEnergy(back, r.signs, |back|);
    NormalisedEnergy(e, r.k, r.root);
  }

  /** An error in the rotated row comes back no larger. */
  lemma RestoredError(y: Vector, x: Vector, r: Rotation)
    requires RotationOk(r) && |x| <= |y| == Pow2(r.k)
    ensures Energy(Square, Sub(InverseRotate(y, |x|, r), x)) <= Energy(Square, Sub(y, Rotate(x, r)))
  {
    var e := Sub(y, Rotate(x, r));
    assert Sub(InverseRotate(y, |x|, r), x) == InverseRotate(e, |x|, r) by {
      RestoredDifference(y, x, r);
    }
    SentBackEnergy(e, |x|, r);
  }

  lemma FirstLanes(a: Vector, b: Vector, n: nat)
    requires |a| == |b| && n <= |a|
    ensures Sub(a, b)[..n] == Sub(a[..n], b[..n])
  {
  }

  // ----- Quantisation -----

  /** Rounding to the nearest integer, ties to the even one. */
  function Round(x: real): (r: int)
    ensures -0.5 <= r as real - x <= 0.5
  {
    var f := x.Floor;
    var d := x - f as real;
    if d < 0.5 then f
    else if d > 0.5 then f + 1
    else if f % 2 == 0 then f else f + 1
  }

  /** The bit widths of the lanes, repeated over the row; half bits alternate between two widths. */
  function Schedule(bits: real): (r: Option<seq<nat>>)
    ensures r.Some? ==> r.value != [] && forall b :: b in r.value ==> b >= 2
  {
    if bits in {2.0, 3.0, 4.0, 6.0, 8.0, 16.0} then Some([bits.Floor])
    else if bits == 2.5 then Some([2, 3])
    else if bits == 3.5 then Some([3, 4])
    else None
  }

  predicate ScheduleOk(schedule: seq<nat>) {
    schedule != [] && forall b :: b in schedule ==> b >= 2
  }

  /** The largest code of lane `i`. */
  function QMax(schedule: seq<nat>, i: nat): (q: int)
    requires ScheduleOk(schedule)
    ensures q >= 1
  {
    assert schedule[i % |schedule|] in schedule;
    var bits := schedule[i % |schedule|];
    assert Pow2(bits - 1) == 2 * Pow2(bits - 2);
    Pow2(bits - 1) - 1
  }

  /** One scale per row: its largest magnitude, or one for a zero row. */
  function RowScale(v: Vector): (scale: real)
    ensures scale > 0.0 && forall i :: 0 <= i < |v| ==> Abs(v[i]) <= scale
    ensures scale == 1.0 || exists i :: 0 <= i < |v| && Abs(v[i]) == scale
  {
    if MaxAbs(v) > 0.0 then MaxAbs(v) else 1.0
  }

  function Clamp(c: int, q: int): int {
    if c < -q then -q else if c > q then q else c
  }

  /** Where a lane falls on the scale of the codes. */
  function Position(x: real, scale: real, q: int): real
    requires scale > 0.0
  {
    x / scale * q as real
  }

  function Code(x: real, scale: real, q: int): int
    requires scale > 0.0 && q >= 1
  {
    Clamp(Round(Position(x, scale, q)), q)
  }

  function Restored(code: int, scale: real, q: int): real
    requires q >= 1
  {
    code as real / q as real * scale
  }

  /** The code of a lane needs no clamping. */
  lemma CodeFits(t: real, q: int)
    requires q >= 1 && -(q as real) <= t <= q as real
    ensures Clamp(Round(t), q) == Round(t)
  {
    var r := Round(t);
    assert r > q ==> r as real >= q as real + 1.0;
    assert r < -q ==> r as real <= -(q as real) - 1.0;
  }

  lemma ScaledAtMost(a: real, b: real, s: real)
    requires s > 0.0 && a * s <= b * s
    ensures a <= b
  {
    assert a > b ==> (a - b) * s > 0.0;
  }

  lemma SameScaled(a: real, b: real, s: real)
    requires s > 0.0 && a * s == b * s
    ensures a == b
  {
    ScaledAtMost(a, b, s);
    ScaledAtMost(b, a, s);
  }

  lemma ScaledUp(a: real, b: real, s: real)
    requires s >= 0.0 && a <= b
    ensures a * s <= b * s
  {
    assert (b - a) * s >= 0.0;
  }

  /** Where a lane falls between the extreme codes. */
  lemma Quotient(x: real, scale: real, q: real)
    requires scale > 0.0 && q >= 1.0 && Abs(x) <= scale
    ensures var t := x / scale * q; -q <= t <= q && t / q == x / scale
  {
    var u := x / scale;
    assert u * scale == x;
    ScaledAtMost(u, 1.0, scale);
    ScaledAtMost(-1.0, u, scale);
    ScaledUp(u, 1.0, q);
    ScaledUp(-1.0, u, q);
    SameScaled(u * q / q, u, q);
  }

  lemma HalfStep(e: real, scale: real, q: real)
    requires scale > 0.0 && q >= 1.0 && -0.5 <= e * q <= 0.5
    ensures Abs(e * scale) <= scale / (2.0 * q)
  {
    var h := 1.0 / (2.0 * q);
    assert h * (2.0 * q) == 1.0;
    assert h * q == 0.5;
    ScaledAtMost(e, h, q);
    ScaledAtMost(-h, e, q);
    ScaledUp(e, h, scale);
    ScaledUp(-h, e, scale);
    SameScaled(h * scale, scale / (2.0 * q), 2.0 * q);
  }

  lemma CodeError(c: real, a: real, u: real, scale: real, m: real)
    requires m >= 1.0 && scale > 0.0 && a * m == c && -0.5 <= c - u * m <= 0.5
    ensures Abs(a * scale - u * scale) <= scale / (2.0 * m)
  {
    var e := a - u;
    Distributes(m, a, u);
    HalfStep(e, scale, m);
    Distributes(scale, a, u);
  }

  /** The code of a lane is the nearest one to where the lane falls, and never clamped. */
  lemma LaneCode(x: real, scale: real, q: int) returns (u: real)
    requires scale > 0.0 && q >= 1 && Abs(x) <= scale
    ensures u * scale == x
    ensures var c := Code(x, scale, q); -q <= c <= q && -0.5 <= c as real - u * q as real <= 0.5
  {
    u := x / scale;
    Quotient(x, scale, q as real);
    CodeFits(Position(x, scale, q), q);
  }

  lemma LaneLevel(code: int, scale: real, q: int) returns (a: real)
    requires q >= 1
    ensures a * q as real == code as real && Restored(code, scale, q) == a * scale
  {
    a := code as real / q as real;
  }

  /** The error of one lane is at most half a step. */
  lemma LaneError(x: real, scale: real, q: int)
    requires scale > 0.0 && q >= 1 && Abs(x) <= scale
    ensures -q <= Code(x, scale, q) <= q
    ensures Abs(Restored(Code(x, scale, q), scale, q) - x) <= scale / (2.0 * q as real)
  {
    var code := Code(x, scale, q);
    var u := LaneCode(x, scale, q);
    var a := LaneLevel(code, scale, q);
    CodeError(code as real, a, u, scale, q as real);
  }

  // ----- Rows -----

  datatype Quantized =
    | Lossless(row: Vector)
    | Coded(codes: seq<int>, scale: real, width: nat, schedule: seq<nat>, rotation: Option<Rotation>)

  /** A rotation fits a row when it has the row's padded width; none is needed for the unrotated form. */
  predicate RotationFits(rotation: Option<Rotation>, width: nat) {
    rotation.Some? ==> RotationOk(rotation.value) && rotation.value.k == Exponent(width)
  }

  function RotatedRow(x: Vector, rotation: Option<Rotation>): (y: Vector)
    requires RotationFits(rotation, |x|)
    ensures |y| >= |x|
  {
    if rotation.Some? then Rotate(x, rotation.value) else x
  }

  function Encode(y: Vector, scale: real, schedule: seq<nat>): (codes: seq<int>)
    requires scale > 0.0 && ScheduleOk(schedule)
    ensures |codes| == |y|
  {
    seq(|y|, i requires 0 <= i < |y| => Code(y[i], scale, QMax(schedule, i)))
  }

  function Decode(codes: seq<int>, scale: real, schedule: seq<nat>): (y: Vector)
    requires ScheduleOk(schedule)
    ensures |y| == |codes|
  {
    seq(|codes|, i requires 0 <= i < |codes| => Restored(codes[i], scale, QMax(schedule, i)))
  }

  /** One row of a batch; the maximum of no lanes at all is an error. */
  function Quantize(x: Vector, bits: real, rotation: Option<Rotation>): (r: Result<Quantized>)
    requires RotationFits(rotation, |x|)
  {
    var schedule := Schedule(bits);
    if schedule.None? then Failure("UNSUPPORTED_TURBOQUANT_BITS")
    else if bits == 16.0 then Success(Lossless(x))
    else
      var y := RotatedRow(x, rotation);
      if y == [] then Failure("EMPTY_ROW")
      else
        var scale := RowScale(y);
        Success(Coded(Encode(y, scale, schedule.value), scale, |x|, schedule.value, rotation))
  }

  predicate CodedOk(q: Quantized) {
    q.Coded? ==>
      && ScheduleOk(q.schedule) && q.width <= |q.codes|
      && (q.rotation.Some? ==> RotationOk(q.rotation.value) && |q.codes| == Pow2(q.rotation.value.k))
  }

  function Dequantize(q: Quantized): Vector
    requires CodedOk(q)
  {
    match q
    case Lossless(row) => row
    case Coded(codes, scale, width, schedule, rotation) =>
      var y := Decode(codes, scale, schedule);
      if rotation.Some? then InverseRotate(y, width, rotation.value) else y[..width]
  }

  /** Half a step of every lane. */
  function HalfSteps(schedule: seq<nat>, scale: real, n: nat): (h: Vector)
    requires ScheduleOk(schedule)
    ensures |h| == n
  {
    seq(n, i requires 0 <= i < n => scale / (2.0 * QMax(schedule, i) as real))
  }

  lemma SquareGrows(x: real, y: real)
    requires Abs(x) <= y
    ensures Square(x) <= Square(y)
  {
    ProductNotNegative(y - x, y + x);
    assert (y - x) * (y + x) == Square(y) - Square(x);
  }

  lemma ProductNotNegative(a: real, b: real)
    requires a >= 0.0 && b >= 0.0
    ensures a * b >= 0.0
  {
  }

  lemma {:induction false} EnergyGrows(a: Vector, b: Vector, n: nat)
    requires n <= |a| == |b| && forall i :: 0 <= i < n ==> Abs(a[i]) <= b[i]
    ensures EnergyTo(Square, a, n) <= EnergyTo(Square, b, n)
  {
    if n > 0 {
      EnergyGrows(a, b, n - 1);
      SquareGrows(a[n - 1], b[n - 1]);
    }
  }

  /** Every code of a row is in range, and every decoded lane is within half a step of the lane. */
  lemma DecodedLanes(y: Vector, schedule: seq<nat>)
    requires ScheduleOk(schedule)
    ensures var scale := RowScale(y); var codes := Encode(y, scale, schedule);
      && (forall i :: 0 <= i < |y| ==> -QMax(schedule, i) <= codes[i] <= QMax(schedule, i))
      && Energy(Square, Sub(Decode(codes, scale, schedule), y)) <= Energy(Square, HalfSteps(schedule, scale, |y|))
  {
    var scale := RowScale(y);
    var codes := Encode(y, scale, schedule);
    var error, half := Sub(Decode(codes, scale, schedule), y), HalfSteps(schedule, scale, |y|);
    forall i | 0 <= i < |y|
      ensures -QMax(schedule, i) <= codes[i] <= QMax(schedule, i) && Abs(error[i]) <= half[i]
    {
      LaneError(y[i], scale, QMax(schedule, i));
    }
    EnergyGrows(error, half, |y|);
  }

  /**
   The squared error of a restored row is at most the squared half steps of its padded lanes; at 16 bits the
   row comes back unchanged.
   */
  lemma QuantizationError(x: Vector, bits: real, rotation: Option<Rotation>)
    requires RotationFits(rotation, |x|) && Quantize(x, bits, rotation).Success?
    ensures var q := Quantize(x, bits, rotation).value;
      && CodedOk(q) && |Dequantize(q)| == |x|
      && (q.Lossless? ==> Dequantize(q) == x)
      && (q.Coded? ==>
            Energy(Square, Sub(Dequantize(q), x)) <= Energy(Square, HalfSteps(q.schedule, q.scale, |q.codes|)))
  {
    var q := Quantize(x, bits, rotation).value;
    if q.Coded? {
      var y := RotatedRow(x, rotation);
      var back := Decode(q.codes, q.scale, q.schedule);
      DecodedLanes(y, q.schedule);
      if rotation.Some? {
        RestoredError(back, x, rotation.value);
      } else {
        assert back[..|x|] == back;
      }
    }
  }
}
