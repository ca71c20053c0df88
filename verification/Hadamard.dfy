/** The stride loop of the fast Hadamard transform, over exact reals: an involution that keeps energy. */
module Hadamard {
  import opened Reals

  type Vector = seq<real>

  function Pow2(k: nat): (r: nat)
    ensures r > 0
  {
    if k == 0 then 1 else 2 * Pow2(k - 1)
  }

  // ----- Vectors -----

  function Add(a: Vector, b: Vector): (r: Vector)
    requires |a| == |b|
    ensures |r| == |a| && forall i :: 0 <= i < |a| ==> r[i] == a[i] + b[i]
  {
    seq(|a|, i requires 0 <= i < |a| => a[i] + b[i])
  }

  function Sub(a: Vector, b: Vector): (r: Vector)
    requires |a| == |b|
    ensures |r| == |a| && forall i :: 0 <= i < |a| ==> r[i] == a[i] - b[i]
  {
    seq(|a|, i requires 0 <= i < |a| => a[i] - b[i])
  }

  function Scale(c: real, a: Vector): (r: Vector)
    ensures |r| == |a| && forall i :: 0 <= i < |a| ==> r[i] == c * a[i]
  {
    seq(|a|, i requires 0 <= i < |a| => c * a[i])
  }

  /** The sum of `sq` over the first `n` lanes; with `Square` this is their energy. */
  function EnergyTo(sq: real -> real, a: Vector, n: nat): real
    requires n <= |a|
  {
    if n == 0 then 0.0 else EnergyTo(sq, a, n - 1) + sq(a[n - 1])
  }

  function Energy(sq: real -> real, a: Vector): real {
    EnergyTo(sq, a, |a|)
  }

  ghost predicate ParallelogramAt(sq: real -> real, x: real, y: real) {
    sq(x + y) + sq(x - y) == 2.0 * (sq(x) + sq(y))
  }

  /** The parallelogram law, which is all the transform needs to know about squares. */
  ghost predicate Parallelograms(sq: real -> real) {
    forall x, y :: ParallelogramAt(sq, x, y)
  }

  ghost predicate ScalesAt(sq: real -> real, c: real, d: real, x: real) {
    sq(c * x) == d * sq(x)
  }

  lemma SquareLaws(c: real, d: real)
    requires d == c * c
    ensures Parallelograms(Square)
    ensures forall x :: ScalesAt(Square, c, d, x)
  {
    forall x, y
      ensures ParallelogramAt(Square, x, y)
    {
    }
    forall x
      ensures ScalesAt(Square, c, d, x)
    {
      SquareOfProduct(c, x);
    }
  }

  lemma SquareOfProduct(c: real, x: real)
    ensures (c * x) * (c * x) == (c * c) * (x * x)
  {
  }

  lemma {:induction false} SameLanes(sq: real -> real, a: Vector, b: Vector, n: nat)
    requires n <= |a| && n <= |b| && forall i :: 0 <= i < n ==> a[i] == b[i]
    ensures EnergyTo(sq, a, n) == EnergyTo(sq, b, n)
  {
    if n > 0 {
      SameLanes(sq, a, b, n - 1);
    }
  }

  lemma {:induction false} EnergyJoins(sq: real -> real, a: Vector, b: Vector, n: nat)
    requires n <= |b|
    ensures EnergyTo(sq, a + b, |a| + n) == Energy(sq, a) + EnergyTo(sq, b, n)
  {
    if n == 0 {
      SameLanes(sq, a + b, a, |a|);
    } else {
      EnergyJoins(sq, a, b, n - 1);
    }
  }

  // ----- The transform -----

  /** One butterfly over two halves. */
  function Combine(a: Vector, b: Vector): (r: Vector)
    requires |a| == |b|
    ensures |r| == 2 * |a|
  {
    Add(a, b) + Sub(a, b)
  }

  /** The transform of width 2^k, not yet normalised. */
  function Transform(v: Vector, k: nat): (r: Vector)
    requires |v| == Pow2(k)
    ensures |r| == |v|
    decreases k
  {
    if k == 0 then v
    else
      var n := Pow2(k - 1);
      Combine(Transform(v[..n], k - 1), Transform(v[n..], k - 1))
  }

  lemma AddHalves(a: Vector, b: Vector, n: nat)
    requires |a| == |b| && n <= |a|
    ensures Add(a, b)[..n] == Add(a[..n], b[..n]) && Add(a, b)[n..] == Add(a[n..], b[n..])
    ensures Sub(a, b)[..n] == Sub(a[..n], b[..n]) && Sub(a, b)[n..] == Sub(a[n..], b[n..])
  {
  }

  lemma ScaleHalves(c: real, v: Vector, n: nat)
    requires n <= |v|
    ensures Scale(c, v)[..n] == Scale(c, v[..n]) && Scale(c, v)[n..] == Scale(c, v[n..])
  {
    forall i | 0 <= i < n
      ensures Scale(c, v)[..n][i] == Scale(c, v[..n])[i]
    {
      assert v[..n][i] == v[i];
    }
    forall i | 0 <= i < |v| - n
      ensures Scale(c, v)[n..][i] == Scale(c, v[n..])[i]
    {
      assert v[n..][i] == v[n + i];
    }
  }

  lemma {:induction false} TransformAdds(a: Vector, b: Vector, k: nat)
    requires |a| == |b| == Pow2(k)
    ensures Transform(Add(a, b), k) == Add(Transform(a, k), Transform(b, k))
    ensures Transform(Sub(a, b), k) == Sub(Transform(a, k), Transform(b, k))
  {
    if k > 0 {
      var n := Pow2(k - 1);
      AddHalves(a, b, n);
      TransformAdds(a[..n], b[..n], k - 1);
      TransformAdds(a[n..], b[n..], k - 1);
      CombineAdds(Transform(a[..n], k - 1), Transform(a[n..], k - 1), Transform(b[..n], k - 1), Transform(b[n..], k - 1));
    }
  }

  lemma CombineAdds(a: Vector, b: Vector, c: Vector, d: Vector)
    requires |a| == |b| == |c| == |d|
    ensures Combine(Add(a, c), Add(b, d)) == Add(Combine(a, b), Combine(c, d))
    ensures Combine(Sub(a, c), Sub(b, d)) == Sub(Combine(a, b), Combine(c, d))
  {
  }

  lemma {:induction false} TransformScales(c: real, v: Vector, k: nat)
    requires |v| == Pow2(k)
    ensures Transform(Scale(c, v), k) == Scale(c, Transform(v, k))
  {
    if k > 0 {
      var n := Pow2(k - 1);
      ScaleHalves(c, v, n);
      TransformScales(c, v[..n], k - 1);
      TransformScales(c, v[n..], k - 1);
      CombineScales(c, Transform(v[..n], k - 1), Transform(v[n..], k - 1));
    }
  }

  lemma ScaleAdds(c: real, a: Vector, b: Vector)
    requires |a| == |b|
    ensures Scale(c, Add(a, b)) == Add(Scale(c, a), Scale(c, b))
    ensures Scale(c, Sub(a, b)) == Sub(Scale(c, a), Scale(c, b))
  {
    var sum, difference := Scale(c, Add(a, b)), Scale(c, Sub(a, b));
    forall i | 0 <= i < |a|
      ensures sum[i] == c * a[i] + c * b[i] && difference[i] == c * a[i] - c * b[i]
    {
      Distributes(c, a[i], b[i]);
    }
  }

  lemma ScaleJoins(c: real, a: Vector, b: Vector)
    ensures Scale(c, a + b) == Scale(c, a) + Scale(c, b)
  {
    var whole, parts := Scale(c, a + b), Scale(c, a) + Scale(c, b);
    forall i | 0 <= i < |whole|
      ensures whole[i] == parts[i]
    {
      assert (a + b)[i] == if i < |a| then a[i] else b[i - |a|];
    }
  }

  lemma CombineScales(c: real, a: Vector, b: Vector)
    requires |a| == |b|
    ensures Combine(Scale(c, a), Scale(c, b)) == Scale(c, Combine(a, b))
  {
    ScaleAdds(c, a, b);
    ScaleJoins(c, Add(a, b), Sub(a, b));
  }

  lemma Distributes(c: real, x: real, y: real)
    ensures c * (x + y) == c * x + c * y && c * (x - y) == c * x - c * y
  {
  }

  /** Twice through the transform: every lane times the width. */
  lemma {:induction false} TransformTwice(v: Vector, k: nat)
    requires |v| == Pow2(k)
    ensures Transform(Transform(v, k), k) == Scale(Pow2(k) as real, v)
  {
    if k == 0 {
      assert Scale(1.0, v) == v;
    } else {
      var n := Pow2(k - 1);
      var l, r := Transform(v[..n], k - 1), Transform(v[n..], k - 1);
      TransformTwice(v[..n], k - 1);
      TransformTwice(v[n..], k - 1);
      TransformCombined(l, r, k);
      BothHalves(v, n, n as real, Transform(l, k - 1), Transform(r, k - 1));
    }
  }

  lemma TransformCombined(l: Vector, r: Vector, k: nat)
    requires k > 0 && |l| == |r| == Pow2(k - 1)
    ensures Transform(Combine(l, r), k)
         == Combine(Add(Transform(l, k - 1), Transform(r, k - 1)), Sub(Transform(l, k - 1), Transform(r, k - 1)))
  {
    var n, once := Pow2(k - 1), Combine(l, r);
    assert once[..n] == Add(l, r) && once[n..] == Sub(l, r);
    TransformAdds(l, r, k - 1);
  }

  lemma SumPlusDifference(a: Vector, b: Vector)
    requires |a| == |b|
    ensures Combine(Add(a, b), Sub(a, b)) == Add(a, a) + Add(b, b)
  {
  }

  lemma TwiceScaled(c: real, v: Vector)
    ensures Add(Scale(c, v), Scale(c, v)) == Scale(2.0 * c, v)
  {
    forall i | 0 <= i < |v|
      ensures c * v[i] + c * v[i] == (2.0 * c) * v[i]
    {
    }
  }

  lemma BothHalves(v: Vector, n: nat, c: real, a: Vector, b: Vector)
    requires |v| == 2 * n && a == Scale(c, v[..n]) && b == Scale(c, v[n..])
    ensures Combine(Add(a, b), Sub(a, b)) == Scale(2.0 * c, v)
  {
    SumPlusDifference(a, b);
    TwiceScaled(c, v[..n]);
    TwiceScaled(c, v[n..]);
    var all := Scale(2.0 * c, v);
    ScaleHalves(2.0 * c, v, n);
    assert all == all[..n] + all[n..];
  }

  lemma CombineEnergy(sq: real -> real, a: Vector, b: Vector)
    requires |a| == |b| && Parallelograms(sq)
    ensures Energy(sq, Combine(a, b)) == 2.0 * (Energy(sq, a) + Energy(sq, b))
  {
    EnergyJoins(sq, Add(a, b), Sub(a, b), |a|);
    SumAndDifference(sq, a, b, |a|);
  }

  lemma {:induction false} SumAndDifference(sq: real -> real, a: Vector, b: Vector, n: nat)
    requires |a| == |b| && n <= |a| && Parallelograms(sq)
    ensures EnergyTo(sq, Add(a, b), n) + EnergyTo(sq, Sub(a, b), n) == 2.0 * (EnergyTo(sq, a, n) + EnergyTo(sq, b, n))
  {
    if n > 0 {
      SumAndDifference(sq, a, b, n - 1);
      assert ParallelogramAt(sq, a[n - 1], b[n - 1]);
    }
  }

  /** `x` doubled `k` times. */
  function Doubled(k: nat, x: real): real {
    if k == 0 then x else 2.0 * Doubled(k - 1, x)
  }

  lemma {:induction false} DoubledAdds(k: nat, x: real, y: real)
    ensures Doubled(k, x) + Doubled(k, y) == Doubled(k, x + y)
  {
    if k > 0 {
      DoubledAdds(k - 1, x, y);
    }
  }

  lemma {:induction false} DoubledIsProduct(k: nat, x: real, n: real)
    requires n == Pow2(k) as real
    ensures Doubled(k, x) == n * x
  {
    if k > 0 {
      var half := Pow2(k - 1) as real;
      DoubledIsProduct(k - 1, x, half);
      assert n == 2.0 * half;
      Reassociate(half, x);
    }
  }

  lemma Reassociate(c: real, x: real)
    ensures 2.0 * (c * x) == (2.0 * c) * x
  {
  }

  lemma EnergyStep(sq: real -> real, l: Vector, r: Vector, k: nat, x: real, y: real)
    requires |l| == |r| && Parallelograms(sq)
    requires Energy(sq, l) == Doubled(k, x) && Energy(sq, r) == Doubled(k, y)
    ensures Energy(sq, Combine(l, r)) == Doubled(k + 1, x + y)
  {
    CombineEnergy(sq, l, r);
    DoubledAdds(k, x, y);
  }

  lemma Unfolded(v: Vector, k: nat)
    requires k > 0 && |v| == Pow2(k)
    ensures |v| == 2 * Pow2(k - 1)
    ensures Transform(v, k)
         == Combine(Transform(v[..Pow2(k - 1)], k - 1), Transform(v[Pow2(k - 1)..], k - 1))
  {
  }

  lemma HalvesOf(x: Vector, y: Vector)
    ensures (x + y)[..|x|] == x && (x + y)[|x|..] == y
  {
  }

  lemma TransformStep(v: Vector, k: nat, j: nat, x: Vector, y: Vector)
    requires k == j + 1 && |x| == |y| == Pow2(j) && v == x + y
    ensures |v| == Pow2(k) && Transform(v, k) == Combine(Transform(x, j), Transform(y, j))
  {
    HalvesOf(x, y);
    Unfolded(v, k);
  }

  lemma EnergyOfHalves(sq: real -> real, v: Vector, x: Vector, y: Vector)
    requires v == x + y
    ensures Energy(sq, v) == Energy(sq, x) + Energy(sq, y)
  {
    EnergyJoins(sq, x, y, |y|);
  }

  /** The transform of width 2^k multiplies the energy by 2^k. */
  lemma {:induction false} TransformEnergy(sq: real -> real, v: Vector, k: nat)
    requires |v| == Pow2(k) && Parallelograms(sq)
    ensures Energy(sq, Transform(v, k)) == Doubled(k, Energy(sq, v))
  {
    if k > 0 {
      var j: nat := k - 1;
      var x, y := v[..Pow2(j)], v[Pow2(j)..];
      assert v == x + y;
      TransformStep(v, k, j, x, y);
      var l, r := Transform(x, j), Transform(y, j);
      TransformEnergy(sq, x, j);
      TransformEnergy(sq, y, j);
      EnergyOfHalves(sq, v, x, y);
      EnergyStep(sq, l, r, j, Energy(sq, x), Energy(sq, y));
    }
  }

  lemma {:induction false} EnergyScales(sq: real -> real, c: real, d: real, v: Vector, n: nat)
    requires n <= |v| && forall x :: ScalesAt(sq, c, d, x)
    ensures EnergyTo(sq, Scale(c, v), n) == d * EnergyTo(sq, v, n)
  {
    if n > 0 {
      EnergyScales(sq, c, d, v, n - 1);
      assert ScalesAt(sq, c, d, v[n - 1]);
      Distributes(d, EnergyTo(sq, v, n - 1), sq(v[n - 1]));
    }
  }

  lemma AllEnergyScales(sq: real -> real, c: real, d: real, v: Vector, e: real)
    requires (forall x :: ScalesAt(sq, c, d, x)) && e == Energy(sq, v)
    ensures Energy(sq, Scale(c, v)) == d * e
  {
    EnergyScales(sq, c, d, v, |v|);
  }

  // ----- The stride loop -----

  /** The size of `count` blocks of width 2^k. */
  function Size(count: nat, k: nat): nat {
    if count == 0 then 0 else Pow2(k) + Size(count - 1, k)
  }

  /** Every block of width 2^k transformed on its own. */
  function Blocks(v: Vector, k: nat, count: nat): (r: Vector)
    requires |v| == Size(count, k)
    ensures |r| == |v|
    decreases count
  {
    if count == 0 then []
    else Transform(v[..Pow2(k)], k) + Blocks(v[Pow2(k)..], k, count - 1)
  }

  /** One pass: a butterfly on every pair of neighbouring blocks. */
  function Pass(v: Vector, k: nat, pairs: nat): (r: Vector)
    requires |v| == Size(pairs, k + 1)
    ensures |r| == |v|
    decreases pairs
  {
    if pairs == 0 then []
    else
      var n := Pow2(k);
      Combine(v[..n], v[n..2 * n]) + Pass(v[2 * n..], k, pairs - 1)
  }

  lemma {:induction false} PairsOfBlocks(pairs: nat, k: nat)
    ensures Size(2 * pairs, k) == Size(pairs, k + 1)
  {
    if pairs > 0 {
      PairsOfBlocks(pairs - 1, k);
      assert Size(2 * pairs, k) == Pow2(k) + (Pow2(k) + Size(2 * (pairs - 1), k));
    }
  }

  lemma PassStep(a: Vector, b: Vector, rest: Vector, k: nat, pairs: nat)
    requires pairs > 0 && |a| == |b| == Pow2(k) && |rest| == Size(pairs - 1, k + 1)
    ensures |a + b + rest| == Size(pairs, k + 1)
    ensures Pass(a + b + rest, k, pairs) == Combine(a, b) + Pass(rest, k, pairs - 1)
  {
    var n, all := Pow2(k), a + b + rest;
    assert all[..n] == a && all[n..2 * n] == b && all[2 * n..] == rest;
  }

  lemma BlockStep(x: Vector, rest: Vector, k: nat, count: nat)
    requires count > 0 && |x| == Pow2(k) && |rest| == Size(count - 1, k)
    ensures |x + rest| == Size(count, k)
    ensures Blocks(x + rest, k, count) == Transform(x, k) + Blocks(rest, k, count - 1)
  {
    assert (x + rest)[..Pow2(k)] == x && (x + rest)[Pow2(k)..] == rest;
  }

  lemma TwoBlocks(x: Vector, y: Vector, rest: Vector, k: nat, count: nat)
    requires count >= 2 && |x| == |y| == Pow2(k) && |rest| == Size(count - 2, k)
    ensures |x + y + rest| == Size(count, k)
    ensures Blocks(x + y + rest, k, count) == Transform(x, k) + Transform(y, k) + Blocks(rest, k, count - 2)
  {
    BlockStep(y, rest, k, count - 1);
    BlockStep(x, y + rest, k, count);
    assert x + (y + rest) == x + y + rest;
  }

  /** A pass over transformed blocks gives the transformed blocks of twice the width. */
  lemma {:induction false} PassWidens(v: Vector, k: nat, pairs: nat)
    requires |v| == Size(pairs, k + 1)
    ensures Size(2 * pairs, k) == Size(pairs, k + 1)
    ensures Pass(Blocks(v, k, 2 * pairs), k, pairs) == Blocks(v, k + 1, pairs)
    decreases pairs
  {
    PairsOfBlocks(pairs, k);
    if pairs > 0 {
      var n, wide: nat, fewer: nat := Pow2(k), k + 1, pairs - 1;
      var x, y, rest := v[..n], v[n..2 * n], v[2 * n..];
      assert v == (x + y) + rest;
      PassWidens(rest, k, fewer);
      PairStep(x, y, rest, k, wide, pairs, fewer);
    }
  }

  lemma PairStep(x: Vector, y: Vector, rest: Vector, k: nat, wide: nat, pairs: nat, fewer: nat)
    requires wide == k + 1 && pairs == fewer + 1 && |x| == |y| == Pow2(k)
    requires |rest| == Size(fewer, wide) == Size(2 * fewer, k)
    requires Pass(Blocks(rest, k, 2 * fewer), k, fewer) == Blocks(rest, wide, fewer)
    ensures |x + y + rest| == Size(pairs, wide) == Size(2 * pairs, k)
    ensures Pass(Blocks(x + y + rest, k, 2 * pairs), k, pairs) == Blocks(x + y + rest, wide, pairs)
  {
    TwoBlocks(x, y, rest, k, 2 * pairs);
    PassStep(Transform(x, k), Transform(y, k), Blocks(rest, k, 2 * fewer), k, pairs);
    BlockStep(x + y, rest, wide, pairs);
    TransformStep(x + y, wide, k, x, y);
  }

  lemma {:induction false} SingleBlocks(v: Vector, count: nat)
    requires |v| == Size(count, 0)
    ensures Blocks(v, 0, count) == v && |v| == count
    decreases count
  {
    if count > 0 {
      SingleBlocks(v[1..], count - 1);
      assert v == v[..1] + v[1..];
    }
  }

  lemma {:induction false} SizeOfOnes(count: nat)
    ensures Size(count, 0) == count
  {
    if count > 0 {
      SizeOfOnes(count - 1);
    }
  }

  /** The butterflies of one stride, block by block. */
  method RunPass(v: Vector, k: nat, pairs: nat, stride: nat) returns (r: Vector)
    requires |v| == Size(pairs, k + 1) && stride == Pow2(k)
    ensures r == Pass(v, k, pairs)
  {
    r := [];
    var rest := v;
    ghost var left := pairs;
    while rest != []
      invariant |rest| == Size(left, k + 1) && r + Pass(rest, k, left) == Pass(v, k, pairs)
      decreases |rest|
    {
      var a, b := rest[..stride], rest[stride..2 * stride];
      ghost var tail := Pass(rest[2 * stride..], k, left - 1);
      assert r + (Combine(a, b) + tail) == (r + Combine(a, b)) + tail;
      r, rest := r + Combine(a, b), rest[2 * stride..];
      left := left - 1;
    }
    assert left == 0;
    assert r + [] == r;
  }

  /** `_hadamard` before the division: strides 1, 2, 4, ... up to the width. */
  method StrideLoop(v: Vector, n: nat) returns (r: Vector)
    requires |v| == Pow2(n)
    ensures r == Transform(v, n)
  {
    r := v;
    var stride, k, blocks := 1, 0, |v|;
    SizeOfOnes(|v|);
    SingleBlocks(v, |v|);
    ghost var j := n;
    while stride < |v|
      invariant k + j == n && stride == Pow2(k) && blocks == Pow2(j)
      invariant Size(blocks, k) == |v| && r == Blocks(v, k, blocks)
      decreases |v| - stride
    {
      assert j > 0 && blocks == 2 * Pow2(j - 1);
      PairsOfBlocks(blocks / 2, k);
      PassWidens(v, k, blocks / 2);
      r := RunPass(r, k, blocks / 2, stride);
      stride, k, blocks := 2 * stride, k + 1, blocks / 2;
      j := j - 1;
    }
    if j > 0 {
      Pow2Grows(k, n);
    }
    OneBlock(v, n);
  }

  lemma {:induction false} Pow2Grows(k: nat, n: nat)
    requires k < n
    ensures Pow2(k) < Pow2(n)
    decreases n
  {
    if k < n - 1 {
      Pow2Grows(k, n - 1);
    }
  }

  lemma OneBlock(v: Vector, k: nat)
    requires |v| == Pow2(k)
    ensures |v| == Size(1, k) && Blocks(v, k, 1) == Transform(v, k)
  {
    assert v[..Pow2(k)] == v && v[Pow2(k)..] == [];
    assert Size(0, k) == 0;
    assert Transform(v, k) + [] == Transform(v, k);
  }
}
