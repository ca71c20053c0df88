/**
 Four-bit floating-point elements under shared power-of-two scales: E2M1 elements and E8M0 scales as in
 sections 5.3.3 and 5.4.1 of the OCP Microscaling Formats (MX) Specification v1.0, over exact reals.
 */
module Mxfp4 {
  import opened Reals
  import opened Wrappers

  // ----- Elements -----

  function Magnitude(code: nat): real
    requires code < 8
  {
    if code == 0 then 0.0 else if code == 1 then 0.5 else if code == 2 then 1.0 else if code == 3 then 1.5
    else if code == 4 then 2.0 else if code == 5 then 3.0 else if code == 6 then 4.0 else 6.0
  }

  function Value(code: nat): real
    requires code < 16
  {
    if code < 8 then Magnitude(code) else -Magnitude(code - 8)
  }

  function Distance(x: real, code: nat): real
    requires code < 16
  {
    Abs(x - Value(code))
  }

  /** The first position of the smallest element. */
  function ArgMin(s: seq<real>): (best: nat)
    requires s != []
    ensures best < |s|
    ensures forall j :: 0 <= j < |s| ==> s[best] <= s[j]
    ensures forall j :: 0 <= j < best ==> s[best] < s[j]
  {
    if |s| == 1 then 0
    else
      var best := ArgMin(s[..|s| - 1]);
      if s[|s| - 1] < s[best] then |s| - 1 else best
  }

  function Distances(x: real): (d: seq<real>)
    ensures |d| == 16 && forall code :: 0 <= code < 16 ==> d[code] == Distance(x, code)
  {
    seq(16, code requires 0 <= code < 16 => Distance(x, code))
  }

  /** The first of the closest codes. */
  function Nearest(x: real): (code: nat)
    ensures code < 16 && forall j: nat :: j < 16 ==> Distance(x, code) <= Distance(x, j)
  {
    var d := Distances(x);
    var best := ArgMin(d);
    assert forall j: nat :: j < 16 ==> d[best] <= d[j];
    best
  }

  /** A value of the format is its own nearest value. */
  lemma NearestIsExact(code: nat)
    requires code < 16
    ensures Value(Nearest(Value(code))) == Value(code)
  {
    assert Distance(Value(code), Nearest(Value(code))) <= Distance(Value(code), code);
  }

  /** Doubling stays in the format up to its largest value. */
  lemma Doubled(code: nat) returns (twice: nat)
    requires code < 16 && Abs(2.0 * Value(code)) <= 6.0
    ensures twice < 16 && Value(twice) == 2.0 * Value(code)
  {
    var m := if code < 8 then code else code - 8;
    var up := if m == 0 then 0 else if m == 1 then 2 else if m == 2 then 4 else if m == 3 then 5
              else if m == 4 then 6 else 7;
    twice := if code < 8 then up else up + 8;
  }

  /** Up to the largest value, the nearest code is within one. */
  lemma NearestIsClose(x: real)
    requires Abs(x) <= 6.0
    ensures Distance(x, Nearest(x)) <= 1.0
  {
    var best := Nearest(x);
    if x >= 0.0 {
      assert Distance(x, best) <= Distance(x, 1) && Distance(x, best) <= Distance(x, 3);
      assert Distance(x, best) <= Distance(x, 5) && Distance(x, best) <= Distance(x, 6);
      assert Distance(x, best) <= Distance(x, 7) && Distance(x, best) <= Distance(x, 4);
    } else {
      assert Distance(x, best) <= Distance(x, 9) && Distance(x, best) <= Distance(x, 11);
      assert Distance(x, best) <= Distance(x, 13) && Distance(x, best) <= Distance(x, 14);
      assert Distance(x, best) <= Distance(x, 15) && Distance(x, best) <= Distance(x, 12);
    }
  }

  // ----- Scales -----

  /** 2^e. */
  function Scale(e: int): (s: real)
    ensures s > 0.0
    decreases if e < 0 then -e else e
  {
    if e == 0 then 1.0 else if e > 0 then 2.0 * Scale(e - 1) else Scale(e + 1) / 2.0
  }

  lemma ScaleStep(e: int)
    ensures Scale(e + 1) == 2.0 * Scale(e)
  {
  }

  lemma {:induction false} ScaleGrows(a: int, b: int)
    requires a <= b
    ensures Scale(a) <= Scale(b)
    decreases b - a
  {
    if a < b {
      ScaleGrows(a, b - 1);
      ScaleStep(b - 1);
    }
  }

  const LOWEST := -127
  const HIGHEST := 126

  /**
   The exponent of a group with largest magnitude m: the least one that fits, clamped from below; none when
   even the highest does not fit.
   */
  function ExponentFrom(m: real, e: int): (r: Option<int>)
    requires LOWEST <= e <= HIGHEST + 1
    requires e > LOWEST ==> m > 6.0 * Scale(e - 1)
    ensures r.Some? ==> LOWEST <= r.value <= HIGHEST && m <= 6.0 * Scale(r.value)
    ensures r.Some? && r.value > LOWEST ==> m > 6.0 * Scale(r.value - 1)
    ensures r.None? ==> m > 6.0 * Scale(HIGHEST)
    decreases HIGHEST + 1 - e
  {
    if e > HIGHEST then None
    else if m <= 6.0 * Scale(e) then Some(e)
    else ExponentFrom(m, e + 1)
  }

  function Exponent(m: real): Option<int> {
    ExponentFrom(m, LOWEST)
  }

  /** The exponent is the least that fits: any fitting one is at least as large. */
  lemma ExponentIsLeast(m: real, e: int)
    requires LOWEST <= e <= HIGHEST && m <= 6.0 * Scale(e)
    ensures Exponent(m).Some? && Exponent(m).value <= e
  {
    ScaleGrows(e, HIGHEST);
    if Exponent(m).Some? && Exponent(m).value > e {
      ScaleGrows(e, Exponent(m).value - 1);
    }
  }

  // ----- Groups -----

  predicate Codes(codes: seq<nat>) {
    forall i :: 0 <= i < |codes| ==> codes[i] < 16
  }

  /** An element in units of the scale. */
  function Ratio(x: real, e: int): real {
    x / Scale(e)
  }

  function EncodeAt(g: seq<real>, e: int): (codes: seq<nat>)
    ensures |codes| == |g| && Codes(codes)
  {
    seq(|g|, i requires 0 <= i < |g| => Nearest(Ratio(g[i], e)))
  }

  function DecodeAt(codes: seq<nat>, e: int): (g: seq<real>)
    requires Codes(codes)
    ensures |g| == |codes|
  {
    seq(|codes|, i requires 0 <= i < |codes| => Value(codes[i]) * Scale(e))
  }

  /** x is the element a code stands for under exponent e. */
  predicate Stands(x: real, code: nat, e: int) {
    code < 16 && x == Value(code) * Scale(e)
  }

  /** A code under one scale is a code under any lower scale under which it still fits. */
  lemma {:induction false} Rescaled(x: real, code: nat, s: int, e: int) returns (other: nat)
    requires Stands(x, code, s) && e <= s && Abs(x) <= 6.0 * Scale(e)
    ensures Stands(x, other, e)
    decreases s - e
  {
    other := code;
    if e < s {
      var twice := HalvedScale(x, code, s, e);
      other := Rescaled(x, twice, s - 1, e);
    }
  }

  lemma HalvedScale(x: real, code: nat, s: int, e: int) returns (twice: nat)
    requires Stands(x, code, s) && e < s && Abs(x) <= 6.0 * Scale(e)
    ensures Stands(x, twice, s - 1)
  {
    var v, b := 2.0 * Value(code), Scale(s - 1);
    assert x == v * b by {
      ScaleStep(s - 1);
      DoublesAcross(Value(code), Scale(s), b);
    }
    assert Abs(v) <= 6.0 by {
      ScaleGrows(e, s - 1);
      Fits(x, v, b, Scale(e));
    }
    twice := Doubled(code);
  }

  lemma DoublesAcross(v: real, a: real, b: real)
    requires a == 2.0 * b
    ensures 2.0 * v * b == v * a
  {
  }

  lemma Fits(x: real, v: real, s: real, t: real)
    requires 0.0 < t <= s && x == v * s && Abs(x) <= 6.0 * t
    ensures Abs(v) <= 6.0
  {
    assert v > 6.0 ==> (v - 6.0) * s > 0.0;
    assert v < -6.0 ==> (-6.0 - v) * s > 0.0;
  }

  lemma Undone(x: real, s: real, w: real)
    requires s > 0.0 && x == w * s
    ensures x / s == w
  {
    assert x / s * s == x;
    assert (x / s - w) * s == 0.0;
  }

  /** Values representable under the scale come back exactly. */
  lemma ExactAt(codes: seq<nat>, s: int, e: int)
    requires Codes(codes) && e <= s && MaxAbs(DecodeAt(codes, s)) <= 6.0 * Scale(e)
    ensures DecodeAt(EncodeAt(DecodeAt(codes, s), e), e) == DecodeAt(codes, s)
  {
    var g := DecodeAt(codes, s);
    var again := EncodeAt(g, e);
    WithinMax(g, 6.0 * Scale(e));
    DecodedStand(codes, s);
    forall i | 0 <= i < |g|
      ensures Stands(g[i], again[i], e)
    {
      ExactElement(g[i], codes[i], s, e);
    }
    AllStand(g, again, e);
  }

  lemma WithinMax(g: seq<real>, bound: real)
    requires MaxAbs(g) <= bound
    ensures forall i :: 0 <= i < |g| ==> Abs(g[i]) <= bound
  {
  }

  lemma DecodedStand(codes: seq<nat>, e: int)
    requires Codes(codes)
    ensures forall i :: 0 <= i < |codes| ==> Stands(DecodeAt(codes, e)[i], codes[i], e)
  {
  }

  lemma AllStand(g: seq<real>, codes: seq<nat>, e: int)
    requires |codes| == |g| && Codes(codes) && forall i :: 0 <= i < |g| ==> Stands(g[i], codes[i], e)
    ensures DecodeAt(codes, e) == g
  {
  }

  lemma ExactElement(x: real, code: nat, s: int, e: int)
    requires Stands(x, code, s) && e <= s && Abs(x) <= 6.0 * Scale(e)
    ensures Stands(x, Nearest(Ratio(x, e)), e)
  {
    var other := Rescaled(x, code, s, e);
    assert Ratio(x, e) == Value(other) by {
      Undone(x, Scale(e), Value(other));
    }
    NearestIsExact(other);
  }

  // ----- Error of one group -----

  /** What an element comes back as under exponent e. */
  function Recode(x: real, e: int): real {
    Value(Nearest(Ratio(x, e))) * Scale(e)
  }

  lemma ElementError(x: real, e: int)
    requires Abs(x) <= 6.0 * Scale(e)
    ensures Abs(Recode(x, e) - x) <= Scale(e)
  {
    var u, y, s := Ratio(x, e), Recode(x, e), Scale(e);
    var v := Value(Nearest(u));
    RatioFits(x, e);
    NearestIsClose(u);
    RecodeForm(x, e);
    ScaledDistance(u, v, s, x, y);
  }

  lemma RecodeForm(x: real, e: int)
    ensures IsProduct(Recode(x, e), Value(Nearest(Ratio(x, e))), Scale(e))
  {
  }

  predicate IsProduct(x: real, u: real, s: real) {
    x == u * s
  }

  lemma RatioFits(x: real, e: int)
    requires Abs(x) <= 6.0 * Scale(e)
    ensures IsProduct(x, Ratio(x, e), Scale(e)) && Abs(Ratio(x, e)) <= 6.0
  {
    var u, s := Ratio(x, e), Scale(e);
    Divided(x, s, u);
    ProductBound(u, 6.0, s);
  }

  lemma Divided(x: real, s: real, u: real)
    requires s > 0.0 && u == x / s
    ensures IsProduct(x, u, s)
  {
  }

  lemma ScaledDistance(u: real, v: real, s: real, x: real, y: real)
    requires s > 0.0 && IsProduct(x, u, s) && IsProduct(y, v, s) && Abs(u - v) <= 1.0
    ensures Abs(y - x) <= s
  {
    assert y - x == (v - u) * s;
    ProductBound(v - u, 1.0, s);
  }

  lemma ProductBound(v: real, b: real, s: real)
    requires s > 0.0
    ensures Abs(v * s) <= b * s <==> Abs(v) <= b
  {
    assert (b - v) * s >= 0.0 <==> b >= v;
    assert (b + v) * s >= 0.0 <==> b + v >= 0.0;
  }

  lemma Recoded(g: seq<real>, e: int, i: nat)
    requires i < |g|
    ensures DecodeAt(EncodeAt(g, e), e)[i] == Recode(g[i], e)
  {
  }

  lemma ErrorAt(g: seq<real>, e: int, i: nat)
    requires MaxAbs(g) <= 6.0 * Scale(e) && i < |g|
    ensures Abs(DecodeAt(EncodeAt(g, e), e)[i] - g[i]) <= Scale(e)
  {
    WithinMax(g, 6.0 * Scale(e));
    Recoded(g, e, i);
    ElementError(g[i], e);
  }

  /**
   Every element of a group is off by at most the group's scale, and by less than a third of the group's
   largest magnitude unless its exponent was clamped.
   */
  lemma GroupError(g: seq<real>, i: nat)
    requires Exponent(MaxAbs(g)).Some? && i < |g|
    ensures var e := Exponent(MaxAbs(g)).value; var error := Abs(DecodeAt(EncodeAt(g, e), e)[i] - g[i]);
      error <= Scale(e) && (e > LOWEST ==> error < MaxAbs(g) / 3.0)
  {
    var e := Exponent(MaxAbs(g)).value;
    ErrorAt(g, e, i);
    ScaleStep(e - 1);
  }

  // ----- The mean-square mode -----

  lemma PositiveProduct(x: real, y: real, p: real)
    requires x > 0.0 && y > 0.0 && p == x * y
    ensures p > 0.0
  {
  }

  lemma SquareSign(x: real)
    ensures Square(x) >= 0.0
    ensures Square(x) == 0.0 <==> x == 0.0
  {
    if x > 0.0 {
      PositiveProduct(x, x, Square(x));
    } else if x < 0.0 {
      PositiveProduct(-x, -x, Square(x));
    }
  }

  /** Squared distance of the first n elements. */
  function SquaresTo(back: seq<real>, g: seq<real>, n: nat): (s: real)
    requires n <= |back| == |g|
    ensures s >= 0.0
  {
    if n == 0 then 0.0
    else
      SquareSign(back[n - 1] - g[n - 1]);
      SquaresTo(back, g, n - 1) + Square(back[n - 1] - g[n - 1])
  }

  /** Squared error of a group under exponent e. */
  function Error(g: seq<real>, e: int): (s: real)
    ensures s >= 0.0
  {
    SquaresTo(DecodeAt(EncodeAt(g, e), e), g, |g|)
  }

  /** The exponents tried around e: four below it to two above, clamped. */
  function Candidate(e: int, k: nat): (c: int)
    requires k < 7
    ensures LOWEST <= c <= HIGHEST
  {
    var c := e + k - 4;
    if c < LOWEST then LOWEST else if c > HIGHEST then HIGHEST else c
  }

  function Errors(g: seq<real>, e: int): (errors: seq<real>)
    ensures |errors| == 7 && forall k :: 0 <= k < 7 ==> errors[k] == Error(g, Candidate(e, k))
  {
    seq(7, k requires 0 <= k < 7 => Error(g, Candidate(e, k)))
  }

  datatype Mode = MaxAbsMode | MseMode

  /** The exponent a mode picks for a group; none when the group is out of range. */
  function GroupExponent(g: seq<real>, mode: Mode): (r: Option<int>)
    ensures r.Some? <==> MaxAbs(g) <= 6.0 * Scale(HIGHEST)
    ensures r.Some? ==> LOWEST <= r.value <= HIGHEST
  {
    var least := Exponent(MaxAbs(g));
    if least.None? || mode.MaxAbsMode? then
      InRange(MaxAbs(g));
      least
    else
      InRange(MaxAbs(g));
      Some(Candidate(least.value, ArgMin(Errors(g, least.value))))
  }

  lemma InRange(m: real)
    ensures Exponent(m).Some? <==> m <= 6.0 * Scale(HIGHEST)
  {
    if m <= 6.0 * Scale(HIGHEST) {
      ExponentIsLeast(m, HIGHEST);
    } else {
      if Exponent(m).Some? {
        ScaleGrows(Exponent(m).value, HIGHEST);
      }
    }
  }

  /** The mean-square mode never has a larger error than the largest-magnitude mode. */
  lemma MseIsNoWorse(g: seq<real>)
    requires GroupExponent(g, MaxAbsMode).Some?
    ensures Error(g, GroupExponent(g, MseMode).value) <= Error(g, GroupExponent(g, MaxAbsMode).value)
  {
    var e := Exponent(MaxAbs(g)).value;
    assert Errors(g, e)[ArgMin(Errors(g, e))] <= Errors(g, e)[4];
    assert Candidate(e, 4) == e;
  }

  lemma {:induction false} NoSquares(back: seq<real>, g: seq<real>, n: nat)
    requires n <= |back| == |g|
    ensures SquaresTo(back, g, n) == 0.0 <==> back[..n] == g[..n]
  {
    if n > 0 {
      NoSquares(back, g, n - 1);
      SquareSign(back[n - 1] - g[n - 1]);
      assert back[..n] == back[..n - 1] + [back[n - 1]] && g[..n] == g[..n - 1] + [g[n - 1]];
    }
  }

  lemma NoError(g: seq<real>, e: int)
    ensures Error(g, e) == 0.0 <==> DecodeAt(EncodeAt(g, e), e) == g
  {
    var back := DecodeAt(EncodeAt(g, e), e);
    NoSquares(back, g, |g|);
    assert back[..|g|] == back && g[..|g|] == g;
  }

  /**
   What a group decodes to is encoded again without loss, in either mode, as soon as it is in range.
   */
  lemma GroupIsStable(codes: seq<nat>, s: int, mode: Mode)
    requires Codes(codes) && LOWEST <= s
    requires GroupExponent(DecodeAt(codes, s), mode).Some?
    ensures var g := DecodeAt(codes, s); var e := GroupExponent(g, mode).value;
      DecodeAt(EncodeAt(g, e), e) == g
  {
    var g := DecodeAt(codes, s);
    InRange(MaxAbs(g));
    var e := Exponent(MaxAbs(g)).value;
    LeastIsBelow(codes, s);
    ExactAt(codes, s, e);
    if mode.MseMode? {
      NoError(g, e);
      MseIsNoWorse(g);
      NoError(g, GroupExponent(g, mode).value);
    }
  }

  lemma ElementBound(x: real, code: nat, s: int)
    requires Stands(x, code, s)
    ensures Abs(x) <= 6.0 * Scale(s)
  {
    ProductBound(Value(code), 6.0, Scale(s));
  }

  lemma MaxWithin(g: seq<real>, bound: real)
    requires bound >= 0.0 && forall i :: 0 <= i < |g| ==> Abs(g[i]) <= bound
    ensures MaxAbs(g) <= bound
  {
  }

  lemma DecodedBound(codes: seq<nat>, s: int)
    requires Codes(codes)
    ensures MaxAbs(DecodeAt(codes, s)) <= 6.0 * Scale(s)
  {
    var g := DecodeAt(codes, s);
    DecodedStand(codes, s);
    forall i | 0 <= i < |g|
      ensures Abs(g[i]) <= 6.0 * Scale(s)
    {
      ElementBound(g[i], codes[i], s);
    }
    MaxWithin(g, 6.0 * Scale(s));
  }

  lemma LeastIsBelow(codes: seq<nat>, s: int)
    requires Codes(codes) && LOWEST <= s && Exponent(MaxAbs(DecodeAt(codes, s))).Some?
    ensures Exponent(MaxAbs(DecodeAt(codes, s))).value <= s
  {
    if s <= HIGHEST {
      DecodedBound(codes, s);
      ExponentIsLeast(MaxAbs(DecodeAt(codes, s)), s);
    }
  }

  /**
   A decoded group is in range exactly when its exponent is, or sits one above and no element is beyond half
   the format's largest value.
   */
  lemma DecodedInRange(codes: seq<nat>, s: int)
    requires Codes(codes) && s <= HIGHEST + 1
    ensures MaxAbs(DecodeAt(codes, s)) <= 6.0 * Scale(HIGHEST)
      <==> s <= HIGHEST || forall i :: 0 <= i < |codes| ==> Abs(Value(codes[i])) <= 3.0
  {
    var g := DecodeAt(codes, s);
    if s <= HIGHEST {
      DecodedBound(codes, s);
      ScaleGrows(s, HIGHEST);
    } else {
      ScaleStep(HIGHEST);
      assert 6.0 * Scale(HIGHEST) == 3.0 * Scale(s);
      forall i | 0 <= i < |codes|
        ensures Abs(g[i]) <= 3.0 * Scale(s) <==> Abs(Value(codes[i])) <= 3.0
      {
        ProductBound(Value(codes[i]), 3.0, Scale(s));
      }
    }
  }
}
