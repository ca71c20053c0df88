/**
 Choosing how many experts a token uses: the stable order of the biased scores, a natural, fixed or adaptive
 count, and weights from the unbiased scores. Over exact reals; the entropy support is a parameter.
 */
module Routing {
  import opened TopK
  import opened Wrappers

  datatype RoutingMode = Natural | Fixed | Adaptive

  datatype Config = Config(mode: RoutingMode, fixedK: nat, massTarget: real, minimumGap: real, qualityFloorK: nat)

  datatype Decision = Decision(
    fullOrder: seq<nat>, expertIds: seq<nat>, weights: seq<real>, selectedK: nat, mass: real, confidence: real,
    escalated: bool)

  const EPSILON := 0.00001
  /** The least normal single-precision number, 2^-126. */
  const TINY := 1.0 / 85070591730234615865843651857942052864.0

  predicate InLadder(k: nat) {
    k in {4, 6, 8, 12, 16}
  }

  // ----- Sums -----

  function SumTo(v: seq<real>, n: nat): real
    requires n <= |v|
  {
    if n == 0 then 0.0 else SumTo(v, n - 1) + v[n - 1]
  }

  function Sum(v: seq<real>): real {
    SumTo(v, |v|)
  }

  function Divide(v: seq<real>, d: real): (w: seq<real>)
    requires d > 0.0
    ensures |w| == |v| && forall i :: 0 <= i < |v| ==> w[i] == v[i] / d
  {
    seq(|v|, i requires 0 <= i < |v| => v[i] / d)
  }

  lemma {:induction false} DividedSum(v: seq<real>, d: real, n: nat)
    requires d > 0.0 && n <= |v|
    ensures SumTo(Divide(v, d), n) * d == SumTo(v, n)
  {
    if n > 0 {
      DividedSum(v, d, n - 1);
      Spread(SumTo(Divide(v, d), n - 1), v[n - 1] / d, d, v[n - 1]);
    }
  }

  lemma Spread(a: real, b: real, d: real, x: real)
    requires d > 0.0 && b == x / d
    ensures (a + b) * d == a * d + x
  {
    assert b * d == x;
  }

  lemma SumOfDivided(v: seq<real>, d: real)
    requires d > 0.0 && Sum(v) == d
    ensures Sum(Divide(v, d)) == 1.0
  {
    var s := Sum(Divide(v, d));
    DividedSum(v, d, |v|);
    assert s * d == d;
    assert (s - 1.0) * d == 0.0;
  }

  // ----- The adaptive choice -----

  function Max(a: real, b: real): real {
    if a < b then b else a
  }

  /** How far the last chosen probability is ahead of the first left out, relative to the first of all. */
  function BoundaryConfidence(p: seq<real>, k: nat): real
    requires 0 < k && p != []
  {
    if k >= |p| then 1.0 else Max(0.0, p[k - 1] - p[k]) / Max(p[0], TINY)
  }

  predicate Passes(p: seq<real>, support: real, c: Config, k: nat)
    requires 0 < k <= |p|
  {
    && SumTo(p, k) + EPSILON >= c.massTarget
    && k as real + EPSILON >= support
    && BoundaryConfidence(p, k) + EPSILON >= c.minimumGap
  }

  /** A count the adaptive policy may stop at. */
  predicate Admissible(p: seq<real>, support: real, c: Config, floor: nat, k: nat) {
    0 < k <= |p| && InLadder(k) && k >= floor && Passes(p, support, c, k)
  }

  /** The first admissible count above `slot`, or the natural one. */
  function ChooseFrom(p: seq<real>, support: real, c: Config, floor: nat, slot: nat): (k: nat)
    requires slot <= |p|
    ensures Admissible(p, support, c, floor, k) || k == |p|
    ensures slot <= k <= |p|
    ensures forall j: nat :: slot < j < k ==> !Admissible(p, support, c, floor, j)
    decreases |p| - slot
  {
    if slot == |p| then |p|
    else if Admissible(p, support, c, floor, slot + 1) then slot + 1
    else ChooseFrom(p, support, c, floor, slot + 1)
  }

  function ChooseAdaptive(p: seq<real>, support: real, c: Config, floor: nat): nat {
    ChooseFrom(p, support, c, floor, 0)
  }

  /** The loop over the slots with its running sum. */
  method Choose(p: seq<real>, support: real, c: Config, floor: nat) returns (k: nat)
    ensures k == ChooseAdaptive(p, support, c, floor)
  {
    var cumulative := 0.0;
    for slot := 0 to |p|
      invariant cumulative == SumTo(p, slot)
      invariant ChooseFrom(p, support, c, floor, slot) == ChooseAdaptive(p, support, c, floor)
    {
      cumulative := cumulative + p[slot];
      var candidate := slot + 1;
      if InLadder(candidate) && candidate >= floor {
        var confidence := BoundaryConfidence(p, candidate);
        if && cumulative + EPSILON >= c.massTarget
           && candidate as real + EPSILON >= support
           && confidence + EPSILON >= c.minimumGap
        {
          return candidate;
        }
      }
    }
    return |p|;
  }

  /** The choice is the least admissible count, and the natural one exactly when nothing less is admissible. */
  lemma LeastAdmissible(p: seq<real>, support: real, c: Config, floor: nat, k: nat)
    requires 0 < k
    ensures ChooseAdaptive(p, support, c, floor) == k && k < |p|
      <==> && k < |p| && Admissible(p, support, c, floor, k)
           && forall j: nat :: j < k ==> !Admissible(p, support, c, floor, j)
  {
    var chosen := ChooseAdaptive(p, support, c, floor);
    if k < |p| && Admissible(p, support, c, floor, k) {
      assert chosen <= k;
    }
  }

  /** A stricter policy: a higher floor, mass target, or gap. */
  predicate Stricter(a: Config, b: Config) {
    a.massTarget <= b.massTarget && a.minimumGap <= b.minimumGap
  }

  /** Asking for more never chooses fewer experts. */
  lemma ChoiceIsMonotone(p: seq<real>, support: real, a: Config, b: Config, low: nat, high: nat)
    requires Stricter(a, b) && low <= high
    ensures ChooseAdaptive(p, support, a, low) <= ChooseAdaptive(p, support, b, high)
  {
    var loose, strict := ChooseAdaptive(p, support, a, low), ChooseAdaptive(p, support, b, high);
    if strict < loose {
      assert Admissible(p, support, b, high, strict);
      assert Admissible(p, support, a, low, strict);
    }
  }

  // ----- The decision -----

  predicate ValidPolicy(naturalK: nat, experts: nat, c: Config) {
    && 0 < naturalK <= experts
    && 0.0 < c.massTarget <= 1.0 && 0.0 <= c.minimumGap <= 1.0
    && (c.qualityFloorK != 0 ==>
          InLadder(c.qualityFloorK) && (c.mode.Natural? || c.qualityFloorK <= naturalK))
    && (c.mode.Fixed? ==> InLadder(c.fixedK) && c.fixedK <= naturalK)
    && (c.mode.Adaptive? ==> naturalK == 16)
  }

  function Adjusted(scores: seq<real>, bias: seq<real>): (a: seq<Score>)
    requires |scores| == |bias|
    ensures |a| == |scores| && forall i :: 0 <= i < |a| ==> a[i] == Fin(scores[i] + bias[i])
  {
    seq(|scores|, i requires 0 <= i < |scores| => Fin(scores[i] + bias[i]))
  }

  function At(v: seq<real>, ids: seq<nat>): (r: seq<real>)
    requires forall i :: 0 <= i < |ids| ==> ids[i] < |v|
    ensures |r| == |ids| && forall i :: 0 <= i < |ids| ==> r[i] == v[ids[i]]
  {
    seq(|ids|, i requires 0 <= i < |ids| => v[ids[i]])
  }

  /** The experts of rank below k, best first. */
  function Order(scores: seq<real>, bias: seq<real>, k: nat): (ids: seq<nat>)
    requires |scores| == |bias| && k <= |scores|
    ensures |ids| == k && forall i :: 0 <= i < k ==> ids[i] < |scores|
  {
    var ids := TopIndices(Adjusted(scores, bias), k);
    assert forall i :: 0 <= i < k ==> ids[i] in ids;
    ids
  }

  /** The policy's count without the quality floor. */
  function Unfloored(p: seq<real>, support: real, c: Config): nat {
    match c.mode
    case Natural => |p|
    case Fixed => c.fixedK
    case Adaptive => ChooseAdaptive(p, support, c, 0)
  }

  function Selected(p: seq<real>, support: real, c: Config): nat {
    match c.mode
    case Natural => |p|
    case Fixed => if c.fixedK < c.qualityFloorK then c.qualityFloorK else c.fixedK
    case Adaptive => ChooseAdaptive(p, support, c, c.qualityFloorK)
  }

  /** Every count a valid policy selects is among the natural ones. */
  lemma SelectedInRange(p: seq<real>, support: real, c: Config, experts: nat)
    requires ValidPolicy(|p|, experts, c)
    ensures 0 < Selected(p, support, c) <= |p| && Unfloored(p, support, c) <= Selected(p, support, c)
  {
    if c.mode.Adaptive? {
      ChoiceIsMonotone(p, support, c, c, 0, c.qualityFloorK);
    }
  }

  function Probabilities(scores: seq<real>, bias: seq<real>, k: nat): (p: Option<seq<real>>)
    requires |scores| == |bias| && k <= |scores|
    ensures p.Some? ==> |p.value| == k
  {
    var natural := At(scores, Order(scores, bias, k));
    if Sum(natural) <= 0.0 then None else Some(Divide(natural, Sum(natural)))
  }

  function SelectRouting(scores: seq<real>, bias: seq<real>, naturalK: nat, c: Config, support: seq<real> -> real)
    : (r: Result<Decision>)
  {
    if |scores| != |bias| || |scores| == 0 || !(0 < naturalK <= |scores|) then Failure("invalid routing dimensions")
    else if exists i :: 0 <= i < |scores| && !(0.0 <= scores[i] <= 1.0) then Failure("invalid routing score")
    else if !ValidPolicy(naturalK, |scores|, c) then Failure("invalid routing policy")
    else
      var probabilities := Probabilities(scores, bias, naturalK);
      if probabilities.None? then Failure("zero natural routing mass")
      else
        var p := probabilities.value;
        var k := Selected(p, support(p), c);
        SelectedInRange(p, support(p), c, |scores|);
        var ids := Order(scores, bias, |scores|)[..k];
        var chosen := At(scores, ids);
        if Sum(chosen) <= 0.0 then Failure("zero selected routing mass")
        else
          Success(Decision(
            Order(scores, bias, |scores|), ids, Divide(chosen, Sum(chosen)), k, SumTo(p, k),
            BoundaryConfidence(p, k), k > Unfloored(p, support(p), c)))
  }

  lemma {:induction false} OrderPrefix(scores: seq<real>, bias: seq<real>, k: nat, n: nat)
    requires |scores| == |bias| && k <= n <= |scores|
    ensures Order(scores, bias, n)[..k] == Order(scores, bias, k)
  {
    if k < n {
      OrderPrefix(scores, bias, k, n - 1);
      assert Order(scores, bias, n)[..n - 1] == Order(scores, bias, n - 1);
    }
  }

  /**
   The chosen experts are those of rank below the count in the stable order of the biased scores, best first,
   and their weights sum to one.
   */
  lemma DecisionIsPrefix(scores: seq<real>, bias: seq<real>, naturalK: nat, c: Config, support: seq<real> -> real)
    requires SelectRouting(scores, bias, naturalK, c, support).Success?
    ensures var d := SelectRouting(scores, bias, naturalK, c, support).value; var a := Adjusted(scores, bias);
      && |d.expertIds| == d.selectedK <= naturalK && d.expertIds == d.fullOrder[..d.selectedK]
      && (forall j: nat :: j < |scores| ==> (j in d.expertIds <==> Rank(a, j) < d.selectedK))
      && (forall i, j :: 0 <= i < j < |d.expertIds| ==>
            d.expertIds[j] < |a| && d.expertIds[i] < |a| && Beats(a, d.expertIds[i], d.expertIds[j]))
      && Sum(d.weights) == 1.0
  {
    var d := SelectRouting(scores, bias, naturalK, c, support).value;
    var a := Adjusted(scores, bias);
    OrderPrefix(scores, bias, d.selectedK, |scores|);
    forall j: nat | j < |scores|
      ensures j in d.expertIds <==> Rank(a, j) < d.selectedK
    {
      SelectedByRank(a, d.selectedK, d.expertIds, j);
    }
    forall i, j | 0 <= i < j < |d.expertIds|
      ensures Beats(a, d.expertIds[i], d.expertIds[j])
    {
      OrderPrefix(scores, bias, j, d.selectedK);
      BestFirst(a, d.expertIds, i, j);
    }
    SumOfDivided(At(scores, d.expertIds), Sum(At(scores, d.expertIds)));
  }

  lemma DividedBack(v: seq<real>, d: real, i: nat)
    requires d > 0.0 && i < |v|
    ensures Divide(v, d)[i] * d == v[i]
  {
  }

  lemma ChosenScores(scores: seq<real>, bias: seq<real>, naturalK: nat, c: Config, support: seq<real> -> real,
                     d: Decision)
    requires SelectRouting(scores, bias, naturalK, c, support) == Success(d)
    ensures forall j :: 0 <= j < |d.expertIds| ==> d.expertIds[j] < |scores|
    ensures var chosen := At(scores, d.expertIds); Sum(chosen) > 0.0 && d.weights == Divide(chosen, Sum(chosen))
  {
  }

  lemma SharesOf(scores: seq<real>, d: Decision, i: nat)
    requires i < |d.expertIds| && forall j :: 0 <= j < |d.expertIds| ==> d.expertIds[j] < |scores|
    requires var chosen := At(scores, d.expertIds); Sum(chosen) > 0.0 && d.weights == Divide(chosen, Sum(chosen))
    ensures |d.weights| == |d.expertIds| && d.weights[i] * Sum(At(scores, d.expertIds)) == scores[d.expertIds[i]]
  {
    var chosen := At(scores, d.expertIds);
    DividedBack(chosen, Sum(chosen), i);
  }

  /** The weights are the unbiased scores of the chosen experts, all divided by their sum. */
  lemma WeightsAreShares(scores: seq<real>, bias: seq<real>, naturalK: nat, c: Config, support: seq<real> -> real,
                         d: Decision, i: nat)
    requires SelectRouting(scores, bias, naturalK, c, support) == Success(d) && i < |d.expertIds|
    ensures |d.weights| == |d.expertIds| && (forall j :: 0 <= j < |d.expertIds| ==> d.expertIds[j] < |scores|)
    ensures d.weights[i] * Sum(At(scores, d.expertIds)) == scores[d.expertIds[i]]
  {
    ChosenScores(scores, bias, naturalK, c, support, d);
    SharesOf(scores, d, i);
  }

  lemma BestFirst(a: seq<Score>, ids: seq<nat>, i: nat, j: nat)
    requires i < j < |ids| && IsTopK(a, j, ids[..j]) && IsTopK(a, |ids|, ids)
    ensures ids[j] < |a| && ids[i] < |a| && Beats(a, ids[i], ids[j])
  {
    assert ids[j] in ids && ids[..j][i] in ids[..j];
    assert ids[j] !in ids[..j];
  }

  /** The quality floor raises the count exactly when it is above what the policy alone would choose. */
  lemma EscalatedExactly(scores: seq<real>, bias: seq<real>, naturalK: nat, c: Config, support: seq<real> -> real)
    requires SelectRouting(scores, bias, naturalK, c, support).Success?
    ensures var d := SelectRouting(scores, bias, naturalK, c, support).value;
      var p := Probabilities(scores, bias, naturalK).value;
      d.escalated <==> !c.mode.Natural? && c.qualityFloorK > Unfloored(p, support(p), c)
  {
    var p := Probabilities(scores, bias, naturalK).value;
    if c.mode.Adaptive? {
      var s, floor, free := support(p), c.qualityFloorK, ChooseAdaptive(p, support(p), c, 0);
      ChoiceIsMonotone(p, s, c, c, 0, floor);
      if floor <= free && free < |p| {
        assert Admissible(p, s, c, floor, free);
      }
    }
  }

  lemma {:induction false} SumOfPrefix(v: seq<real>, n: nat, k: nat)
    requires k <= n <= |v|
    ensures SumTo(v[..n], k) == SumTo(v, k)
  {
    if k > 0 {
      SumOfPrefix(v, n, k - 1);
    }
  }

  /** The unnormalised mass of the first k experts is their probability mass times the natural mass. */
  lemma PrefixMass(scores: seq<real>, ids: seq<nat>, k: nat, total: real)
    requires k <= |ids| && total > 0.0 && forall i :: 0 <= i < |ids| ==> ids[i] < |scores|
    ensures Sum(At(scores, ids[..k])) == SumTo(Divide(At(scores, ids), total), k) * total
  {
    var all := At(scores, ids);
    assert At(scores, ids[..k]) == all[..k];
    SumOfPrefix(all, k, k);
    DividedSum(all, total, k);
  }

  lemma SamePrefix(scores: seq<real>, bias: seq<real>, k: nat, n: nat)
    requires |scores| == |bias| && k <= n <= |scores|
    ensures Order(scores, bias, |scores|)[..k] == Order(scores, bias, n)[..k]
  {
    OrderPrefix(scores, bias, k, |scores|);
    OrderPrefix(scores, bias, k, n);
  }

  /** Everything before the selected mass is looked at is in order. */
  predicate Admitted(scores: seq<real>, bias: seq<real>, naturalK: nat, c: Config) {
    && |scores| == |bias| && 0 < naturalK <= |scores|
    && (forall i :: 0 <= i < |scores| ==> 0.0 <= scores[i] <= 1.0)
    && ValidPolicy(naturalK, |scores|, c) && Probabilities(scores, bias, naturalK).Some?
  }

  lemma SelectedMass(scores: seq<real>, bias: seq<real>, naturalK: nat, k: nat)
    requires |scores| == |bias| && k <= naturalK <= |scores| && Probabilities(scores, bias, naturalK).Some?
    ensures Sum(At(scores, Order(scores, bias, |scores|)[..k])) <= 0.0
       <==> SumTo(Probabilities(scores, bias, naturalK).value, k) <= 0.0
  {
    var ids := Order(scores, bias, naturalK);
    SamePrefix(scores, bias, k, naturalK);
    SignKept(scores, ids, k, Sum(At(scores, ids)));
  }

  /** Selection fails for lack of mass exactly when the selected probabilities sum to nothing. */
  lemma ZeroMassExactly(scores: seq<real>, bias: seq<real>, naturalK: nat, c: Config, support: seq<real> -> real)
    ensures SelectRouting(scores, bias, naturalK, c, support) == Failure("zero selected routing mass")
      <==> && Admitted(scores, bias, naturalK, c)
           && var p := Probabilities(scores, bias, naturalK).value;
              Selected(p, support(p), c) <= |p| && SumTo(p, Selected(p, support(p), c)) <= 0.0
  {
    if Admitted(scores, bias, naturalK, c) {
      var p := Probabilities(scores, bias, naturalK).value;
      SelectedInRange(p, support(p), c, |scores|);
      SelectedMass(scores, bias, naturalK, Selected(p, support(p), c));
    }
  }

  // ----- When an adaptive policy can run out of mass -----

  lemma {:induction false} NothingSoFar(p: seq<real>, k: nat)
    requires 0 < k <= |p| && (forall i :: 0 <= i < k ==> p[i] >= 0.0) && SumTo(p, k) <= 0.0
    ensures p[k - 1] == 0.0 && SumTo(p, k) == 0.0
  {
    if k > 1 {
      SumGrows(p, 0, k - 1);
    }
  }

  lemma {:induction false} SumGrows(p: seq<real>, low: nat, high: nat)
    requires low <= high <= |p| && forall i :: 0 <= i < high ==> p[i] >= 0.0
    ensures SumTo(p, low) <= SumTo(p, high)
  {
    if low < high {
      SumGrows(p, low, high - 1);
    }
  }

  /** The thresholds and the floor under which a choice without mass passes every test. */
  predicate AllowsNoMass(c: Config) {
    c.massTarget <= EPSILON && c.minimumGap <= EPSILON && c.qualityFloorK < 16
  }

  lemma NoConfidence(p: seq<real>, k: nat)
    requires 0 < k < |p| && p[k - 1] == 0.0 && p[k] >= 0.0
    ensures BoundaryConfidence(p, k) == 0.0
  {
  }

  lemma NoMassIsAllowed(p: seq<real>, support: real, c: Config)
    requires |p| == 16 && Sum(p) == 1.0 && forall i :: 0 <= i < |p| ==> p[i] >= 0.0
    requires var k := ChooseAdaptive(p, support, c, c.qualityFloorK); 0 < k <= |p| && SumTo(p, k) <= 0.0
    ensures AllowsNoMass(c)
  {
    var k := ChooseAdaptive(p, support, c, c.qualityFloorK);
    NothingSoFar(p, k);
    NoConfidence(p, k);
  }

  /** Everything at the sixteenth. */
  function LastOnly(n: nat): (p: seq<real>)
    ensures |p| == n && forall i :: 0 <= i < n ==> p[i] == if i == 15 then 1.0 else 0.0
  {
    seq(n, i => if i == 15 then 1.0 else 0.0)
  }

  lemma {:induction false} NothingBefore(n: nat, k: nat)
    requires k <= n && k <= 15
    ensures SumTo(LastOnly(n), k) == 0.0
  {
    if k > 0 {
      NothingBefore(n, k - 1);
    }
  }

  lemma LastOnlySum()
    ensures Sum(LastOnly(16)) == 1.0
  {
    NothingBefore(16, 15);
  }

  lemma NoMassIsChosen(support: real, c: Config)
    requires AllowsNoMass(c) && support <= 4.0
    requires c.qualityFloorK != 0 ==> InLadder(c.qualityFloorK)
    ensures var k := ChooseAdaptive(LastOnly(16), support, c, c.qualityFloorK);
      0 < k < 16 && SumTo(LastOnly(16), k) == 0.0
  {
    var p, k := LastOnly(16), ChooseAdaptive(LastOnly(16), support, c, c.qualityFloorK);
    var least := if c.qualityFloorK == 0 then 4 else c.qualityFloorK;
    NothingBefore(16, least);
    NoConfidence(p, least);
    assert Admissible(p, support, c, c.qualityFloorK, least);
    assert k <= least && (k == 0 ==> false);
    NothingBefore(16, k);
  }

  /** Biases that put the experts in the order of their numbers. */
  function Descending(scores: seq<real>): (bias: seq<real>)
    ensures |bias| == |scores| && forall i :: 0 <= i < |bias| ==> scores[i] + bias[i] == -(i as real)
  {
    seq(|scores|, i requires 0 <= i < |scores| => -(i as real) - scores[i])
  }

  function FirstNumbers(k: nat): (ids: seq<nat>)
    ensures |ids| == k && forall i :: 0 <= i < k ==> ids[i] == i
  {
    seq(k, i => i)
  }

  lemma AmongFirst(k: nat, j: nat)
    ensures j in FirstNumbers(k) <==> j < k
  {
    if j < k {
      assert FirstNumbers(k)[j] == j;
    }
  }

  /** The next one is ahead of all that are left. */
  lemma NextIsBest(a: seq<Score>, k: nat, best: nat)
    requires k < |a| && forall i :: 0 <= i < |a| ==> a[i] == Fin(-(i as real))
    requires best < |a| && best !in FirstNumbers(k)
    requires forall j: nat :: j < |a| && j !in FirstNumbers(k) && j != best ==> Beats(a, best, j)
    ensures best == k
  {
    AmongFirst(k, best);
    AmongFirst(k, k);
  }

  lemma {:induction false} InOrder(a: seq<Score>, k: nat)
    requires k <= |a| && forall i :: 0 <= i < |a| ==> a[i] == Fin(-(i as real))
    ensures TopIndices(a, k) == FirstNumbers(k)
  {
    if k > 0 {
      InOrder(a, k - 1);
      SomeLeft(FirstNumbers(k - 1), |a|);
      NextIsBest(a, k - 1, Best(a, FirstNumbers(k - 1), |a|));
      assert FirstNumbers(k) == FirstNumbers(k - 1) + [k - 1];
    }
  }

  ghost predicate RunsOut(scores: seq<real>, bias: seq<real>, naturalK: nat, c: Config, support: seq<real> -> real) {
    SelectRouting(scores, bias, naturalK, c, support) == Failure("zero selected routing mass")
  }

  lemma OutNeedsNoMass(scores: seq<real>, bias: seq<real>, naturalK: nat, c: Config, support: seq<real> -> real)
    requires c.mode.Adaptive? && RunsOut(scores, bias, naturalK, c, support)
    ensures AllowsNoMass(c)
  {
    ZeroMassExactly(scores, bias, naturalK, c, support);
    var natural := At(scores, Order(scores, bias, naturalK));
    var p := Probabilities(scores, bias, naturalK).value;
    SumOfDivided(natural, Sum(natural));
    SelectedInRange(p, support(p), c, |scores|);
    NoMassIsAllowed(p, support(p), c);
  }

  lemma SharesOfLast(experts: nat)
    requires experts >= 16
    ensures var scores := LastOnly(experts); Probabilities(scores, Descending(scores), 16) == Some(LastOnly(16))
  {
    var scores, bias := LastOnly(experts), Descending(LastOnly(experts));
    InOrder(Adjusted(scores, bias), 16);
    assert At(scores, Order(scores, bias, 16)) == LastOnly(16);
    LastOnlySum();
    assert Divide(LastOnly(16), 1.0) == LastOnly(16);
  }

  lemma LastOnlyRunsOut(experts: nat, c: Config, support: seq<real> -> real)
    requires c.mode.Adaptive? && ValidPolicy(16, experts, c) && AllowsNoMass(c)
    requires support(LastOnly(16)) == 1.0
    ensures RunsOut(LastOnly(experts), Descending(LastOnly(experts)), 16, c, support)
  {
    var scores, bias := LastOnly(experts), Descending(LastOnly(experts));
    SharesOfLast(experts);
    NoMassIsChosen(1.0, c);
    ZeroMassExactly(scores, bias, 16, c, support);
  }

  /**
   Some scores and biases of so many experts make an adaptive policy fail for lack of mass exactly when
   both thresholds are within the tolerance and the floor is below the natural count.
   */
  lemma AdaptiveMassExactly(experts: nat, c: Config, support: seq<real> -> real)
    requires c.mode.Adaptive? && ValidPolicy(16, experts, c)
    requires support(LastOnly(16)) == 1.0
    ensures (exists scores, bias :: |scores| == experts && RunsOut(scores, bias, 16, c, support)) <==> AllowsNoMass(c)
  {
    if AllowsNoMass(c) {
      LastOnlyRunsOut(experts, c, support);
    } else {
      forall scores: seq<real>, bias: seq<real> | RunsOut(scores, bias, 16, c, support)
        ensures false
      {
        OutNeedsNoMass(scores, bias, 16, c, support);
      }
    }
  }

  lemma SignKept(scores: seq<real>, ids: seq<nat>, k: nat, total: real)
    requires k <= |ids| && total > 0.0 && forall i :: 0 <= i < |ids| ==> ids[i] < |scores|
    ensures Sum(At(scores, ids[..k])) <= 0.0 <==> SumTo(Divide(At(scores, ids), total), k) <= 0.0
  {
    PrefixMass(scores, ids, k, total);
    ProductSign(SumTo(Divide(At(scores, ids), total), k), total);
  }

  lemma ProductSign(x: real, y: real)
    requires y > 0.0
    ensures x * y <= 0.0 <==> x <= 0.0
  {
  }
}
