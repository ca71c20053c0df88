/**
 The routed experts of one layer, for one output component over exact reals: expert by expert, or all
 experts in one zero-padded batch. Either way each token gets a weighted sum over its own slots; the two
 sums are the same exactly when the batched product computes what the experts' own networks do.
 */
module ExpertMajor {
  import opened Reals

  /**
   The experts of a layer: `mlp(e, x)` is the output of expert `e` for the row `x` through its own network,
   `stacked(e, x)` the output of the batched product over its stored weights, which reads no scales. `packed`
   experts hold 4-bit weights; `shape` is the type and shape of the stored weights; `zero` the padding row.
   */
  datatype Experts<!X> = Experts(mlp: (nat, X) -> real, stacked: (nat, X) -> real, packed: nat -> bool,
                                 shape: nat -> int, shared: X -> real, zero: X)

  /** The layer as the batched product sees it. */
  function Batched<X>(m: Experts<X>): Experts<X> {
    m.(mlp := m.stacked)
  }

  /** The router's choice: for every token `topK` slots, each an expert and its weight. */
  datatype Routing = Routing(topK: nat, indices: seq<seq<nat>>, weights: seq<seq<real>>)

  /** Different experts in every row, as a top-k call leaves them. */
  predicate RoutingOk(r: Routing, n: nat) {
    && |r.indices| == |r.weights| == n
    && (forall t :: 0 <= t < n ==> |r.indices[t]| == r.topK && Different(r.indices[t]))
    && (forall t :: 0 <= t < n ==> |r.weights[t]| == r.topK)
  }

  predicate Different(row: seq<nat>) {
    forall i, j :: 0 <= i < j < |row| ==> row[i] != row[j]
  }

  // ----- The reference -----

  /** What slot `s` of token `t` contributes. */
  function Slot<X>(m: Experts<X>, r: Routing, flat: seq<X>, t: nat, s: nat): real
    requires RoutingOk(r, |flat|) && t < |flat| && s < r.topK
  {
    r.weights[t][s] * m.mlp(r.indices[t][s], flat[t])
  }

  /** The slots of a token whose expert is among `experts`, the first `p` of them. */
  function Among<X>(m: Experts<X>, r: Routing, flat: seq<X>, t: nat, p: nat, experts: seq<nat>): real
    requires RoutingOk(r, |flat|) && t < |flat| && p <= r.topK
  {
    if p == 0 then 0.0
    else Among(m, r, flat, t, p - 1, experts) + if r.indices[t][p - 1] in experts then Slot(m, r, flat, t, p - 1) else 0.0
  }

  /** The routed output of a token: all its slots up to `p`. */
  function Routed<X>(m: Experts<X>, r: Routing, flat: seq<X>, t: nat, p: nat): real
    requires RoutingOk(r, |flat|) && t < |flat| && p <= r.topK
  {
    if p == 0 then 0.0 else Routed(m, r, flat, t, p - 1) + Slot(m, r, flat, t, p - 1)
  }

  lemma {:induction false} AllExpertsCover<X>(m: Experts<X>, r: Routing, flat: seq<X>, t: nat, p: nat, experts: seq<nat>)
    requires RoutingOk(r, |flat|) && t < |flat| && p <= r.topK
    requires forall s :: 0 <= s < p ==> r.indices[t][s] in experts
    ensures Among(m, r, flat, t, p, experts) == Routed(m, r, flat, t, p)
  {
    if p > 0 {
      AllExpertsCover(m, r, flat, t, p - 1, experts);
    }
  }

  /** One more expert adds exactly its own slots. */
  lemma {:induction false} OneMoreExpert<X>(m: Experts<X>, r: Routing, flat: seq<X>, t: nat, p: nat,
                                            experts: seq<nat>, e: nat)
    requires RoutingOk(r, |flat|) && t < |flat| && p <= r.topK && e !in experts
    ensures Among(m, r, flat, t, p, experts + [e])
         == Among(m, r, flat, t, p, experts) + Among(m, r, flat, t, p, [e])
  {
    if p > 0 {
      OneMoreExpert(m, r, flat, t, p - 1, experts, e);
    }
  }

  lemma {:induction false} NoExperts<X>(m: Experts<X>, r: Routing, flat: seq<X>, t: nat, p: nat)
    requires RoutingOk(r, |flat|) && t < |flat| && p <= r.topK
    ensures Among(m, r, flat, t, p, []) == 0.0
  {
    if p > 0 {
      NoExperts(m, r, flat, t, p - 1);
    }
  }

  // ----- Assignments -----

  /** The pairs (token, slot) of one token that go to expert `e`. */
  function RowPairs(r: Routing, t: nat, p: nat, e: nat): (pairs: seq<(nat, nat)>)
    requires t < |r.indices| && p <= |r.indices[t]|
    ensures forall i :: 0 <= i < |pairs| ==> pairs[i].0 == t && pairs[i].1 < p && r.indices[t][pairs[i].1] == e
  {
    if p == 0 then []
    else RowPairs(r, t, p - 1, e) + if r.indices[t][p - 1] == e then [(t, p - 1)] else []
  }

  /** All of them, row by row: `torch.where` on the slots that hold `e`. */
  function Pairs(r: Routing, n: nat, p: nat, e: nat): (pairs: seq<(nat, nat)>)
    requires RoutingOk(r, |r.indices|) && n <= |r.indices| && p <= r.topK
    ensures forall i :: 0 <= i < |pairs| ==>
      pairs[i].0 < n && pairs[i].1 < p && r.indices[pairs[i].0][pairs[i].1] == e
  {
    if n == 0 then [] else Pairs(r, n - 1, p, e) + RowPairs(r, n - 1, p, e)
  }

  /** What the pairs of one list add to token `t`. */
  function PairSum<X>(m: Experts<X>, r: Routing, flat: seq<X>, pairs: seq<(nat, nat)>, t: nat): real
    requires RoutingOk(r, |flat|) && t < |flat|
    requires forall i :: 0 <= i < |pairs| ==> pairs[i].0 < |flat| && pairs[i].1 < r.topK
  {
    if pairs == [] then 0.0
    else
      var (t', s) := pairs[|pairs| - 1];
      PairSum(m, r, flat, pairs[..|pairs| - 1], t) + if t' == t then Slot(m, r, flat, t, s) else 0.0
  }

  lemma {:induction false} PairSumJoins<X>(m: Experts<X>, r: Routing, flat: seq<X>, a: seq<(nat, nat)>,
                                           b: seq<(nat, nat)>, t: nat)
    requires RoutingOk(r, |flat|) && t < |flat|
    requires forall i :: 0 <= i < |a| ==> a[i].0 < |flat| && a[i].1 < r.topK
    requires forall i :: 0 <= i < |b| ==> b[i].0 < |flat| && b[i].1 < r.topK
    ensures PairSum(m, r, flat, a + b, t) == PairSum(m, r, flat, a, t) + PairSum(m, r, flat, b, t)
  {
    if b == [] {
      assert a + b == a;
    } else {
      var all := a + b;
      assert all[..|all| - 1] == a + b[..|b| - 1];
      PairSumJoins(m, r, flat, a, b[..|b| - 1], t);
    }
  }

  lemma PairSumSnoc<X>(m: Experts<X>, r: Routing, flat: seq<X>, front: seq<(nat, nat)>, last: (nat, nat),
                       pairs: seq<(nat, nat)>, t: nat)
    requires RoutingOk(r, |flat|) && t < |flat| && pairs == front + [last]
    requires forall i :: 0 <= i < |pairs| ==> pairs[i].0 < |flat| && pairs[i].1 < r.topK
    ensures forall i :: 0 <= i < |front| ==> front[i].0 < |flat| && front[i].1 < r.topK
    ensures last.0 < |flat| && last.1 < r.topK
    ensures PairSum(m, r, flat, pairs, t) ==
            PairSum(m, r, flat, front, t) + if last.0 == t then Slot(m, r, flat, t, last.1) else 0.0
  {
    assert pairs[..|pairs| - 1] == front && pairs[|pairs| - 1] == last;
    forall i | 0 <= i < |front|
      ensures front[i].0 < |flat| && front[i].1 < r.topK
    {
      assert front[i] == pairs[i];
    }
  }

  lemma NextPair<X>(m: Experts<X>, r: Routing, flat: seq<X>, row: nat, p: nat, e: nat, t: nat)
    requires RoutingOk(r, |flat|) && t < |flat| && row < |flat| && 0 < p <= r.topK
    ensures PairSum(m, r, flat, RowPairs(r, row, p, e), t) == PairSum(m, r, flat, RowPairs(r, row, p - 1, e), t)
      + if row == t && r.indices[row][p - 1] == e then Slot(m, r, flat, t, p - 1) else 0.0
  {
    var pairs, front := RowPairs(r, row, p, e), RowPairs(r, row, p - 1, e);
    if r.indices[row][p - 1] == e {
      PairSumSnoc(m, r, flat, front, (row, p - 1), pairs, t);
    } else {
      assert pairs == front;
    }
  }

  lemma {:induction false} RowPairSum<X>(m: Experts<X>, r: Routing, flat: seq<X>, row: nat, p: nat, e: nat, t: nat)
    requires RoutingOk(r, |flat|) && t < |flat| && row < |flat| && p <= r.topK
    ensures PairSum(m, r, flat, RowPairs(r, row, p, e), t) ==
            if row == t then Among(m, r, flat, t, p, [e]) else 0.0
  {
    if p > 0 {
      RowPairSum(m, r, flat, row, p - 1, e, t);
      NextPair(m, r, flat, row, p, e, t);
    }
  }

  /** The assignments of an expert add to each token just that expert's slots. */
  lemma {:induction false} PairsSum<X>(m: Experts<X>, r: Routing, flat: seq<X>, n: nat, p: nat, e: nat, t: nat)
    requires RoutingOk(r, |flat|) && t < |flat| && n <= |flat| && p <= r.topK
    ensures PairSum(m, r, flat, Pairs(r, n, p, e), t) == if t < n then Among(m, r, flat, t, p, [e]) else 0.0
  {
    if n > 0 {
      PairsSum(m, r, flat, n - 1, p, e, t);
      RowPairSum(m, r, flat, n - 1, p, e, t);
      PairSumJoins(m, r, flat, Pairs(r, n - 1, p, e), RowPairs(r, n - 1, p, e), t);
    }
  }

  // ----- The experts that are needed -----

  function InsertId(ids: seq<nat>, x: nat): (r: seq<nat>)
    requires Ascending(ids)
    ensures Ascending(r) && forall y :: y in r <==> y in ids || y == x
  {
    if ids == [] || x < ids[0] then [x] + ids
    else if x == ids[0] then ids
    else
      var rest := InsertId(ids[1..], x);
      assert forall i :: 0 <= i < |rest| ==> rest[i] in rest;
      [ids[0]] + rest
  }

  predicate Ascending(ids: seq<nat>) {
    forall i, j :: 0 <= i < j < |ids| ==> ids[i] < ids[j]
  }

  function RowIds(ids: seq<nat>, row: seq<nat>, p: nat): (r: seq<nat>)
    requires Ascending(ids) && p <= |row|
    ensures Ascending(r) && forall y :: y in r <==> y in ids || exists s :: 0 <= s < p && row[s] == y
  {
    if p == 0 then ids else InsertId(RowIds(ids, row, p - 1), row[p - 1])
  }

  /** The distinct experts of the first `p` slots, ascending. */
  function ExpertIds(r: Routing, n: nat, p: nat): (ids: seq<nat>)
    requires RoutingOk(r, |r.indices|) && n <= |r.indices| && p <= r.topK
    ensures Ascending(ids)
    ensures forall t, s :: 0 <= t < n && 0 <= s < p ==> r.indices[t][s] in ids
  {
    if n == 0 then [] else RowIds(ExpertIds(r, n - 1, p), r.indices[n - 1], p)
  }

  // ----- The two execution modes -----

  /** `output.index_add_`: the weighted rows of one expert, in the order of its assignments. */
  method IndexAdd<X>(m: Experts<X>, r: Routing, flat: seq<X>, pairs: seq<(nat, nat)>, routed: seq<real>,
                     weights: seq<seq<real>>, output: array<real>)
    requires RoutingOk(r, |flat|) && output.Length == |flat| && |routed| == |pairs| && |weights| == |flat|
    requires forall i :: 0 <= i < |pairs| ==>
      && pairs[i].0 < |flat| && pairs[i].1 < |weights[pairs[i].0]| && pairs[i].1 < r.topK
      && weights[pairs[i].0][pairs[i].1] * routed[i] == Slot(m, r, flat, pairs[i].0, pairs[i].1)
    modifies output
    ensures forall t :: 0 <= t < |flat| ==> output[t] == old(output[t]) + PairSum(m, r, flat, pairs, t)
  {
    for i := 0 to |pairs|
      invariant forall t :: 0 <= t < |flat| ==> output[t] == old(output[t]) + PairSum(m, r, flat, pairs[..i], t)
    {
      assert pairs[..i + 1][..i] == pairs[..i];
      var (t, s) := pairs[i];
      output[t] := output[t] + weights[t][s] * routed[i];
    }
    assert pairs[..|pairs|] == pairs;
  }

  function FirstSlots(weights: seq<seq<real>>, p: nat): (r: seq<seq<real>>)
    requires forall t :: 0 <= t < |weights| ==> p <= |weights[t]|
    ensures |r| == |weights| && forall t :: 0 <= t < |weights| ==> r[t] == weights[t][..p]
  {
    seq(|weights|, t requires 0 <= t < |weights| => weights[t][..p])
  }

  /** The rows of one expert through its network. */
  function RoutedRows<X>(m: Experts<X>, flat: seq<X>, e: nat, pairs: seq<(nat, nat)>): (rows: seq<real>)
    requires forall i :: 0 <= i < |pairs| ==> pairs[i].0 < |flat|
    ensures |rows| == |pairs| && forall i :: 0 <= i < |pairs| ==> rows[i] == m.mlp(e, flat[pairs[i].0])
  {
    seq(|pairs|, i requires 0 <= i < |pairs| => m.mlp(e, flat[pairs[i].0]))
  }

  /** Every token has the contributions of the first `g` experts. */
  ghost predicate AddedUpTo<X>(m: Experts<X>, r: Routing, flat: seq<X>, p: nat, ids: seq<nat>, g: nat,
                               before: seq<real>, after: seq<real>)
    requires RoutingOk(r, |flat|) && p <= r.topK && g <= |ids|
  {
    && |before| == |after| == |flat|
    && forall t :: 0 <= t < |flat| ==> after[t] == before[t] + Among(m, r, flat, t, p, ids[..g])
  }

  lemma NothingAdded<X>(m: Experts<X>, r: Routing, flat: seq<X>, p: nat, ids: seq<nat>, before: seq<real>)
    requires RoutingOk(r, |flat|) && p <= r.topK && |before| == |flat|
    ensures AddedUpTo(m, r, flat, p, ids, 0, before, before)
  {
    forall t | 0 <= t < |flat|
      ensures Among(m, r, flat, t, p, ids[..0]) == 0.0
    {
      NoExperts(m, r, flat, t, p);
    }
  }

  /** Adding the assignments of the next expert. */
  lemma NextAdded<X>(m: Experts<X>, r: Routing, flat: seq<X>, p: nat, ids: seq<nat>, g: nat, before: seq<real>,
                     middle: seq<real>, after: seq<real>)
    requires RoutingOk(r, |flat|) && p <= r.topK && g < |ids| && Ascending(ids)
    requires AddedUpTo(m, r, flat, p, ids, g, before, middle) && |after| == |flat|
    requires forall t :: 0 <= t < |flat| ==>
      after[t] == middle[t] + PairSum(m, r, flat, Pairs(r, |flat|, p, ids[g]), t)
    ensures AddedUpTo(m, r, flat, p, ids, g + 1, before, after)
  {
    assert ids[..g + 1] == ids[..g] + [ids[g]];
    forall t | 0 <= t < |flat|
      ensures after[t] == before[t] + Among(m, r, flat, t, p, ids[..g + 1])
    {
      PairsSum(m, r, flat, |flat|, p, ids[g], t);
      OneMoreExpert(m, r, flat, t, p, ids[..g], ids[g]);
    }
  }

  lemma AllAdded<X>(m: Experts<X>, r: Routing, flat: seq<X>, p: nat, ids: seq<nat>, before: seq<real>, after: seq<real>)
    requires RoutingOk(r, |flat|) && p <= r.topK && ids == ExpertIds(r, |flat|, p)
    requires AddedUpTo(m, r, flat, p, ids, |ids|, before, after)
    ensures forall t :: 0 <= t < |flat| ==> after[t] == before[t] + Routed(m, r, flat, t, p)
  {
    assert ids[..|ids|] == ids;
    forall t | 0 <= t < |flat|
      ensures Among(m, r, flat, t, p, ids) == Routed(m, r, flat, t, p)
    {
      AllExpertsCover(m, r, flat, t, p, ids);
    }
  }

  /** The weighted rows of expert `g` into the output. */
  method Scatter<X>(m: Experts<X>, r: Routing, flat: seq<X>, p: nat, ids: seq<nat>, g: nat, weights: seq<seq<real>>,
                    pairs: seq<(nat, nat)>, routed: seq<real>, ghost before: seq<real>, ghost next: nat,
                    output: array<real>)
    requires RoutingOk(r, |flat|) && p <= r.topK && output.Length == |flat| && Ascending(ids)
    requires g < |ids| && next == g + 1 && pairs == Pairs(r, |flat|, p, ids[g])
    requires weights == r.weights || weights == FirstSlots(r.weights, p)
    requires routed == RoutedRows(m, flat, ids[g], pairs)
    requires AddedUpTo(m, r, flat, p, ids, g, before, output[..])
    modifies output
    ensures AddedUpTo(m, r, flat, p, ids, next, before, output[..])
  {
    ghost var middle := output[..];
    IndexAdd(m, r, flat, pairs, routed, weights, output);
    NextAdded(m, r, flat, p, ids, g, before, middle, output[..]);
  }

  /** Expert by expert: gather its tokens, run it, scatter the weighted rows. */
  method RunLoop<X>(m: Experts<X>, r: Routing, flat: seq<X>, p: nat, weights: seq<seq<real>>, output: array<real>)
    requires RoutingOk(r, |flat|) && p <= r.topK && output.Length == |flat|
    requires weights == r.weights || weights == FirstSlots(r.weights, p)
    modifies output
    ensures forall t :: 0 <= t < |flat| ==> output[t] == old(output[t]) + Routed(m, r, flat, t, p)
  {
    var ids := ExpertIds(r, |flat|, p);
    ghost var before := output[..];
    NothingAdded(m, r, flat, p, ids, before);
    for g := 0 to |ids|
      invariant AddedUpTo(m, r, flat, p, ids, g, before, output[..])
    {
      var pairs := Pairs(r, |flat|, p, ids[g]);
      Scatter(m, r, flat, p, ids, g, weights, pairs, RoutedRows(m, flat, ids[g], pairs), before, g + 1, output);
    }
    AllAdded(m, r, flat, p, ids, before, output[..]);
  }

  // ----- One batch -----

  function MaxCount(groups: seq<seq<(nat, nat)>>): (n: nat)
    ensures forall g :: 0 <= g < |groups| ==> |groups[g]| <= n
  {
    if groups == [] then 0
    else
      var before, last := MaxCount(groups[..|groups| - 1]), |groups[|groups| - 1]|;
      if before < last then last else before
  }

  /** The tokens of one expert, padded with zero rows. */
  function Padded<X>(m: Experts<X>, flat: seq<X>, pairs: seq<(nat, nat)>, size: nat): (rows: seq<X>)
    requires |pairs| <= size && forall i :: 0 <= i < |pairs| ==> pairs[i].0 < |flat|
    ensures |rows| == size
  {
    seq(size, i requires 0 <= i < size => if i < |pairs| then flat[pairs[i].0] else m.zero)
  }

  /** Row by row evaluation of one expert's share of the batch. */
  function BatchRows<X>(m: Experts<X>, e: nat, rows: seq<X>): (routed: seq<real>)
    ensures |routed| == |rows|
  {
    seq(|rows|, i requires 0 <= i < |rows| => m.stacked(e, rows[i]))
  }

  /** The padding rows fall away again. */
  lemma PaddingDropped<X>(m: Experts<X>, flat: seq<X>, e: nat, pairs: seq<(nat, nat)>, size: nat)
    requires |pairs| <= size && forall i :: 0 <= i < |pairs| ==> pairs[i].0 < |flat|
    ensures BatchRows(m, e, Padded(m, flat, pairs, size))[..|pairs|] == RoutedRows(Batched(m), flat, e, pairs)
  {
  }

  function Groups(r: Routing, n: nat, p: nat, ids: seq<nat>): (groups: seq<seq<(nat, nat)>>)
    requires RoutingOk(r, |r.indices|) && n <= |r.indices| && p <= r.topK
    ensures |groups| == |ids| && forall g :: 0 <= g < |ids| ==> groups[g] == Pairs(r, n, p, ids[g])
  {
    seq(|ids|, g requires 0 <= g < |ids| => Pairs(r, n, p, ids[g]))
  }

  /** All experts at once: each padded to the largest share, evaluated as one batch, scattered back. */
  method RunBatched<X>(m: Experts<X>, r: Routing, flat: seq<X>, p: nat, weights: seq<seq<real>>, output: array<real>)
    requires RoutingOk(r, |flat|) && p <= r.topK && output.Length == |flat|
    requires weights == FirstSlots(r.weights, p)
    modifies output
    ensures forall t :: 0 <= t < |flat| ==> output[t] == old(output[t]) + Routed(Batched(m), r, flat, t, p)
  {
    var ids := ExpertIds(r, |flat|, p);
    var groups := Groups(r, |flat|, p, ids);
    var size := MaxCount(groups);
    var batch := seq(|ids|, g requires 0 <= g < |ids| => Padded(m, flat, groups[g], size));
    var routed := seq(|ids|, g requires 0 <= g < |ids| => BatchRows(m, ids[g], batch[g]));
    ghost var before := output[..];
    NothingAdded(Batched(m), r, flat, p, ids, before);
    for g := 0 to |ids|
      invariant AddedUpTo(Batched(m), r, flat, p, ids, g, before, output[..])
    {
      ghost var next := g + 1;
      var rows := routed[g][..|groups[g]|];
      PaddingDropped(m, flat, ids[g], groups[g], size);
      Scatter(Batched(m), r, flat, p, ids, g, weights, groups[g], rows, before, next, output);
    }
    AllAdded(Batched(m), r, flat, p, ids, before, output[..]);
  }

  /** Whether the chosen experts are stacked: none holds packed weights, and all have one shape. */
  predicate Stacks<X>(m: Experts<X>, ids: seq<nat>) {
    && (forall g :: 0 <= g < |ids| ==> !m.packed(ids[g]))
    && (forall g :: 0 <= g < |ids| ==> m.shape(ids[g]) == m.shape(ids[0]))
  }

  /** The layer whose networks the expert-major form evaluates. */
  function Evaluated<X>(m: Experts<X>, r: Routing, n: nat, p: nat): Experts<X>
    requires RoutingOk(r, n) && p <= r.topK
  {
    if Stacks(m, ExpertIds(r, n, p)) then Batched(m) else m
  }

  /**
   One batch, unless the experts cannot be stacked: then the loop runs instead, over the first slots when
   some weights are packed, and over the full weights when the shapes differ.
   */
  method RunExpertMajor<X>(m: Experts<X>, r: Routing, flat: seq<X>, p: nat, output: array<real>)
    requires RoutingOk(r, |flat|) && p <= r.topK && output.Length == |flat|
    modifies output
    ensures forall t :: 0 <= t < |flat| ==>
      output[t] == old(output[t]) + Routed(Evaluated(m, r, |flat|, p), r, flat, t, p)
  {
    var ids := ExpertIds(r, |flat|, p);
    var weights := FirstSlots(r.weights, p);
    if exists g :: 0 <= g < |ids| && m.packed(ids[g]) {
      RunLoop(m, r, flat, p, weights, output);
    } else if !Stacks(m, ids) {
      RunLoop(m, r, flat, p, r.weights, output);
    } else {
      RunBatched(m, r, flat, p, weights, output);
    }
  }

  // ----- The whole layer -----

  /** The weight of the slots from `p` on. */
  function Dropped(r: Routing, t: nat, p: nat): real
    requires t < |r.weights| && p <= |r.weights[t]|
    decreases |r.weights[t]| - p
  {
    if p == |r.weights[t]| then 0.0 else r.weights[t][p] + Dropped(r, t, p + 1)
  }

  /** The layer's output for a token: routed slots plus the shared expert, scaled up under the proxy. */
  function Output<X>(m: Experts<X>, r: Routing, flat: seq<X>, t: nat, p: nat, proxy: bool): real
    requires RoutingOk(r, |flat|) && t < |flat| && p <= r.topK
  {
    Routed(m, r, flat, t, p) +
    if proxy && p < r.topK then m.shared(flat[t]) * (1.0 + Dropped(r, t, p)) else m.shared(flat[t])
  }

  /** What a mode gives a token. */
  function ModeOutput<X>(m: Experts<X>, r: Routing, flat: seq<X>, t: nat, p: nat, proxy: bool, expertMajor: bool): real
    requires RoutingOk(r, |flat|) && t < |flat| && p <= r.topK
  {
    Output(if expertMajor then Evaluated(m, r, |flat|, p) else m, r, flat, t, p, proxy)
  }

  /** The shared expert, added to the routed sums. */
  method AddShared<X>(m: Experts<X>, ghost seen: Experts<X>, r: Routing, flat: seq<X>, p: nat, proxy: bool,
                      output: array<real>)
    requires RoutingOk(r, |flat|) && p <= r.topK && output.Length == |flat| && seen.shared == m.shared
    requires forall t :: 0 <= t < |flat| ==> output[t] == Routed(seen, r, flat, t, p)
    modifies output
    ensures forall t :: 0 <= t < |flat| ==> output[t] == Output(seen, r, flat, t, p, proxy)
  {
    for t := 0 to |flat|
      invariant forall u :: 0 <= u < t ==> output[u] == Output(seen, r, flat, u, p, proxy)
      invariant forall u :: t <= u < |flat| ==> output[u] == Routed(seen, r, flat, u, p)
    {
      var shared := m.shared(flat[t]);
      assert seen.shared(flat[t]) == shared;
      output[t] := output[t] + if proxy && p < r.topK then shared * (1.0 + Dropped(r, t, p)) else shared;
    }
  }

  /** The call: the loop mode gives every token its output, the expert-major mode that of what it evaluates. */
  method Call<X>(m: Experts<X>, r: Routing, flat: seq<X>, p: nat, proxy: bool, expertMajor: bool)
      returns (output: array<real>)
    requires RoutingOk(r, |flat|) && p <= r.topK
    ensures fresh(output) && output.Length == |flat|
    ensures forall t :: 0 <= t < |flat| ==> output[t] == ModeOutput(m, r, flat, t, p, proxy, expertMajor)
  {
    output := new real[|flat|](_ => 0.0);
    ghost var seen := if expertMajor then Evaluated(m, r, |flat|, p) else m;
    if expertMajor {
      RunExpertMajor(m, r, flat, p, output);
    } else {
      RunLoop(m, r, flat, p, FirstSlots(r.weights, p), output);
    }
    AddShared(m, seen, r, flat, p, proxy, output);
  }

  // ----- When the modes agree -----

  /** How many experts there are, how many a token takes, and from how many groups of how many experts. */
  datatype Router = Router(experts: nat, topK: nat, groupSize: nat, topGroups: nat)

  /** A choice the router can make for a token. */
  predicate Choosable(ro: Router, row: seq<nat>)
    requires ro.groupSize > 0
  {
    && |row| == ro.topK && Different(row) && (forall i :: 0 <= i < |row| ==> row[i] < ro.experts)
    && |set i | 0 <= i < |row| :: row[i] / ro.groupSize| <= ro.topGroups
  }

  ghost predicate Routable(ro: Router, r: Routing)
    requires ro.groupSize > 0
  {
    r.topK == ro.topK && forall t :: 0 <= t < |r.indices| ==> Choosable(ro, r.indices[t])
  }

  /** The experts of the first `p` slots of a row can be stacked. */
  predicate RowStacks<X>(m: Experts<X>, row: seq<nat>, p: nat)
    requires p <= |row|
  {
    forall s :: 0 <= s < p ==> !m.packed(row[s]) && m.shape(row[s]) == m.shape(row[0])
  }

  /** The router can bring the expert into the batch. */
  ghost predicate Reaches<X>(m: Experts<X>, ro: Router, p: nat, e: nat)
    requires ro.groupSize > 0
  {
    exists row: seq<nat> :: Choosable(ro, row) && p <= |row| && e in row[..p] && RowStacks(m, row, p)
  }

  /** The batched product computes what the experts' own networks do, for every expert that can reach it. */
  ghost predicate SameRows<X(!new)>(m: Experts<X>, ro: Router, p: nat)
    requires ro.groupSize > 0
  {
    forall e: nat, x: X :: Reaches(m, ro, p, e) ==> m.stacked(e, x) == m.mlp(e, x)
  }

  /** Both modes give every token of every prompt the same output, however it is routed. */
  ghost predicate ModesAgree<X(!new)>(m: Experts<X>, ro: Router, p: nat, proxy: bool)
    requires ro.groupSize > 0
  {
    forall r: Routing, flat: seq<X>, t: nat :: Routable(ro, r) ==> AgreeAt(m, r, flat, t, p, proxy)
  }

  ghost predicate AgreeAt<X(!new)>(m: Experts<X>, r: Routing, flat: seq<X>, t: nat, p: nat, proxy: bool) {
    RoutingOk(r, |flat|) && t < |flat| && p <= r.topK ==>
      ModeOutput(m, r, flat, t, p, proxy, true) == ModeOutput(m, r, flat, t, p, proxy, false)
  }

  lemma {:induction false} SameRouted<X>(m: Experts<X>, r: Routing, flat: seq<X>, t: nat, p: nat)
    requires RoutingOk(r, |flat|) && t < |flat| && p <= r.topK
    requires forall s :: 0 <= s < p ==> m.stacked(r.indices[t][s], flat[t]) == m.mlp(r.indices[t][s], flat[t])
    ensures Routed(Batched(m), r, flat, t, p) == Routed(m, r, flat, t, p)
  {
    if p > 0 {
      SameRouted(m, r, flat, t, p - 1);
      assert Slot(Batched(m), r, flat, t, p - 1) == Slot(m, r, flat, t, p - 1);
    }
  }

  /** On one call: no expert that its own network would treat differently reaches the batch. */
  lemma CallsAgree<X(!new)>(m: Experts<X>, r: Routing, flat: seq<X>, t: nat, p: nat, proxy: bool)
    requires RoutingOk(r, |flat|) && t < |flat| && p <= r.topK
    requires Stacks(m, ExpertIds(r, |flat|, p)) ==>
      forall s :: 0 <= s < p ==> m.stacked(r.indices[t][s], flat[t]) == m.mlp(r.indices[t][s], flat[t])
    ensures AgreeAt(m, r, flat, t, p, proxy)
  {
    if Stacks(m, ExpertIds(r, |flat|, p)) {
      SameRouted(m, r, flat, t, p);
      assert Evaluated(m, r, |flat|, p) == Batched(m);
    }
  }

  /** One token with this row, all its weight on slot `s`. */
  function OneToken(row: seq<nat>, s: nat): (r: Routing)
    ensures |r.indices| == |r.weights| == 1 && r.indices[0] == row && r.topK == |row| == |r.weights[0]|
    ensures forall i :: 0 <= i < |row| ==> r.weights[0][i] == if i == s then 1.0 else 0.0
  {
    Routing(|row|, [row], [seq(|row|, i => if i == s then 1.0 else 0.0)])
  }

  lemma {:induction false} OneTokenRouted<X>(m: Experts<X>, row: seq<nat>, s: nat, x: X, n: nat)
    requires Different(row) && n <= |row|
    ensures Routed(m, OneToken(row, s), [x], 0, n) == if s < n then m.mlp(row[s], x) else 0.0
  {
    if n > 0 {
      var r := OneToken(row, s);
      OneTokenRouted(m, row, s, x, n - 1);
      assert Slot(m, r, [x], 0, n - 1) == r.weights[0][n - 1] * m.mlp(row[n - 1], x);
    }
  }

  /** Its experts are those of its row. */
  lemma OneTokenStacks<X>(m: Experts<X>, row: seq<nat>, s: nat, p: nat)
    requires Different(row) && p <= |row| && RowStacks(m, row, p)
    ensures Stacks(m, ExpertIds(OneToken(row, s), 1, p))
  {
    var ids := ExpertIds(OneToken(row, s), 1, p);
    assert ExpertIds(OneToken(row, s), 0, p) == [];
    assert ids == RowIds([], row, p);
    forall g | 0 <= g < |ids|
      ensures !m.packed(ids[g]) && m.shape(ids[g]) == m.shape(row[0])
    {
      assert ids[g] in ids;
    }
  }

  /** On that token the modes agree exactly when the slot's expert is treated alike. */
  lemma DisagreeAt<X(!new)>(m: Experts<X>, row: seq<nat>, s: nat, x: X, p: nat, proxy: bool)
    requires Different(row) && s < p <= |row| && RowStacks(m, row, p)
    ensures AgreeAt(m, OneToken(row, s), [x], 0, p, proxy) <==> m.stacked(row[s], x) == m.mlp(row[s], x)
  {
    OneTokenStacks(m, row, s, p);
    OneTokenRouted(m, row, s, x, p);
    OneTokenRouted(Batched(m), row, s, x, p);
  }

  /**
   The two modes agree on every prompt and routing exactly when the batched product computes what the
   expert's own network does, for every expert that the router can bring into the batch.
   */
  lemma ModesAgreeExactly<X(!new)>(m: Experts<X>, ro: Router, p: nat, proxy: bool)
    requires ro.groupSize > 0
    ensures ModesAgree(m, ro, p, proxy) <==> SameRows(m, ro, p)
  {
    if ModesAgree(m, ro, p, proxy) {
      forall e: nat, x: X | Reaches(m, ro, p, e)
        ensures m.stacked(e, x) == m.mlp(e, x)
      {
        var row: seq<nat> :| Choosable(ro, row) && p <= |row| && e in row[..p] && RowStacks(m, row, p);
        var s :| 0 <= s < p && row[s] == e;
        DisagreeAt(m, row, s, x, p, proxy);
        assert Routable(ro, OneToken(row, s));
        assert AgreeAt(m, OneToken(row, s), [x], 0, p, proxy);
      }
    }
    if SameRows(m, ro, p) {
      forall r: Routing, flat: seq<X>, t: nat | Routable(ro, r)
        ensures AgreeAt(m, r, flat, t, p, proxy)
      {
        SameRowsAgree(m, ro, r, flat, t, p, proxy);
      }
    }
  }

  lemma SameRowsAgree<X(!new)>(m: Experts<X>, ro: Router, r: Routing, flat: seq<X>, t: nat, p: nat, proxy: bool)
    requires ro.groupSize > 0 && SameRows(m, ro, p) && Routable(ro, r)
    ensures AgreeAt(m, r, flat, t, p, proxy)
  {
    if RoutingOk(r, |flat|) && t < |flat| && p <= r.topK {
      var ids, row := ExpertIds(r, |flat|, p), r.indices[t];
      if Stacks(m, ids) {
        forall s | 0 <= s < p
          ensures !m.packed(row[s]) && m.shape(row[s]) == m.shape(ids[0])
        {
          assert row[s] in ids;
        }
        assert RowStacks(m, row, p);
        forall s | 0 <= s < p
          ensures m.stacked(row[s], flat[t]) == m.mlp(row[s], flat[t])
        {
          assert row[..p][s] == row[s];
          assert Reaches(m, ro, p, row[s]);
        }
      }
      CallsAgree(m, r, flat, t, p, proxy);
    }
  }

  // ----- Which experts reach the batch -----

  /** The experts that can be stacked with this one, itself among them. */
  function Peers<X>(m: Experts<X>, n: nat, e: nat): set<nat> {
    set f | 0 <= f < n && !m.packed(f) && m.shape(f) == m.shape(e)
  }

  function Below(n: nat): (r: set<nat>)
    ensures |r| == n && forall j: nat :: j in r <==> j < n
  {
    if n == 0 then {} else Below(n - 1) + {n - 1}
  }

  lemma {:induction false} RowCount(row: seq<nat>, s: set<nat>)
    requires Different(row) && forall i :: 0 <= i < |row| ==> row[i] in s
    ensures |row| <= |s|
    decreases |row|
  {
    if row != [] {
      var front, last := row[..|row| - 1], row[|row| - 1];
      assert forall i :: 0 <= i < |front| ==> front[i] == row[i] && front[i] in s - {last};
      RowCount(front, s - {last});
    }
  }

  lemma {:induction false} SubsetCount(a: set<nat>, b: set<nat>)
    requires a <= b
    ensures |a| <= |b|
  {
    if a != {} {
      var x :| x in a;
      SubsetCount(a - {x}, b - {x});
    }
  }

  lemma SomeLeft(s: set<nat>, taken: set<nat>)
    requires |taken| < |s|
    ensures exists x :: x in s && x !in taken
  {
    if forall x :: x in s ==> x in taken {
      SubsetCount(s, taken);
    }
  }

  /** A row can be filled up with any experts that are left. */
  lemma {:induction false} Fill(row: seq<nat>, s: set<nat>, n: nat) returns (full: seq<nat>)
    requires Different(row) && |row| <= n <= |s| && forall i :: 0 <= i < |row| ==> row[i] in s
    ensures Different(full) && |full| == n && row <= full && forall i :: 0 <= i < |full| ==> full[i] in s
    decreases n - |row|
  {
    if |row| == n {
      full := row;
    } else {
      var taken := set x | x in row;
      TakenCount(row, taken);
      SomeLeft(s, taken);
      var x :| x in s && x !in taken;
      var longer := row + [x];
      assert forall i :: 0 <= i < |row| ==> longer[i] == row[i] && row[i] in taken;
      full := Fill(longer, s, n);
      assert row <= longer;
    }
  }

  lemma {:induction false} TakenCount(row: seq<nat>, taken: set<nat>)
    requires taken == set x | x in row
    ensures |taken| <= |row|
  {
    if row != [] {
      var front, last := row[..|row| - 1], row[|row| - 1];
      assert row == front + [last];
      TakenCount(front, set x | x in front);
      assert taken == (set x | x in front) + {last};
    }
  }

  /**
   With one group, an expert can reach the batch exactly when its weights are not packed and `p` experts
   of the layer, itself among them, are unpacked and of its shape.
   */
  lemma ReachesExactly<X(!new)>(m: Experts<X>, ro: Router, p: nat, e: nat)
    requires ro.groupSize == ro.experts && ro.topGroups == 1 && 0 < p <= ro.topK <= ro.experts
    ensures Reaches(m, ro, p, e) <==> e < ro.experts && !m.packed(e) && |Peers(m, ro.experts, e)| >= p
  {
    if Reaches(m, ro, p, e) {
      var row: seq<nat> :| Choosable(ro, row) && p <= |row| && e in row[..p] && RowStacks(m, row, p);
      var s :| 0 <= s < p && row[s] == e;
      var first := row[..p];
      assert forall i :: 0 <= i < p ==> first[i] == row[i];
      RowCount(first, Peers(m, ro.experts, e));
    }
    if e < ro.experts && !m.packed(e) && |Peers(m, ro.experts, e)| >= p {
      var first := Fill([e], Peers(m, ro.experts, e), p);
      var row := Fill(first, Below(ro.experts), ro.topK);
      assert row[..p] == first && [e] <= first;
      assert first[0] == e;
      OneGroup(row, ro.experts);
      assert Choosable(ro, row) && RowStacks(m, row, p);
    }
  }

  lemma OneGroup(row: seq<nat>, n: nat)
    requires n > 0 && forall i :: 0 <= i < |row| ==> row[i] < n
    ensures |set i | 0 <= i < |row| :: row[i] / n| <= 1
  {
    var groups := set i | 0 <= i < |row| :: row[i] / n;
    forall i | 0 <= i < |row|
      ensures row[i] / n == 0
    {
    }
    if groups != {} {
      assert groups == {0};
    }
  }

  // ----- Row-scaled experts -----

  /** A stored weight and its scale: the largest magnitude of the format is 448. */
  function Fp8(w: real): (s: (real, real))
    ensures s.1 > 0.0 && s.0 * s.1 == w
  {
    var scale := if Abs(w) / 448.0 < 0.000000000001 then 0.000000000001 else Abs(w) / 448.0;
    (w / scale, scale)
  }

  /** An expert with one hidden and one inner unit, through stored weights multiplied by scales. */
  function GatedUnit(silu: real -> real, gate: real, up: real, down: real, x: real): real {
    silu(gate * x) * (up * x) * down
  }

  /** A layer of such experts, all with weights w, stored in eight bits with row scales. */
  function Fp8Layer(silu: real -> real, w: real): Experts<real> {
    var stored := Fp8(w).0;
    Experts((e, x) => GatedUnit(silu, w, w, w, x), (e, x) => GatedUnit(silu, stored, stored, stored, x),
            e => false, e => 0, x => 0.0, 0.0)
  }

  /**
   Row-scaled experts are not packed, so they are stacked, and the batched product leaves their scales out:
   with weights of one and any activation that grows from 1 to 448 the modes disagree on every choice of
   experts.
   */
  lemma ScaledExpertsDisagree(silu: real -> real, row: seq<nat>, s: nat, p: nat, proxy: bool)
    requires Different(row) && s < p <= |row| && 0.0 < silu(1.0) <= silu(448.0)
    ensures var m := Fp8Layer(silu, 1.0);
      && !AgreeAt(m, OneToken(row, s), [1.0], 0, p, proxy)
      && ModeOutput(m, OneToken(row, s), [1.0], 0, p, proxy, false) == silu(1.0)
      && ModeOutput(m, OneToken(row, s), [1.0], 0, p, proxy, true) == silu(448.0) * 448.0 * 448.0
  {
    var m := Fp8Layer(silu, 1.0);
    assert Fp8(1.0).0 == 448.0;
    OneTokenStacks(m, row, s, p);
    OneTokenRouted(m, row, s, 1.0, p);
    OneTokenRouted(Batched(m), row, s, 1.0, p);
  }
}
