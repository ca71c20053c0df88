/**
 Several expert projections in one scaled matrix product: their rows are stacked, their block scales are
 unblocked, stacked and blocked again, and the result is cut back into experts.
 */
module GroupedGemm {
  import opened Arithmetic
  import opened BlockedScales
  import opened Stacking
  import opened Wrappers

  /** The product of one activation row and one weight row, given the block scales of both, and its rescaling. */
  datatype Kernel<!P, !S, !G, !R> = Kernel(dot: (P, seq<S>, P, seq<S>) -> R, rescale: (R, G, G) -> R, zero: S)

  datatype Activation<P, S, G> = Activation(packed: seq<P>, scales: seq<S>, globalScale: G, cols: nat)

  datatype Weight<P, S, G> = Weight(packed: seq<P>, scales: seq<S>, globalScale: G, rows: nat, cols: nat)

  /** What the constructor of a weight checks. */
  predicate WeightOk<P, S, G>(w: Weight<P, S, G>) {
    && w.rows > 0 && w.cols > 0 && w.cols % 16 == 0 && |w.packed| == w.rows
    && |w.scales| == Blocks(w.rows, 128) * Blocks(w.cols / 16, 4) * 32 * 16
  }

  predicate ScalesFit<S>(blocked: seq<S>, rows: nat, groups: nat) {
    rows > 0 && groups > 0 && |blocked| == Size(Blocks(rows, 128), Blocks(groups, 4))
  }

  /** The scales the matrix product reads for row r of a blocked buffer. */
  function ScaleRow<S>(blocked: seq<S>, rows: nat, groups: nat, r: nat): (s: seq<S>)
    requires ScalesFit(blocked, rows, groups) && r < rows
    ensures |s| == groups
  {
    var rb, cb := Blocks(rows, 128), Blocks(groups, 4);
    seq(groups, c requires 0 <= c < groups => Unplaced(blocked, r, c, rb, cb); blocked[Place(r, c, cb)])
  }

  function Entry<P, S, G, R>(k: Kernel<P, S, G, R>, a: Activation<P, S, G>, packed: seq<P>, scales: seq<S>,
                             t: nat, j: nat): R
    requires a.cols >= 16 && ScalesFit(a.scales, |a.packed|, a.cols / 16) && t < |a.packed|
    requires ScalesFit(scales, |packed|, a.cols / 16) && j < |packed|
  {
    k.dot(a.packed[t], ScaleRow(a.scales, |a.packed|, a.cols / 16, t),
          packed[j], ScaleRow(scales, |packed|, a.cols / 16, j))
  }

  function SingleEntry<P, S, G, R>(k: Kernel<P, S, G, R>, a: Activation<P, S, G>, w: Weight<P, S, G>,
                                   t: nat, o: nat): R
    requires WeightOk(w) && a.cols == w.cols && ScalesFit(a.scales, |a.packed|, a.cols / 16)
    requires t < |a.packed| && o < w.rows
  {
    SizeForms(Blocks(w.rows, 128), Blocks(w.cols / 16, 4));
    k.rescale(Entry(k, a, w.packed, w.scales, t, o), a.globalScale, w.globalScale)
  }

  /** One projection alone: an output per token and row. */
  function Single<P, S, G, R>(k: Kernel<P, S, G, R>, a: Activation<P, S, G>, w: Weight<P, S, G>): Matrix<R>
    requires WeightOk(w) && a.cols == w.cols && ScalesFit(a.scales, |a.packed|, a.cols / 16)
  {
    seq(|a.packed|, t requires 0 <= t < |a.packed| =>
      seq(w.rows, o requires 0 <= o < w.rows => SingleEntry(k, a, w, t, o)))
  }

  // ----- One product for all experts -----

  predicate SameShape<P, S, G>(ws: seq<Weight<P, S, G>>) {
    forall i :: 0 <= i < |ws| ==> ws[i].rows == ws[0].rows && ws[i].cols == ws[0].cols
  }

  ghost predicate AllOk<P, S, G>(ws: seq<Weight<P, S, G>>) {
    forall i :: 0 <= i < |ws| ==> WeightOk(ws[i])
  }

  lemma BlockedRow<S>(m: Matrix<S>, rows: nat, cols: nat, zero: S, r: nat)
    requires rows > 0 && cols > 0 && IsMatrix(m, rows, cols) && r < rows
    ensures ScalesFit(ToBlocked(m, rows, cols, zero), rows, cols)
    ensures ScaleRow(ToBlocked(m, rows, cols, zero), rows, cols, r) == m[r]
  {
    var row := ScaleRow(ToBlocked(m, rows, cols, zero), rows, cols, r);
    forall c | 0 <= c < cols
      ensures row[c] == m[r][c]
    {
      BlockedElement(m, rows, cols, zero, r, c);
    }
  }

  lemma UnblockedRow<S>(blocked: seq<S>, rows: nat, cols: nat, r: nat)
    requires ScalesFit(blocked, rows, cols) && r < rows
    ensures FromBlocked(blocked, rows, cols).Success?
    ensures FromBlocked(blocked, rows, cols).value[r] == ScaleRow(blocked, rows, cols, r)
  {
    UnblockedElement(blocked, rows, cols, r, 0);
    var row := FromBlocked(blocked, rows, cols).value[r];
    forall c | 0 <= c < cols
      ensures row[c] == ScaleRow(blocked, rows, cols, r)[c]
    {
      UnblockedElement(blocked, rows, cols, r, c);
    }
  }

  /** The row-major scales of a weight. */
  function RawScales<P, S, G>(w: Weight<P, S, G>): (m: Matrix<S>)
    requires WeightOk(w)
    ensures IsMatrix(m, w.rows, w.cols / 16)
  {
    SizeForms(Blocks(w.rows, 128), Blocks(w.cols / 16, 4));
    FromBlocked(w.scales, w.rows, w.cols / 16).value
  }

  function AllRawScales<P, S, G>(ws: seq<Weight<P, S, G>>): (ms: seq<Matrix<S>>)
    requires AllOk(ws)
    ensures |ms| == |ws| && forall i :: 0 <= i < |ws| ==> ms[i] == RawScales(ws[i])
  {
    seq(|ws|, i requires 0 <= i < |ws| => RawScales(ws[i]))
  }

  function AllPacked<P, S, G>(ws: seq<Weight<P, S, G>>): (ps: seq<seq<P>>)
    ensures |ps| == |ws| && forall i :: 0 <= i < |ws| ==> ps[i] == ws[i].packed
  {
    seq(|ws|, i requires 0 <= i < |ws| => ws[i].packed)
  }

  ghost predicate Batch<P, S, G>(ws: seq<Weight<P, S, G>>) {
    ws != [] && AllOk(ws) && SameShape(ws)
  }

  lemma StackedRows<P, S, G>(ws: seq<Weight<P, S, G>>, e: nat, o: nat)
    requires Batch(ws) && e < |ws| && o < ws[0].rows
    ensures var n := e * ws[0].rows + o; var all := |ws| * ws[0].rows;
      && n < all && |Stack(AllPacked(ws))| == all
      && Stack(AllPacked(ws))[n] == ws[e].packed[o]
      && |Stack(AllRawScales(ws))| == all
      && Stack(AllRawScales(ws))[n] == RawScales(ws[e])[o]
  {
    StackAt(AllPacked(ws), ws[0].rows, e, o);
    StackAt(AllRawScales(ws), ws[0].rows, e, o);
  }

  /** Every row of the stacked scales has the width of one weight's. */
  lemma StackIsMatrix<P, S, G>(ws: seq<Weight<P, S, G>>)
    requires Batch(ws)
    ensures IsMatrix(Stack(AllRawScales(ws)), |ws| * ws[0].rows, ws[0].cols / 16)
  {
    var m, rows := Stack(AllRawScales(ws)), ws[0].rows;
    StackLength(AllRawScales(ws), rows);
    forall n | 0 <= n < |m|
      ensures |m[n]| == ws[0].cols / 16
    {
      var e, o := SplitFlat(n, |ws|, rows);
      StackedRows(ws, e, o);
    }
  }

  /** The stacked scales, blocked again as one weight of all the rows. */
  function CombinedScales<P, S, G>(ws: seq<Weight<P, S, G>>, zero: S): (blocked: seq<S>)
    requires Batch(ws)
    ensures ScalesFit(blocked, |ws| * ws[0].rows, ws[0].cols / 16)
  {
    StackIsMatrix(ws);
    StackedRows(ws, 0, 0);
    ToBlocked(Stack(AllRawScales(ws)), |ws| * ws[0].rows, ws[0].cols / 16, zero)
  }

  /** The combined buffer shows expert e's row o the scales that expert's own buffer shows it. */
  lemma CombinedRow<P, S, G>(ws: seq<Weight<P, S, G>>, zero: S, e: nat, o: nat)
    requires Batch(ws) && e < |ws| && o < ws[0].rows
    ensures var rows := ws[0].rows; var groups := ws[0].cols / 16;
      && e * rows + o < |ws| * rows && ScalesFit(ws[e].scales, rows, groups)
      && ScaleRow(CombinedScales(ws, zero), |ws| * rows, groups, e * rows + o)
      == ScaleRow(ws[e].scales, rows, groups, o)
  {
    var rows, groups := ws[0].rows, ws[0].cols / 16;
    SizeForms(Blocks(rows, 128), Blocks(groups, 4));
    StackedRows(ws, e, o);
    StackIsMatrix(ws);
    BlockedRow(Stack(AllRawScales(ws)), |ws| * rows, groups, zero, e * rows + o);
    UnblockedRow(ws[e].scales, rows, groups, o);
  }

  predicate ActivationFits<P, S, G>(a: Activation<P, S, G>, cols: nat) {
    a.cols == cols && cols >= 16 && ScalesFit(a.scales, |a.packed|, cols / 16)
  }

  /** repeat_interleave of the experts' global scales over the rows of the stack. */
  function RepeatedScale<P, S, G>(ws: seq<Weight<P, S, G>>, rows: nat, n: nat): G
    requires rows > 0 && n < |ws| * rows
  {
    QuotientBelow(n, |ws|, rows);
    ws[n / rows].globalScale
  }

  /** Entry [t, n] of the one product, with n the row of the stack, and the scale repeated over its expert. */
  function StackEntry<P, S, G, R>(k: Kernel<P, S, G, R>, a: Activation<P, S, G>, ws: seq<Weight<P, S, G>>,
                                  t: nat, n: nat): R
    requires Batch(ws) && ActivationFits(a, ws[0].cols) && t < |a.packed| && n < |ws| * ws[0].rows
  {
    StackedRows(ws, 0, 0);
    k.rescale(Entry(k, a, Stack(AllPacked(ws)), CombinedScales(ws, k.zero), t, n),
              a.globalScale, RepeatedScale(ws, ws[0].rows, n))
  }

  /** The result reshaped to [token, expert, row]. */
  function GroupedEntry<P, S, G, R>(k: Kernel<P, S, G, R>, a: Activation<P, S, G>, ws: seq<Weight<P, S, G>>,
                                    t: nat, e: nat, o: nat): R
    requires Batch(ws) && ActivationFits(a, ws[0].cols) && t < |a.packed| && e < |ws| && o < ws[0].rows
  {
    StackedRows(ws, e, o);
    StackEntry(k, a, ws, t, e * ws[0].rows + o)
  }

  /** Outputs [token, expert, row] of the one product. */
  function Grouped<P, S, G, R>(k: Kernel<P, S, G, R>, a: Activation<P, S, G>, ws: seq<Weight<P, S, G>>)
    : (r: Result<seq<Matrix<R>>>)
    requires AllOk(ws) && ScalesFit(a.scales, |a.packed|, a.cols / 16)
  {
    if ws == [] then Failure("GLM5X_NVFP4_BATCH_EMPTY")
    else if !SameShape(ws) then Failure("GLM5X_NVFP4_BATCH_SHAPE")
    else if a.cols != ws[0].cols then Failure("GLM5X_NVFP4_ACTIVATION_SHAPE")
    else
      Success(seq(|a.packed|, t requires 0 <= t < |a.packed| =>
        seq(|ws|, e requires 0 <= e < |ws| =>
          seq(ws[0].rows, o requires 0 <= o < ws[0].rows => GroupedEntry(k, a, ws, t, e, o)))))
  }

  lemma EntryIsSingle<P, S, G, R>(k: Kernel<P, S, G, R>, a: Activation<P, S, G>, ws: seq<Weight<P, S, G>>,
                                  t: nat, e: nat, o: nat)
    requires Batch(ws) && ActivationFits(a, ws[0].cols) && t < |a.packed| && e < |ws| && o < ws[0].rows
    ensures GroupedEntry(k, a, ws, t, e, o) == SingleEntry(k, a, ws[e], t, o)
  {
    StackedRows(ws, e, o);
    CombinedRow(ws, k.zero, e, o);
    FlatSplits(e, o, ws[0].rows);
  }

  /** Expert e of the grouped product is expert e alone, whatever its padding holds. */
  lemma GroupedIsSingle<P, S, G, R>(k: Kernel<P, S, G, R>, a: Activation<P, S, G>, ws: seq<Weight<P, S, G>>,
                                    t: nat, e: nat)
    requires AllOk(ws) && ScalesFit(a.scales, |a.packed|, a.cols / 16) && Grouped(k, a, ws).Success?
    requires t < |a.packed| && e < |ws|
    ensures a.cols == ws[e].cols
    ensures Grouped(k, a, ws).value[t][e] == Single(k, a, ws[e])[t]
  {
    var grouped, single := Grouped(k, a, ws).value[t][e], Single(k, a, ws[e])[t];
    forall o | 0 <= o < ws[0].rows
      ensures grouped[o] == single[o]
    {
      EntryIsSingle(k, a, ws, t, e, o);
    }
  }

  /** The gate and up projections of one grouped product are the two grouped products. */
  lemma GateUpSplits<P, S, G, R>(k: Kernel<P, S, G, R>, a: Activation<P, S, G>, gate: seq<Weight<P, S, G>>,
                                 up: seq<Weight<P, S, G>>, t: nat)
    requires AllOk(gate) && AllOk(up) && ScalesFit(a.scales, |a.packed|, a.cols / 16) && t < |a.packed|
    requires gate != [] && up != []
    ensures AllOk(gate + up)
    ensures Grouped(k, a, gate + up).Success? ==>
      && Grouped(k, a, gate).Success? && Grouped(k, a, up).Success?
      && Grouped(k, a, gate + up).value[t][..|gate|] == Grouped(k, a, gate).value[t]
      && Grouped(k, a, gate + up).value[t][|gate|..] == Grouped(k, a, up).value[t]
  {
    var both := gate + up;
    assert forall i :: 0 <= i < |gate| ==> both[i] == gate[i];
    assert forall i :: 0 <= i < |up| ==> both[|gate| + i] == up[i];
    if Grouped(k, a, both).Success? {
      forall e | 0 <= e < |gate|
        ensures Grouped(k, a, both).value[t][e] == Grouped(k, a, gate).value[t][e]
      {
        GroupedIsSingle(k, a, both, t, e);
        GroupedIsSingle(k, a, gate, t, e);
      }
      forall e | 0 <= e < |up|
        ensures Grouped(k, a, both).value[t][|gate| + e] == Grouped(k, a, up).value[t][e]
      {
        GroupedIsSingle(k, a, both, t, |gate| + e);
        GroupedIsSingle(k, a, up, t, e);
      }
    }
  }
}
