/** Which positions a prompt may be split at: exactly those where the first part is ahead of the second. */
module MlaPositions {
  import opened TopK
  import opened MlaDsa

  function Tokens(hidden: seq<real>, positions: seq<int>): (tokens: seq<Token<real>>)
    requires |hidden| == |positions|
    ensures |tokens| == |positions|
    ensures forall i :: 0 <= i < |tokens| ==> tokens[i] == Token(hidden[i], positions[i])
  {
    seq(|positions|, i requires 0 <= i < |positions| => Token(hidden[i], positions[i]))
  }

  /** One call over both parts gives what two calls give. */
  ghost predicate SplitsHere<X, K, I>(layer: Layer<X, K, I>, state: State<K, I>, a: seq<Token<X>>, b: seq<Token<X>>) {
    var (first, middle) := Run(layer, state, a);
    var (second, last) := Run(layer, middle, b);
    Run(layer, state, a + b) == (first + second, last)
  }

  /** Every layer, state and hidden rows split here. */
  ghost predicate AlwaysSplits(first: seq<int>, second: seq<int>) {
    forall layer: Layer<real, real, real>, state: State<real, real>, x: seq<real>, y: seq<real> ::
      LayerOk(layer) && Coherent(state.mla, state.dsa) && |x| == |first| && |y| == |second| ==>
        SplitsHere(layer, state, Tokens(x, first), Tokens(y, second))
  }

  predicate Ordered(first: seq<int>, second: seq<int>) {
    forall i, j :: 0 <= i < |first| && 0 <= j < |second| ==> first[i] < second[j]
  }

  /** A layer that averages the hidden values of all causal keys. */
  function Averaging(keys: nat): Layer<real, real, real> {
    Layer(Indexer(t => 0.0, (t, i) => 0.0, keys),
          Heads(1, (t: Token<real>) => t.hidden, (t, k, c) => 0.0, (k, c) => k, x => 1.0, r => r), false)
  }

  function Constant(count: nat, value: real): (r: seq<real>)
    ensures |r| == count && forall i :: 0 <= i < count ==> r[i] == value
  {
    seq(count, i => value)
  }

  lemma {:induction false} PositiveSum(n: nat, g: nat -> real, x: nat)
    requires x < n && g(x) > 0.0 && forall j: nat :: j < n ==> g(j) >= 0.0
    ensures RangeSum(n, g) > 0.0
  {
    if x < n - 1 {
      PositiveSum(n - 1, g, x);
    } else {
      NonNegativeSum(n - 1, g);
    }
  }

  lemma {:induction false} NonNegativeSum(n: nat, g: nat -> real)
    requires forall j: nat :: j < n ==> g(j) >= 0.0
    ensures RangeSum(n, g) >= 0.0
  {
    if n > 0 {
      NonNegativeSum(n - 1, g);
    }
  }

  /** With room for all keys all of them are selected. */
  lemma AllSelected(ix: Indexer<real, real>, token: Token<real>, keys: seq<Slot<real>>, j: nat)
    requires j < |keys| <= ix.topk
    ensures j in Selected(ix, token, keys)
  {
    SelectedExactly(ix, token, keys, j);
    RankInside(IndexScores(ix, token, keys), j);
  }

  lemma PositiveQuotient(a: real, b: real)
    requires a > 0.0 && b > 0.0
    ensures Quotient(a, b) > 0.0
  {
  }

  lemma PositiveSums(n: nat, w: nat -> real, v: nat -> real, x: nat)
    requires x < n && w(x) > 0.0 && v(x) > 0.0
    requires forall j: nat :: j < n ==> w(j) >= 0.0 && v(j) >= 0.0
    ensures RangeSum(n, w) > 0.0 && RangeSum(n, Product(w, v)) > 0.0
  {
    PositiveSum(n, w, x);
    forall j: nat | j < n
      ensures Product(w, v)(j) >= 0.0
    {
      assert w(j) >= 0.0 && v(j) >= 0.0;
    }
    PositiveSum(n, Product(w, v), x);
  }

  /** The averaging row sees a causal key that holds a one. */
  lemma OnesAreSeen(token: Token<real>, mla: seq<Slot<real>>, dsa: seq<Slot<real>>, j: nat)
    requires Coherent(mla, dsa) && j < |mla| && Causal(token, mla[j]) && mla[j].key == 1.0
    requires forall i :: 0 <= i < |mla| ==> mla[i].key >= 0.0
    ensures Row(Averaging(|mla|), token, mla, dsa)[0] > 0.0
  {
    var layer := Averaging(|mla|);
    var indices := Selected(layer.indexer, token, dsa);
    AllSelected(layer.indexer, token, dsa, j);
    var w, v := Restrict(indices, Weight(layer.heads, token, mla, 0)), Value(layer.heads, mla, 0);
    assert w(j) == 1.0 && v(j) == 1.0;
    assert forall i: nat :: i < |mla| ==> v(i) == mla[i].key;
    PositiveSums(|mla|, w, v, j);
    PositiveQuotient(RangeSum(|mla|, Product(w, v)), RangeSum(|mla|, w));
  }

  /** Over zeros it is zero. */
  lemma ZerosGiveZero(topk: nat, token: Token<real>, mla: seq<Slot<real>>, dsa: seq<Slot<real>>)
    requires Coherent(mla, dsa) && forall i :: 0 <= i < |mla| ==> mla[i].key == 0.0
    ensures Row(Averaging(topk), token, mla, dsa)[0] == 0.0
  {
    var layer := Averaging(topk);
    var indices := Selected(layer.indexer, token, dsa);
    var w, v := Restrict(indices, Weight(layer.heads, token, mla, 0)), Value(layer.heads, mla, 0);
    ZeroSum(|mla|, Product(w, v));
    ZeroSum(|mla|, v);
  }

  lemma RowOfZeros(topk: nat, a: seq<Token<real>>, i: nat)
    requires i < |a| && forall k :: 0 <= k < |a| ==> a[k].hidden == 0.0
    ensures Run(Averaging(topk), State([], []), a).0[i][0] == 0.0
  {
    var layer := Averaging(topk);
    var after := After(layer, State([], []), a);
    ZerosGiveZero(topk, a[i], after.mla, after.dsa);
  }

  lemma RowSeesOne(tokens: seq<Token<real>>, i: nat, j: nat)
    requires i < |tokens| && j < |tokens| && tokens[j].position <= tokens[i].position && tokens[j].hidden == 1.0
    requires forall k :: 0 <= k < |tokens| ==> tokens[k].hidden >= 0.0
    ensures Run(Averaging(|tokens|), State([], []), tokens).0[i][0] > 0.0
  {
    var layer := Averaging(|tokens|);
    var after := After(layer, State([], []), tokens);
    OnesAreSeen(tokens[i], after.mla, after.dsa, j);
  }

  lemma RowsDiffer<X, K, I>(layer: Layer<X, K, I>, state: State<K, I>, a: seq<Token<X>>, b: seq<Token<X>>, i: nat)
    requires i < |a| && Run(layer, state, a + b).0[i] != Run(layer, state, a).0[i]
    ensures !SplitsHere(layer, state, a, b)
  {
  }

  lemma ZerosThenOnes(first: seq<int>, second: seq<int>, all: seq<Token<real>>)
    requires all == Tokens(Constant(|first|, 0.0), first) + Tokens(Constant(|second|, 1.0), second)
    ensures forall k :: 0 <= k < |first| ==> all[k] == Token(0.0, first[k])
    ensures forall k :: |first| <= k < |all| ==> all[k] == Token(1.0, second[k - |first|])
  {
  }

  /** Out of order, zeros before and ones after: the first part sees a one only in the single call. */
  lemma OutOfOrder(first: seq<int>, second: seq<int>, i: nat, j: nat)
    requires i < |first| && j < |second| && first[i] >= second[j]
    ensures !SplitsHere(Averaging(|first| + |second|), State([], []), Tokens(Constant(|first|, 0.0), first),
                        Tokens(Constant(|second|, 1.0), second))
  {
    var a, b := Tokens(Constant(|first|, 0.0), first), Tokens(Constant(|second|, 1.0), second);
    var all := a + b;
    ZerosThenOnes(first, second, all);
    RowOfZeros(|all|, a, i);
    assert all[|a| + j] == Token(1.0, second[j]);
    RowSeesOne(all, i, |a| + j);
    RowsDiffer(Averaging(|all|), State([], []), a, b, i);
  }

  /** A prompt splits between two lists of positions, whatever the layer, exactly when they are in order. */
  lemma SplitExactly(first: seq<int>, second: seq<int>)
    ensures AlwaysSplits(first, second) <==> Ordered(first, second)
  {
    if Ordered(first, second) {
      forall layer: Layer<real, real, real>, state: State<real, real>, x: seq<real>, y: seq<real> |
        LayerOk(layer) && Coherent(state.mla, state.dsa) && |x| == |first| && |y| == |second|
        ensures SplitsHere(layer, state, Tokens(x, first), Tokens(y, second))
      {
        ChunksAgree(layer, state, Tokens(x, first), Tokens(y, second));
      }
    } else {
      var i, j :| 0 <= i < |first| && 0 <= j < |second| && first[i] >= second[j];
      OutOfOrder(first, second, i, j);
      assert LayerOk(Averaging(|first| + |second|));
    }
  }
}
