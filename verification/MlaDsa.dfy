/**
 Multi-head latent attention over the keys the sparse indexer selects, over exact reals. Splitting a
 prompt anywhere and threading the two states gives the rows and the states of one pass over all of it;
 gathering the selected keys gives what masking all the others gives.
 */
module MlaDsa {
  import opened Stacking
  import opened TopK
  import opened Wrappers

  datatype Token<X> = Token(hidden: X, position: int)

  /** One cached key with the position it belongs to. */
  datatype Slot<K> = Slot(key: K, position: int)

  /** The indexer: its keys, its score of a key for a query row, and how many keys it keeps. */
  datatype Indexer<!X, !I> = Indexer(key: Token<X> -> I, score: (Token<X>, I) -> real, topk: nat)

  /** The heads, one output component at a time: scaled score and value of a compressed key. */
  datatype Heads<!X, !K> = Heads(width: nat, key: Token<X> -> K, score: (Token<X>, K, nat) -> real,
                                 value: (K, nat) -> real, exp: real -> real, project: seq<real> -> seq<real>)

  datatype Layer<!X, !K, !I> = Layer(indexer: Indexer<X, I>, heads: Heads<X, K>, sparse: bool)

  datatype State<K, I> = State(mla: seq<Slot<K>>, dsa: seq<Slot<I>>)

  ghost predicate LayerOk<X, K, I>(layer: Layer<X, K, I>) {
    layer.indexer.topk > 0 && forall x: real :: layer.heads.exp(x) > 0.0
  }

  /** Both states hold the same positions. */
  predicate Coherent<K, I>(mla: seq<Slot<K>>, dsa: seq<Slot<I>>) {
    |mla| == |dsa| && forall i :: 0 <= i < |mla| ==> mla[i].position == dsa[i].position
  }

  predicate Causal<X, K>(token: Token<X>, slot: Slot<K>) {
    slot.position <= token.position
  }

  // ----- Selection -----

  function IndexScores<X, I>(ix: Indexer<X, I>, token: Token<X>, keys: seq<Slot<I>>): (scores: seq<Score>)
    ensures |scores| == |keys|
    ensures forall j :: 0 <= j < |keys| ==> (scores[j].Fin? <==> Causal(token, keys[j]))
  {
    seq(|keys|, j requires 0 <= j < |keys| =>
      if Causal(token, keys[j]) then Fin(ix.score(token, keys[j].key)) else Masked)
  }

  function Selected<X, I>(ix: Indexer<X, I>, token: Token<X>, keys: seq<Slot<I>>): (indices: seq<nat>)
    ensures forall i :: i in indices ==> i < |keys|
    ensures Distinct(indices)
  {
    TopIndices(IndexScores(ix, token, keys), if ix.topk < |keys| then ix.topk else |keys|)
  }

  /** A causal key is selected exactly when fewer than `topk` keys come before it. */
  lemma SelectedExactly<X, I>(ix: Indexer<X, I>, token: Token<X>, keys: seq<Slot<I>>, j: nat)
    requires j < |keys|
    ensures j in Selected(ix, token, keys) <==> Rank(IndexScores(ix, token, keys), j) < ix.topk
  {
    var scores := IndexScores(ix, token, keys);
    var k := if ix.topk < |keys| then ix.topk else |keys|;
    SelectedByRank(scores, k, TopIndices(scores, k), j);
    if k == |keys| {
      RankInside(scores, j);
    }
  }

  lemma RankInside(scores: seq<Score>, j: nat)
    requires j < |scores|
    ensures Rank(scores, j) < |scores|
  {
    assert Beaters(scores, j) <= Below(|scores|) - {j};
    SubsetCount(Beaters(scores, j), Below(|scores|) - {j});
  }

  /** Keys of later positions do not change which causal keys are selected. */
  lemma LaterKeysNotSelected<X, I>(ix: Indexer<X, I>, token: Token<X>, keys: seq<Slot<I>>, later: seq<Slot<I>>, j: nat)
    requires j < |keys| && Causal(token, keys[j])
    requires forall i :: 0 <= i < |later| ==> !Causal(token, later[i])
    ensures j in Selected(ix, token, keys + later) <==> j in Selected(ix, token, keys)
  {
    var scores, longer := IndexScores(ix, token, keys), IndexScores(ix, token, keys + later);
    assert longer[..|scores|] == scores;
    forall i | |scores| <= i < |longer|
      ensures longer[i] == Masked
    {
      assert (keys + later)[i] == later[i - |keys|];
    }
    MaskedTail(scores, longer, j);
    SelectedExactly(ix, token, keys, j);
    SelectedExactly(ix, token, keys + later, j);
  }

  // ----- Sums -----

  function RangeSum(n: nat, g: nat -> real): real {
    if n == 0 then 0.0 else RangeSum(n - 1, g) + g(n - 1)
  }

  function ListSum(indices: seq<nat>, g: nat -> real): real {
    if indices == [] then 0.0 else ListSum(indices[..|indices| - 1], g) + g(indices[|indices| - 1])
  }

  lemma {:induction false} SameSum(n: nat, f: nat -> real, g: nat -> real)
    requires forall j: nat :: j < n ==> f(j) == g(j)
    ensures RangeSum(n, f) == RangeSum(n, g)
  {
    if n > 0 {
      SameSum(n - 1, f, g);
    }
  }

  lemma {:induction false} OneDiffers(n: nat, f: nat -> real, g: nat -> real, x: nat)
    requires x < n && forall j: nat :: j < n && j != x ==> f(j) == g(j)
    ensures RangeSum(n, f) - f(x) == RangeSum(n, g) - g(x)
  {
    if x == n - 1 {
      SameSum(n - 1, f, g);
    } else {
      OneDiffers(n - 1, f, g, x);
    }
  }

  function Restrict(indices: seq<nat>, g: nat -> real): nat -> real {
    (j: nat) => if j in indices then g(j) else 0.0
  }

  lemma {:induction false} ZeroSum(n: nat, g: nat -> real)
    requires forall j: nat :: j < n ==> g(j) == 0.0
    ensures RangeSum(n, g) == 0.0
  {
    if n > 0 {
      ZeroSum(n - 1, g);
    }
  }

  /** The sum over a list of different indices does not depend on their order. */
  lemma {:induction false} ListIsRestriction(n: nat, indices: seq<nat>, g: nat -> real)
    requires Distinct(indices) && forall i :: i in indices ==> i < n
    ensures ListSum(indices, g) == RangeSum(n, Restrict(indices, g))
  {
    if indices == [] {
      ZeroSum(n, Restrict(indices, g));
    } else {
      var front, x := indices[..|indices| - 1], indices[|indices| - 1];
      assert x !in front && indices == front + [x];
      assert x in indices && forall i :: i in front ==> i in indices;
      ListIsRestriction(n, front, g);
      OneDiffers(n, Restrict(indices, g), Restrict(front, g), x);
    }
  }

  lemma {:induction false} LongerSum(n: nat, m: nat, g: nat -> real)
    requires n <= m && forall j: nat :: n <= j < m ==> g(j) == 0.0
    ensures RangeSum(m, g) == RangeSum(n, g)
  {
    if n < m {
      LongerSum(n, m - 1, g);
    }
  }

  // ----- One output component of one row -----

  /** The softmax weight of key `j`; a key of a later position has none. */
  function Weight<X, K>(h: Heads<X, K>, token: Token<X>, keys: seq<Slot<K>>, c: nat): nat -> real {
    (j: nat) => if j < |keys| && Causal(token, keys[j]) then h.exp(h.score(token, keys[j].key, c)) else 0.0
  }

  function Value<X, K>(h: Heads<X, K>, keys: seq<Slot<K>>, c: nat): nat -> real {
    (j: nat) => if j < |keys| then h.value(keys[j].key, c) else 0.0
  }

  function Product(f: nat -> real, g: nat -> real): nat -> real {
    (j: nat) => f(j) * g(j)
  }

  function Quotient(a: real, b: real): real {
    if b == 0.0 then 0.0 else a / b
  }

  /** At least one of these keys may be attended to. */
  predicate SomeCausal<X, K>(token: Token<X>, keys: seq<Slot<K>>, indices: seq<nat>) {
    exists i :: i in indices && i < |keys| && Causal(token, keys[i])
  }

  /** All keys scored, those not selected or not causal masked away; with nothing left, a plain average. */
  function Dense<X, K>(h: Heads<X, K>, token: Token<X>, keys: seq<Slot<K>>, indices: seq<nat>, c: nat): real {
    var n := |keys|;
    if SomeCausal(token, keys, indices) then
      var w := Restrict(indices, Weight(h, token, keys, c));
      Quotient(RangeSum(n, Product(w, Value(h, keys, c))), RangeSum(n, w))
    else Quotient(RangeSum(n, Value(h, keys, c)), n as real)
  }

  /** The selected keys gathered in the order of the selection; with nothing causal, their average. */
  function Sparse<X, K>(h: Heads<X, K>, token: Token<X>, keys: seq<Slot<K>>, indices: seq<nat>, c: nat): real {
    if SomeCausal(token, keys, indices) then
      var w := Weight(h, token, keys, c);
      Quotient(ListSum(indices, Product(w, Value(h, keys, c))), ListSum(indices, w))
    else Quotient(ListSum(indices, Value(h, keys, c)), |indices| as real)
  }

  lemma RestrictProduct(indices: seq<nat>, w: nat -> real, v: nat -> real, n: nat)
    ensures RangeSum(n, Restrict(indices, Product(w, v))) == RangeSum(n, Product(Restrict(indices, w), v))
  {
    SameSum(n, Restrict(indices, Product(w, v)), Product(Restrict(indices, w), v));
  }

  /** Gathering equals masking, as long as one selected key is causal. */
  lemma SparseIsDense<X, K>(h: Heads<X, K>, token: Token<X>, keys: seq<Slot<K>>, indices: seq<nat>, c: nat)
    requires Distinct(indices) && (forall i :: i in indices ==> i < |keys|)
    requires SomeCausal(token, keys, indices)
    ensures Sparse(h, token, keys, indices, c) == Dense(h, token, keys, indices, c)
  {
    var w, v := Weight(h, token, keys, c), Value(h, keys, c);
    ListIsRestriction(|keys|, indices, Product(w, v));
    ListIsRestriction(|keys|, indices, w);
    RestrictProduct(indices, w, v, |keys|);
  }

  // ----- Rows and chunks -----

  function Attended<X, K>(h: Heads<X, K>, sparse: bool, token: Token<X>, keys: seq<Slot<K>>, indices: seq<nat>)
      : (r: seq<real>)
    ensures |r| == h.width
    ensures forall c :: 0 <= c < h.width ==>
      r[c] == if sparse then Sparse(h, token, keys, indices, c) else Dense(h, token, keys, indices, c)
  {
    seq(h.width, c requires 0 <= c < h.width =>
      if sparse then Sparse(h, token, keys, indices, c) else Dense(h, token, keys, indices, c))
  }

  function Row<X, K, I>(layer: Layer<X, K, I>, token: Token<X>, mla: seq<Slot<K>>, dsa: seq<Slot<I>>): seq<real> {
    layer.heads.project(Attended(layer.heads, layer.sparse, token, mla, Selected(layer.indexer, token, dsa)))
  }

  function MlaSlots<X, K>(h: Heads<X, K>, tokens: seq<Token<X>>): (slots: seq<Slot<K>>)
    ensures |slots| == |tokens| && forall i :: 0 <= i < |tokens| ==> slots[i] == Slot(h.key(tokens[i]), tokens[i].position)
  {
    seq(|tokens|, i requires 0 <= i < |tokens| => Slot(h.key(tokens[i]), tokens[i].position))
  }

  function DsaSlots<X, I>(ix: Indexer<X, I>, tokens: seq<Token<X>>): (slots: seq<Slot<I>>)
    ensures |slots| == |tokens| && forall i :: 0 <= i < |tokens| ==> slots[i] == Slot(ix.key(tokens[i]), tokens[i].position)
  {
    seq(|tokens|, i requires 0 <= i < |tokens| => Slot(ix.key(tokens[i]), tokens[i].position))
  }

  /** The states with the keys of a chunk appended. */
  function After<X, K, I>(layer: Layer<X, K, I>, state: State<K, I>, tokens: seq<Token<X>>): State<K, I> {
    State(state.mla + MlaSlots(layer.heads, tokens), state.dsa + DsaSlots(layer.indexer, tokens))
  }

  /** One call: the rows of a chunk, over the keys before it and its own. */
  function Run<X, K, I>(layer: Layer<X, K, I>, state: State<K, I>, tokens: seq<Token<X>>)
      : (r: (seq<seq<real>>, State<K, I>))
    ensures |r.0| == |tokens|
  {
    var after := After(layer, state, tokens);
    (seq(|tokens|, i requires 0 <= i < |tokens| => Row(layer, tokens[i], after.mla, after.dsa)), after)
  }

  /** The token's own key is among the cached ones. */
  predicate OwnKey<X, K>(token: Token<X>, keys: seq<Slot<K>>) {
    exists j :: 0 <= j < |keys| && keys[j].position == token.position
  }

  predicate AllLater<X, K>(token: Token<X>, keys: seq<Slot<K>>) {
    forall i :: 0 <= i < |keys| ==> !Causal(token, keys[i])
  }

  /** A row never attends to nothing: its own key is causal, so some causal key is selected. */
  lemma NeverEmpty<X, K, I>(layer: Layer<X, K, I>, token: Token<X>, mla: seq<Slot<K>>, dsa: seq<Slot<I>>)
    requires LayerOk(layer) && Coherent(mla, dsa) && OwnKey(token, dsa)
    ensures SomeCausal(token, mla, Selected(layer.indexer, token, dsa))
  {
    var ix := layer.indexer;
    var scores := IndexScores(ix, token, dsa);
    var j :| 0 <= j < |dsa| && dsa[j].position == token.position;
    NeverAllMasked(scores, if ix.topk < |dsa| then ix.topk else |dsa|, Selected(ix, token, dsa), j);
  }

  /** The sparse and the dense path of a row agree. */
  lemma PathsAgree<X, K, I>(layer: Layer<X, K, I>, token: Token<X>, mla: seq<Slot<K>>, dsa: seq<Slot<I>>)
    requires LayerOk(layer) && Coherent(mla, dsa) && OwnKey(token, dsa)
    ensures Row(layer.(sparse := true), token, mla, dsa) == Row(layer.(sparse := false), token, mla, dsa)
  {
    NeverEmpty(layer, token, mla, dsa);
    var indices := Selected(layer.indexer, token, dsa);
    forall c | 0 <= c < layer.heads.width
      ensures Sparse(layer.heads, token, mla, indices, c) == Dense(layer.heads, token, mla, indices, c)
    {
      SparseIsDense(layer.heads, token, mla, indices, c);
    }
    assert Attended(layer.heads, true, token, mla, indices) == Attended(layer.heads, false, token, mla, indices);
  }

  // ----- Chunk invariance -----

  /** Later keys carry no weight and leave the selection among the causal ones as it was. */
  lemma LaterWeights<X, K, I>(layer: Layer<X, K, I>, token: Token<X>, mla: seq<Slot<K>>, dsa: seq<Slot<I>>,
                              moreMla: seq<Slot<K>>, moreDsa: seq<Slot<I>>, c: nat, j: nat)
    requires Coherent(mla, dsa) && j < |mla| + |moreMla|
    requires AllLater(token, moreMla) && AllLater(token, moreDsa)
    ensures var few, many := Selected(layer.indexer, token, dsa), Selected(layer.indexer, token, dsa + moreDsa);
            var w := Restrict(many, Weight(layer.heads, token, mla + moreMla, c));
      && (if j < |mla| then w(j) == Restrict(few, Weight(layer.heads, token, mla, c))(j) else w(j) == 0.0)
      && (j < |mla| ==> Value(layer.heads, mla + moreMla, c)(j) == Value(layer.heads, mla, c)(j))
      && (j < |mla| && Causal(token, mla[j]) ==> (j in many <==> j in few))
  {
    var all := mla + moreMla;
    if j < |mla| {
      assert all[j] == mla[j];
      if Causal(token, mla[j]) {
        LaterKeysNotSelected(layer.indexer, token, dsa, moreDsa, j);
      }
    } else {
      assert all[j] == moreMla[j - |mla|];
    }
  }

  lemma LaterSomeCausal<X, K, I>(layer: Layer<X, K, I>, token: Token<X>, mla: seq<Slot<K>>, dsa: seq<Slot<I>>,
                                 moreMla: seq<Slot<K>>, moreDsa: seq<Slot<I>>)
    requires LayerOk(layer) && Coherent(mla, dsa) && OwnKey(token, dsa)
    requires AllLater(token, moreMla) && AllLater(token, moreDsa)
    ensures SomeCausal(token, mla, Selected(layer.indexer, token, dsa))
    ensures SomeCausal(token, mla + moreMla, Selected(layer.indexer, token, dsa + moreDsa))
  {
    NeverEmpty(layer, token, mla, dsa);
    var i :| i in Selected(layer.indexer, token, dsa) && i < |mla| && Causal(token, mla[i]);
    LaterKeysNotSelected(layer.indexer, token, dsa, moreDsa, i);
    assert (mla + moreMla)[i] == mla[i];
  }

  lemma DenseBySums<X, K>(h: Heads<X, K>, token: Token<X>, keys: seq<Slot<K>>, indices: seq<nat>, c: nat,
                          w: nat -> real, v: nat -> real)
    requires SomeCausal(token, keys, indices)
    requires w == Restrict(indices, Weight(h, token, keys, c)) && v == Value(h, keys, c)
    ensures Dense(h, token, keys, indices, c) == Quotient(RangeSum(|keys|, Product(w, v)), RangeSum(|keys|, w))
  {
  }

  lemma LaterKeysDense<X, K, I>(layer: Layer<X, K, I>, token: Token<X>, mla: seq<Slot<K>>, dsa: seq<Slot<I>>,
                                moreMla: seq<Slot<K>>, moreDsa: seq<Slot<I>>, c: nat)
    requires LayerOk(layer) && Coherent(mla, dsa) && OwnKey(token, dsa)
    requires AllLater(token, moreMla) && AllLater(token, moreDsa)
    ensures Dense(layer.heads, token, mla + moreMla, Selected(layer.indexer, token, dsa + moreDsa), c)
         == Dense(layer.heads, token, mla, Selected(layer.indexer, token, dsa), c)
  {
    var h, n, m := layer.heads, |mla|, |mla| + |moreMla|;
    var few, many := Selected(layer.indexer, token, dsa), Selected(layer.indexer, token, dsa + moreDsa);
    var w, w' := Restrict(few, Weight(h, token, mla, c)), Restrict(many, Weight(h, token, mla + moreMla, c));
    var v, v' := Value(h, mla, c), Value(h, mla + moreMla, c);
    forall j: nat | j < m
      ensures if j < n then w'(j) == w(j) && v'(j) == v(j) else w'(j) == 0.0
    {
      LaterWeights(layer, token, mla, dsa, moreMla, moreDsa, c, j);
    }
    LaterSomeCausal(layer, token, mla, dsa, moreMla, moreDsa);
    SumsAgree(n, m, w, w', v, v');
    DenseBySums(h, token, mla, few, c, w, v);
    DenseBySums(h, token, mla + moreMla, many, c, w', v');
  }

  lemma SumsAgree(n: nat, m: nat, w: nat -> real, w': nat -> real, v: nat -> real, v': nat -> real)
    requires n <= m
    requires forall j: nat :: j < m ==> if j < n then w'(j) == w(j) && v'(j) == v(j) else w'(j) == 0.0
    ensures RangeSum(m, w') == RangeSum(n, w)
    ensures RangeSum(m, Product(w', v')) == RangeSum(n, Product(w, v))
  {
    LongerSum(n, m, w');
    SameSum(n, w', w);
    LongerSum(n, m, Product(w', v'));
    SameSum(n, Product(w', v'), Product(w, v));
  }

  /** A row does not see what comes after it, on either path. */
  lemma RowIgnoresLater<X, K, I>(layer: Layer<X, K, I>, token: Token<X>, mla: seq<Slot<K>>, dsa: seq<Slot<I>>,
                                 moreMla: seq<Slot<K>>, moreDsa: seq<Slot<I>>)
    requires LayerOk(layer) && Coherent(mla, dsa) && OwnKey(token, dsa) && |moreMla| == |moreDsa|
    requires AllLater(token, moreMla) && AllLater(token, moreDsa)
    ensures Row(layer, token, mla + moreMla, dsa + moreDsa) == Row(layer, token, mla, dsa)
  {
    var few, many := Selected(layer.indexer, token, dsa), Selected(layer.indexer, token, dsa + moreDsa);
    var short := Attended(layer.heads, layer.sparse, token, mla, few);
    var long := Attended(layer.heads, layer.sparse, token, mla + moreMla, many);
    LaterSomeCausal(layer, token, mla, dsa, moreMla, moreDsa);
    forall c | 0 <= c < layer.heads.width
      ensures long[c] == short[c]
    {
      LaterKeysDense(layer, token, mla, dsa, moreMla, moreDsa, c);
      SparseIsDense(layer.heads, token, mla, few, c);
      SparseIsDense(layer.heads, token, mla + moreMla, many, c);
    }
    assert long == short;
  }

  /** Every token of the first chunk is ahead of every token of the second. */
  predicate InOrder<X>(a: seq<Token<X>>, b: seq<Token<X>>) {
    forall i, j :: 0 <= i < |a| && 0 <= j < |b| ==> a[i].position < b[j].position
  }

  lemma AfterBoth<X, K, I>(layer: Layer<X, K, I>, state: State<K, I>, a: seq<Token<X>>, b: seq<Token<X>>)
    ensures After(layer, state, a + b) == After(layer, After(layer, state, a), b)
  {
    assert MlaSlots(layer.heads, a + b) == MlaSlots(layer.heads, a) + MlaSlots(layer.heads, b);
    assert DsaSlots(layer.indexer, a + b) == DsaSlots(layer.indexer, a) + DsaSlots(layer.indexer, b);
    AppendTwice(state.mla, MlaSlots(layer.heads, a), MlaSlots(layer.heads, b));
    AppendTwice(state.dsa, DsaSlots(layer.indexer, a), DsaSlots(layer.indexer, b));
  }

  lemma AppendTwice<T>(s: seq<T>, a: seq<T>, b: seq<T>)
    ensures s + (a + b) == (s + a) + b
  {
  }

  lemma CoherentAfter<X, K, I>(layer: Layer<X, K, I>, state: State<K, I>, tokens: seq<Token<X>>)
    requires Coherent(state.mla, state.dsa)
    ensures var after := After(layer, state, tokens); Coherent(after.mla, after.dsa)
    ensures forall i :: 0 <= i < |tokens| ==> OwnKey(tokens[i], After(layer, state, tokens).dsa)
  {
    var after := After(layer, state, tokens);
    forall i | 0 <= i < |tokens|
      ensures OwnKey(tokens[i], after.dsa)
    {
      assert after.dsa[|state.dsa| + i].position == tokens[i].position;
    }
  }

  /** The token is ahead of all the others. */
  predicate Ahead<X>(token: Token<X>, others: seq<Token<X>>) {
    forall j :: 0 <= j < |others| ==> token.position < others[j].position
  }

  /**
   Chunk invariance, for any positions: one pass over a prompt and two passes over its halves, with both
   states handed on, leave the same states and give the same rows, except that a token of the first half
   must be ahead of the second half.
   */
  lemma ChunksAgree<X, K, I>(layer: Layer<X, K, I>, state: State<K, I>, a: seq<Token<X>>, b: seq<Token<X>>)
    requires LayerOk(layer) && Coherent(state.mla, state.dsa)
    ensures var (first, middle) := Run(layer, state, a); var (second, last) := Run(layer, middle, b);
            var (whole, after) := Run(layer, state, a + b);
      && after == last
      && whole[|a|..] == second
      && (forall i :: 0 <= i < |a| && Ahead(a[i], b) ==> whole[i] == first[i])
      && (InOrder(a, b) ==> whole == first + second)
  {
    AfterBoth(layer, state, a, b);
    CoherentAfter(layer, state, a);
    var (first, middle) := Run(layer, state, a);
    var (second, last) := Run(layer, middle, b);
    var (whole, after) := Run(layer, state, a + b);
    assert after == last;
    forall i | 0 <= i < |a| && Ahead(a[i], b)
      ensures whole[i] == first[i]
    {
      RowIgnoresLater(layer, a[i], middle.mla, middle.dsa, MlaSlots(layer.heads, b), DsaSlots(layer.indexer, b));
    }
    forall i | 0 <= i < |b|
      ensures whole[|a| + i] == second[i]
    {
      assert (a + b)[|a| + i] == b[i];
    }
    assert InOrder(a, b) ==> forall i :: 0 <= i < |a| ==> Ahead(a[i], b);
  }

  /** The positions `position_ids` defaults to: the next ones after those in the state. */
  function Numbered<X>(start: nat, hidden: seq<X>): (tokens: seq<Token<X>>)
    ensures |tokens| == |hidden|
  {
    seq(|hidden|, i requires 0 <= i < |hidden| => Token(hidden[i], start + i))
  }

  /** With the default positions a prompt may be split anywhere. */
  lemma DefaultChunksAgree<X, K, I>(layer: Layer<X, K, I>, state: State<K, I>, hidden: seq<X>, k: nat)
    requires LayerOk(layer) && Coherent(state.mla, state.dsa) && k <= |hidden|
    ensures var start := |state.mla|;
            var (first, middle) := Run(layer, state, Numbered(start, hidden[..k]));
            var (second, last) := Run(layer, middle, Numbered(|middle.mla|, hidden[k..]));
      Run(layer, state, Numbered(start, hidden)) == (first + second, last)
  {
    var a, b := Numbered(|state.mla|, hidden[..k]), Numbered(|state.mla| + k, hidden[k..]);
    assert a + b == Numbered(|state.mla|, hidden);
    ChunksAgree(layer, state, a, b);
  }

  /** A prompt in chunks, one call after the other, each with the next positions. */
  function RunChunks<X, K, I>(layer: Layer<X, K, I>, state: State<K, I>, chunks: seq<seq<X>>)
      : (seq<seq<real>>, State<K, I>)
  {
    if chunks == [] then ([], state)
    else
      var (rows, middle) := RunChunks(layer, state, chunks[..|chunks| - 1]);
      var (more, last) := Run(layer, middle, Numbered(|middle.mla|, chunks[|chunks| - 1]));
      (rows + more, last)
  }

  /** However a prompt is cut up, the chunks give the rows and leave the states of the whole. */
  lemma {:induction false} AnyChunksAgree<X, K, I>(layer: Layer<X, K, I>, state: State<K, I>, chunks: seq<seq<X>>)
    requires LayerOk(layer) && Coherent(state.mla, state.dsa)
    ensures RunChunks(layer, state, chunks) == Run(layer, state, Numbered(|state.mla|, Stack(chunks)))
  {
    if chunks == [] {
      NothingRun(layer, state);
    } else {
      var front, last := chunks[..|chunks| - 1], chunks[|chunks| - 1];
      AnyChunksAgree(layer, state, front);
      var hidden := Stack(front) + last;
      assert hidden[..|Stack(front)|] == Stack(front) && hidden[|Stack(front)|..] == last;
      DefaultChunksAgree(layer, state, hidden, |Stack(front)|);
    }
  }

  lemma NothingRun<X, K, I>(layer: Layer<X, K, I>, state: State<K, I>)
    ensures Run(layer, state, Numbered(|state.mla|, [])) == ([], state)
  {
    var none: seq<Token<X>> := Numbered(|state.mla|, []);
    var (rows, after) := Run(layer, state, none);
    assert MlaSlots(layer.heads, none) == [] && DsaSlots(layer.indexer, none) == [];
    assert after.mla == state.mla && after.dsa == state.dsa;
    assert after == state;
    assert rows == [];
  }
}
