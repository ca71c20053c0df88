/**
 The synthetic K3 decoder: it runs all tokens of a chunk through one layer before the next. Running the
 whole stack token by token is the reference; both give the same outputs and the same states, so greedy
 decoding may keep its state or recompute it. Tensor kernels are uninterpreted functions of one row.
 */
module K3Model {
  import opened Wrappers
  import Stacking

  /** The two kinds of attention, in terms of their projections of one row. */
  datatype Attention<!V, !P, !R> =
    | KDA(query: V -> P, key: V -> P, value: V -> P,
          convQuery: seq<P> -> P, convKey: seq<P> -> P, convValue: seq<P> -> P,
          decay: V -> P, beta: V -> P, recur: (R, P, P, P, P, P) -> (P, R), output: (V, P) -> V)
    | MLA(query: V -> P, key: V -> P, value: V -> P, sharedKey: V -> P,
          attend: (P, seq<P>, seq<P>, seq<P>) -> P, output: (V, P) -> V)

  datatype AttentionState<P, R> =
    | KDAState(convQ: seq<P>, convK: seq<P>, convV: seq<P>, recurrent: R)
    | MLAState(keys: seq<P>, values: seq<P>, sharedKeys: seq<P>, length: nat)

  predicate SameKind<V, P, R>(a: Attention<V, P, R>, s: AttentionState<P, R>) {
    a.KDA? <==> s.KDAState?
  }

  /** One row through one attention layer: `kda_decode` or `mla_decode`. */
  function Decode<V, P, R>(a: Attention<V, P, R>, x: V, s: AttentionState<P, R>): (r: (V, AttentionState<P, R>))
    requires SameKind(a, s)
    ensures SameKind(a, r.1)
  {
    match a
    case KDA(query, key, value, convQuery, convKey, convValue, decay, beta, recur, output) =>
      var q, k, v := s.convQ + [query(x)], s.convK + [key(x)], s.convV + [value(x)];
      var (o, recurrent) := recur(s.recurrent, convQuery(q), convKey(k), convValue(v), decay(x), beta(x));
      (output(x, o), KDAState(q[1..], k[1..], v[1..], recurrent))
    case MLA(query, key, value, sharedKey, attend, output) =>
      var keys, values, shared := s.keys + [key(x)], s.values + [value(x)], s.sharedKeys + [sharedKey(x)];
      (output(x, attend(query(x), keys, values, shared)), MLAState(keys, values, shared, s.length + 1))
  }

  datatype Layer<!V, !P, !R> = Layer(
    attentionResidual: (V, seq<V>) -> V, attentionNorm: V -> V, attention: Attention<V, P, R>,
    ffnResidual: (V, seq<V>) -> V, feedForward: V -> V)

  datatype Model<!V, !P, !R> = Model(
    embed: nat -> V, add: (V, V) -> V, layers: seq<Layer<V, P, R>>, blockSize: nat,
    finish: (V, seq<V>) -> V, argmax: V -> nat, empty: seq<AttentionState<P, R>>)

  // ----- One row -----

  /** The states fit the layers from `l` to the last, kind by kind. */
  predicate StatesFrom<V, P, R>(m: Model<V, P, R>, l: nat, states: seq<AttentionState<P, R>>)
    decreases |states|
  {
    if states == [] then l == |m.layers|
    else l < |m.layers| && SameKind(m.layers[l].attention, states[0]) && StatesFrom(m, l + 1, states[1..])
  }

  /** A row on its way up: its hidden vector and the block sources it has collected. */
  datatype Row<V> = Row(hidden: V, sources: seq<V>)

  function AttentionInput<V, P, R>(m: Model<V, P, R>, l: nat, row: Row<V>): V
    requires l < |m.layers|
  {
    if row.sources == [] then row.hidden else m.layers[l].attentionResidual(row.hidden, row.sources)
  }

  /** Every `blockSize`-th layer adds the hidden vector to the sources and starts a new sum. */
  predicate Pushes<V, P, R>(m: Model<V, P, R>, l: nat)
    requires m.blockSize > 0
  {
    l % m.blockSize == 0
  }

  /** What the rest of layer `l` makes of a row and its attention output. */
  function AfterAttention<V, P, R>(m: Model<V, P, R>, l: nat, row: Row<V>, attended: V): Row<V>
    requires m.blockSize > 0 && l < |m.layers|
  {
    var layer := m.layers[l];
    var sources := if Pushes(m, l) then row.sources + [row.hidden] else row.sources;
    var sum := if Pushes(m, l) then attended else m.add(row.hidden, attended);
    Row(m.add(sum, layer.feedForward(layer.ffnResidual(sum, sources))), sources)
  }

  function LayerStep<V, P, R>(m: Model<V, P, R>, l: nat, row: Row<V>, s: AttentionState<P, R>)
      : (r: (Row<V>, AttentionState<P, R>))
    requires m.blockSize > 0 && l < |m.layers| && SameKind(m.layers[l].attention, s)
    ensures SameKind(m.layers[l].attention, r.1)
  {
    var (attended, next) := Decode(m.layers[l].attention, m.layers[l].attentionNorm(AttentionInput(m, l, row)), s);
    (AfterAttention(m, l, row, attended), next)
  }

  /** A row through the layers from `l` on; `states` are those of these layers. */
  function Stack<V, P, R>(m: Model<V, P, R>, l: nat, row: Row<V>, states: seq<AttentionState<P, R>>)
      : (r: (Row<V>, seq<AttentionState<P, R>>))
    requires m.blockSize > 0 && StatesFrom(m, l, states)
    ensures StatesFrom(m, l, r.1)
    decreases |states|
  {
    if states == [] then (row, [])
    else
      var (up, next) := LayerStep(m, l, row, states[0]);
      var (top, rest) := Stack(m, l + 1, up, states[1..]);
      (top, [next] + rest)
  }

  /** The reference: the whole stack, token by token. */
  function TokenMajor<V, P, R>(m: Model<V, P, R>, rows: seq<Row<V>>, states: seq<AttentionState<P, R>>)
      : (r: (seq<Row<V>>, seq<AttentionState<P, R>>))
    requires m.blockSize > 0 && StatesFrom(m, 0, states)
    ensures |r.0| == |rows| && StatesFrom(m, 0, r.1)
  {
    if rows == [] then ([], states)
    else
      var (tops, middle) := TokenMajor(m, rows[..|rows| - 1], states);
      var (top, last) := Stack(m, 0, rows[|rows| - 1], middle);
      (tops + [top], last)
  }

  // ----- Layer by layer -----

  /** All rows through layer `l`, its state carried from row to row. */
  function Scan<V, P, R>(m: Model<V, P, R>, l: nat, rows: seq<Row<V>>, s: AttentionState<P, R>)
      : (r: (seq<Row<V>>, AttentionState<P, R>))
    requires m.blockSize > 0 && l < |m.layers| && SameKind(m.layers[l].attention, s)
    ensures |r.0| == |rows| && SameKind(m.layers[l].attention, r.1)
  {
    if rows == [] then ([], s)
    else
      var (ups, middle) := Scan(m, l, rows[..|rows| - 1], s);
      var (up, last) := LayerStep(m, l, rows[|rows| - 1], middle);
      (ups + [up], last)
  }

  function LayerMajor<V, P, R>(m: Model<V, P, R>, l: nat, rows: seq<Row<V>>, states: seq<AttentionState<P, R>>)
      : (r: (seq<Row<V>>, seq<AttentionState<P, R>>))
    requires m.blockSize > 0 && StatesFrom(m, l, states)
    ensures |r.0| == |rows| && StatesFrom(m, l, r.1)
    decreases |states|
  {
    if states == [] then (rows, [])
    else
      var (ups, next) := Scan(m, l, rows, states[0]);
      var (tops, rest) := LayerMajor(m, l + 1, ups, states[1..]);
      (tops, [next] + rest)
  }

  /** The last row can wait until all the others have gone all the way up. */
  lemma {:induction false} LastRowLast<V, P, R>(m: Model<V, P, R>, l: nat, rows: seq<Row<V>>,
                                                states: seq<AttentionState<P, R>>)
    requires m.blockSize > 0 && StatesFrom(m, l, states) && rows != []
    ensures var (tops, middle) := LayerMajor(m, l, rows[..|rows| - 1], states);
            var (top, last) := Stack(m, l, rows[|rows| - 1], middle);
            LayerMajor(m, l, rows, states) == (tops + [top], last)
    decreases |states|
  {
    var front, row := rows[..|rows| - 1], rows[|rows| - 1];
    if states == [] {
      assert front + [row] == rows;
    } else {
      var (others, middle) := Scan(m, l, front, states[0]);
      var (up, next) := LayerStep(m, l, row, middle);
      var ups := others + [up];
      assert ups[..|ups| - 1] == others && ups[|ups| - 1] == up;
      LastRowLast(m, l + 1, ups, states[1..]);
      var rest := LayerMajor(m, l + 1, others, states[1..]).1;
      var before := [middle] + rest;
      assert before[0] == middle && before[1..] == rest;
    }
  }

  lemma {:induction false} NoRows<V, P, R>(m: Model<V, P, R>, l: nat, states: seq<AttentionState<P, R>>)
    requires m.blockSize > 0 && StatesFrom(m, l, states)
    ensures LayerMajor(m, l, [], states) == ([], states)
    decreases |states|
  {
    if states != [] {
      NoRows(m, l + 1, states[1..]);
      assert [states[0]] + states[1..] == states;
    }
  }

  /** Loop interchange: layer by layer is the same as token by token, rows and states. */
  lemma {:induction false} LoopInterchange<V, P, R>(m: Model<V, P, R>, rows: seq<Row<V>>,
                                                    states: seq<AttentionState<P, R>>)
    requires m.blockSize > 0 && StatesFrom(m, 0, states)
    ensures LayerMajor(m, 0, rows, states) == TokenMajor(m, rows, states)
  {
    if rows == [] {
      NoRows(m, 0, states);
    } else {
      LoopInterchange(m, rows[..|rows| - 1], states);
      LastRowLast(m, 0, rows, states);
    }
  }

  lemma TokenMajorSnoc<V, P, R>(m: Model<V, P, R>, rows: seq<Row<V>>, front: seq<Row<V>>, row: Row<V>,
                                states: seq<AttentionState<P, R>>)
    requires m.blockSize > 0 && StatesFrom(m, 0, states) && rows == front + [row]
    ensures var (tops, middle) := TokenMajor(m, front, states); var (top, last) := Stack(m, 0, row, middle);
      TokenMajor(m, rows, states) == (tops + [top], last)
  {
    assert rows[..|rows| - 1] == front;
  }

  lemma Associates<T>(a: seq<T>, b: seq<T>, c: seq<T>)
    ensures a + (b + c) == (a + b) + c
  {
  }

  /** Splitting the rows anywhere and handing the states on changes nothing. */
  lemma {:induction false} SplitRows<V, P, R>(m: Model<V, P, R>, a: seq<Row<V>>, b: seq<Row<V>>,
                                              states: seq<AttentionState<P, R>>)
    requires m.blockSize > 0 && StatesFrom(m, 0, states)
    ensures var (first, middle) := TokenMajor(m, a, states); var (second, last) := TokenMajor(m, b, middle);
      TokenMajor(m, a + b, states) == (first + second, last)
  {
    var (first, middle) := TokenMajor(m, a, states);
    if b == [] {
      assert a + b == a && first + [] == first;
    } else {
      var front, row := b[..|b| - 1], b[|b| - 1];
      assert b == front + [row];
      SplitRows(m, a, front, states);
      TokenMajorSnoc(m, b, front, row, middle);
      Associates(a, front, [row]);
      TokenMajorSnoc(m, a + b, a + front, row, states);
      var (second, later) := TokenMajor(m, front, middle);
      Associates(first, second, [Stack(m, 0, row, later).0]);
    }
  }

  // ----- The attention of a whole chunk -----

  function Prefilled<V, P, R>(a: Attention<V, P, R>, xs: seq<V>, s: AttentionState<P, R>)
      : (r: (seq<V>, AttentionState<P, R>))
    requires SameKind(a, s)
    ensures |r.0| == |xs| && SameKind(a, r.1)
  {
    if xs == [] then ([], s)
    else
      var (before, middle) := Prefilled(a, xs[..|xs| - 1], s);
      var (output, last) := Decode(a, xs[|xs| - 1], middle);
      (before + [output], last)
  }

  /** `kda_prefill` and `mla_prefill`: the decode step, position by position. */
  method Prefill<V, P, R>(a: Attention<V, P, R>, xs: seq<V>, s: AttentionState<P, R>)
      returns (outputs: seq<V>, current: AttentionState<P, R>)
    requires SameKind(a, s)
    ensures (outputs, current) == Prefilled(a, xs, s)
  {
    outputs, current := [], s;
    for index := 0 to |xs|
      invariant SameKind(a, current) && (outputs, current) == Prefilled(a, xs[..index], s)
    {
      assert xs[..index + 1][..index] == xs[..index];
      var (output, next) := Decode(a, xs[index], current);
      outputs, current := outputs + [output], next;
    }
    assert xs[..|xs|] == xs;
  }

  function Map<V, P>(f: V -> P, xs: seq<V>): (r: seq<P>)
    ensures |r| == |xs| && forall i :: 0 <= i < |xs| ==> r[i] == f(xs[i])
  {
    if xs == [] then [] else Map(f, xs[..|xs| - 1]) + [f(xs[|xs| - 1])]
  }

  /** The last `|window|` of everything that went through a convolution window. */
  function Window<P>(window: seq<P>, more: seq<P>): (r: seq<P>)
    ensures |r| == |window|
  {
    (window + more)[|more|..]
  }

  lemma WindowSlides<P>(window: seq<P>, more: seq<P>, x: P)
    ensures (Window(window, more) + [x])[1..] == Window(window, more + [x])
  {
    assert window + (more + [x]) == (window + more) + [x];
  }

  /**
   What a state holds after any number of positions. The convolution histories are sliding windows over
   all projections so far; the key and value caches hold every position in order, and count them.
   */
  lemma {:induction false} StateAfter<V, P, R>(a: Attention<V, P, R>, xs: seq<V>, s: AttentionState<P, R>)
    requires SameKind(a, s)
    ensures var last := Prefilled(a, xs, s).1;
      match a
      case KDA(query, key, value, _, _, _, _, _, _, _) =>
        && last.convQ == Window(s.convQ, Map(query, xs)) && last.convK == Window(s.convK, Map(key, xs))
        && last.convV == Window(s.convV, Map(value, xs))
      case MLA(_, key, value, sharedKey, _, _) =>
        && last.keys == s.keys + Map(key, xs) && last.values == s.values + Map(value, xs)
        && last.sharedKeys == s.sharedKeys + Map(sharedKey, xs) && last.length == s.length + |xs|
  {
    if xs != [] {
      var front, x := xs[..|xs| - 1], xs[|xs| - 1];
      StateAfter(a, front, s);
      match a
      case KDA(query, key, value, _, _, _, _, _, _, _) =>
        WindowSlides(s.convQ, Map(query, front), query(x));
        WindowSlides(s.convK, Map(key, front), key(x));
        WindowSlides(s.convV, Map(value, front), value(x));
      case MLA(_, key, value, sharedKey, _, _) =>
        assert Map(key, xs) == Map(key, front) + [key(x)];
    }
  }

  // ----- The forward pass as it is written -----

  function Normalized<V, P, R>(m: Model<V, P, R>, l: nat, rows: seq<Row<V>>): (xs: seq<V>)
    requires l < |m.layers|
    ensures |xs| == |rows|
  {
    seq(|rows|, i requires 0 <= i < |rows| => m.layers[l].attentionNorm(AttentionInput(m, l, rows[i])))
  }

  function Merged<V, P, R>(m: Model<V, P, R>, l: nat, rows: seq<Row<V>>, attended: seq<V>): (ups: seq<Row<V>>)
    requires m.blockSize > 0 && l < |m.layers| && |attended| == |rows|
    ensures |ups| == |rows|
  {
    seq(|rows|, i requires 0 <= i < |rows| => AfterAttention(m, l, rows[i], attended[i]))
  }

  /** One layer over all rows: normalise all, attend position by position, merge all. */
  lemma {:induction false} ScanIsPrefill<V, P, R>(m: Model<V, P, R>, l: nat, rows: seq<Row<V>>,
                                                  s: AttentionState<P, R>)
    requires m.blockSize > 0 && l < |m.layers| && SameKind(m.layers[l].attention, s)
    ensures var (attended, last) := Prefilled(m.layers[l].attention, Normalized(m, l, rows), s);
      Scan(m, l, rows, s) == (Merged(m, l, rows, attended), last)
  {
    if rows != [] {
      var front, row := rows[..|rows| - 1], rows[|rows| - 1];
      ScanIsPrefill(m, l, front, s);
      NormalizedSnoc(m, l, rows);
      var (attended, middle) := Prefilled(m.layers[l].attention, Normalized(m, l, front), s);
      MergedSnoc(m, l, rows, attended, Decode(m.layers[l].attention, Normalized(m, l, rows)[|rows| - 1], middle).0);
    }
  }

  lemma NormalizedSnoc<V, P, R>(m: Model<V, P, R>, l: nat, rows: seq<Row<V>>)
    requires l < |m.layers| && rows != []
    ensures Normalized(m, l, rows)[..|rows| - 1] == Normalized(m, l, rows[..|rows| - 1])
  {
  }

  lemma MergedSnoc<V, P, R>(m: Model<V, P, R>, l: nat, rows: seq<Row<V>>, attended: seq<V>, output: V)
    requires m.blockSize > 0 && l < |m.layers| && |attended| + 1 == |rows|
    ensures Merged(m, l, rows, attended + [output]) ==
            Merged(m, l, rows[..|rows| - 1], attended) + [AfterAttention(m, l, rows[|rows| - 1], output)]
  {
  }

  datatype ModelState<P, R> = ModelState(attention: seq<AttentionState<P, R>>, position: nat)

  function Embedded<V, P, R>(m: Model<V, P, R>, tokens: seq<nat>): (rows: seq<Row<V>>)
    ensures |rows| == |tokens|
  {
    seq(|tokens|, i requires 0 <= i < |tokens| => Row(m.embed(tokens[i]), []))
  }

  /** Residual over all sources, final norm and output head of one finished row. */
  function Logits<V, P, R>(m: Model<V, P, R>, rows: seq<Row<V>>): (logits: seq<V>)
    ensures |logits| == |rows|
  {
    seq(|rows|, i requires 0 <= i < |rows| => m.finish(rows[i].hidden, rows[i].sources))
  }

  /** The reference forward pass: token by token. */
  function Forwarded<V, P, R>(m: Model<V, P, R>, tokens: seq<nat>, state: ModelState<P, R>)
      : (r: (seq<V>, ModelState<P, R>))
    requires m.blockSize > 0 && StatesFrom(m, 0, state.attention)
    ensures |r.0| == |tokens| && StatesFrom(m, 0, r.1.attention)
  {
    var (rows, states) := TokenMajor(m, Embedded(m, tokens), state.attention);
    (Logits(m, rows), ModelState(states, state.position + |tokens|))
  }

  /** One round of the loop over the layers. */
  method RunLayer<V, P, R>(m: Model<V, P, R>, l: nat, rows: seq<Row<V>>, s: AttentionState<P, R>)
      returns (ups: seq<Row<V>>, next: AttentionState<P, R>)
    requires m.blockSize > 0 && l < |m.layers| && SameKind(m.layers[l].attention, s)
    ensures (ups, next) == Scan(m, l, rows, s)
  {
    ScanIsPrefill(m, l, rows, s);
    var attended;
    attended, next := Prefill(m.layers[l].attention, Normalized(m, l, rows), s);
    ups := Merged(m, l, rows, attended);
  }

  /** The layers from `l` on will complete what the ones before have left. */
  ghost predicate OnTheWay<V, P, R>(m: Model<V, P, R>, l: nat, rows: seq<Row<V>>, pending: seq<AttentionState<P, R>>,
                                    done: seq<AttentionState<P, R>>, tops: seq<Row<V>>,
                                    last: seq<AttentionState<P, R>>)
  {
    && m.blockSize > 0 && StatesFrom(m, l, pending)
    && LayerMajor(m, l, rows, pending).0 == tops
    && done + LayerMajor(m, l, rows, pending).1 == last
  }

  lemma LayerDone<V, P, R>(m: Model<V, P, R>, l: nat, rows: seq<Row<V>>, pending: seq<AttentionState<P, R>>,
                           done: seq<AttentionState<P, R>>, tops: seq<Row<V>>, last: seq<AttentionState<P, R>>,
                           ups: seq<Row<V>>, next: AttentionState<P, R>)
    requires OnTheWay(m, l, rows, pending, done, tops, last) && pending != []
    requires (ups, next) == Scan(m, l, rows, pending[0])
    ensures OnTheWay(m, l + 1, ups, pending[1..], done + [next], tops, last)
  {
    Associates(done, [next], LayerMajor(m, l + 1, ups, pending[1..]).1);
  }

  /** The loop over the layers; it stops at a state of the wrong kind. */
  method RunLayers<V, P, R>(m: Model<V, P, R>, rows: seq<Row<V>>, states: seq<AttentionState<P, R>>)
      returns (r: Option<(seq<Row<V>>, seq<AttentionState<P, R>>)>)
    requires m.blockSize > 0 && |states| == |m.layers|
    ensures r.Some? <==> StatesFrom(m, 0, states)
    ensures r.Some? ==> r.value == TokenMajor(m, rows, states)
  {
    ghost var fits := StatesFrom(m, 0, states);
    ghost var tops, last := rows, states;
    if fits {
      LoopInterchange(m, rows, states);
      tops, last := LayerMajor(m, 0, rows, states).0, LayerMajor(m, 0, rows, states).1;
      assert [] + last == last;
    }
    var current, pending, done := rows, states, [];
    var l: nat := 0;
    while pending != []
      invariant l + |pending| == |m.layers|
      invariant fits <==> StatesFrom(m, l, pending)
      invariant fits ==> OnTheWay(m, l, current, pending, done, tops, last)
      decreases |pending|
    {
      if !SameKind(m.layers[l].attention, pending[0]) {
        return None;
      }
      var ups, next := RunLayer(m, l, current, pending[0]);
      if fits {
        LayerDone(m, l, current, pending, done, tops, last, ups, next);
      }
      current, pending, done := ups, pending[1..], done + [next];
      l := l + 1;
    }
    assert done + [] == done;
    return Some((current, done));
  }

  function Current<V, P, R>(m: Model<V, P, R>, state: Option<ModelState<P, R>>): ModelState<P, R> {
    if state.Some? then state.value else ModelState(m.empty, 0)
  }

  /** `_forward`: layer by layer over the whole chunk. */
  method Forward<V, P, R>(m: Model<V, P, R>, tokens: seq<nat>, state: Option<ModelState<P, R>>)
      returns (r: Result<(seq<V>, ModelState<P, R>)>)
    requires m.blockSize > 0 && tokens != []
    ensures var current := Current(m, state);
      if StatesFrom(m, 0, current.attention) then r == Success(Forwarded(m, tokens, current)) else r.Failure?
  {
    var current := Current(m, state);
    if |current.attention| != |m.layers| {
      WrongCount(m, current.attention);
      return Failure("state layer count mismatch");
    }
    var run := RunLayers(m, Embedded(m, tokens), current.attention);
    if run.None? {
      return Failure("layer weight or state type mismatch");
    }
    var (rows, next) := run.value;
    RowsOfForwarded(m, tokens, current, rows, next);
    return Success((Logits(m, rows), ModelState(next, current.position + |tokens|)));
  }

  lemma RowsOfForwarded<V, P, R>(m: Model<V, P, R>, tokens: seq<nat>, current: ModelState<P, R>, rows: seq<Row<V>>,
                                 next: seq<AttentionState<P, R>>)
    requires m.blockSize > 0 && StatesFrom(m, 0, current.attention)
    requires (rows, next) == TokenMajor(m, Embedded(m, tokens), current.attention)
    ensures Forwarded(m, tokens, current) == (Logits(m, rows), ModelState(next, current.position + |tokens|))
  {
  }

  lemma WrongCount<V, P, R>(m: Model<V, P, R>, states: seq<AttentionState<P, R>>)
    requires |states| != |m.layers|
    ensures !StatesFrom(m, 0, states)
  {
    if StatesFrom(m, 0, states) {
      CountMatters(m, 0, states);
    }
  }

  lemma {:induction false} CountMatters<V, P, R>(m: Model<V, P, R>, l: nat, states: seq<AttentionState<P, R>>)
    requires StatesFrom(m, l, states)
    ensures l + |states| == |m.layers|
    decreases |states|
  {
    if states != [] {
      CountMatters(m, l + 1, states[1..]);
    }
  }

  // ----- Greedy decoding -----

  /** Splitting the tokens anywhere and handing the model state on changes nothing. */
  lemma ChunksAgree<V, P, R>(m: Model<V, P, R>, a: seq<nat>, b: seq<nat>, state: ModelState<P, R>)
    requires m.blockSize > 0 && StatesFrom(m, 0, state.attention)
    ensures var (first, middle) := Forwarded(m, a, state); var (second, last) := Forwarded(m, b, middle);
      Forwarded(m, a + b, state) == (first + second, last)
  {
    var left, right, all := Embedded(m, a), Embedded(m, b), Embedded(m, a + b);
    EmbeddedJoins(m, a, b);
    SplitRows(m, left, right, state.attention);
    var (rows, middle) := TokenMajor(m, left, state.attention);
    var (more, last) := TokenMajor(m, right, middle);
    assert TokenMajor(m, all, state.attention) == (rows + more, last);
    LogitsJoin(m, rows, more);
  }

  /** A prompt in chunks, one call after the other. */
  function ForwardedChunks<V, P, R>(m: Model<V, P, R>, chunks: seq<seq<nat>>, state: ModelState<P, R>)
      : (r: (seq<V>, ModelState<P, R>))
    requires m.blockSize > 0 && StatesFrom(m, 0, state.attention)
    ensures StatesFrom(m, 0, r.1.attention)
  {
    if chunks == [] then ([], state)
    else
      var (logits, middle) := ForwardedChunks(m, chunks[..|chunks| - 1], state);
      var (more, last) := Forwarded(m, chunks[|chunks| - 1], middle);
      (logits + more, last)
  }

  /** However a prompt is cut up, the chunks give the logits and leave the state of the whole. */
  lemma {:induction false} AnyChunksAgree<V, P, R>(m: Model<V, P, R>, chunks: seq<seq<nat>>, state: ModelState<P, R>)
    requires m.blockSize > 0 && StatesFrom(m, 0, state.attention)
    ensures ForwardedChunks(m, chunks, state) == Forwarded(m, Stacking.Stack(chunks), state)
  {
    if chunks == [] {
      NoTokens(m, state);
    } else {
      var front, last := chunks[..|chunks| - 1], chunks[|chunks| - 1];
      AnyChunksAgree(m, front, state);
      ChunksAgree(m, Stacking.Stack(front), last, state);
    }
  }

  lemma NoTokens<V, P, R>(m: Model<V, P, R>, state: ModelState<P, R>)
    requires m.blockSize > 0 && StatesFrom(m, 0, state.attention)
    ensures Forwarded(m, [], state) == ([], state)
  {
    var none: seq<nat> := [];
    assert Embedded(m, none) == [];
  }

  lemma EmbeddedJoins<V, P, R>(m: Model<V, P, R>, a: seq<nat>, b: seq<nat>)
    ensures Embedded(m, a + b) == Embedded(m, a) + Embedded(m, b)
  {
  }

  lemma LogitsJoin<V, P, R>(m: Model<V, P, R>, a: seq<Row<V>>, b: seq<Row<V>>)
    ensures Logits(m, a + b) == Logits(m, a) + Logits(m, b)
  {
  }

  function Absorbed<V, P, R>(m: Model<V, P, R>, tokens: seq<nat>): (r: (seq<V>, ModelState<P, R>))
    requires m.blockSize > 0 && StatesFrom(m, 0, m.empty)
    ensures |r.0| == |tokens| && StatesFrom(m, 0, r.1.attention)
  {
    Forwarded(m, tokens, ModelState(m.empty, 0))
  }

  /** The greedy continuation of a prompt: each token is the choice after everything before it. */
  function Continuation<V, P, R>(m: Model<V, P, R>, prompt: seq<nat>, count: nat): (tokens: seq<nat>)
    requires m.blockSize > 0 && StatesFrom(m, 0, m.empty) && prompt != []
    ensures |tokens| == count
  {
    if count == 0 then []
    else
      var before := Continuation(m, prompt, count - 1);
      before + [Choice(m, prompt + before)]
  }

  function Choice<V, P, R>(m: Model<V, P, R>, context: seq<nat>): nat
    requires m.blockSize > 0 && StatesFrom(m, 0, m.empty) && context != []
  {
    m.argmax(Absorbed(m, context).0[|context| - 1])
  }

  /** Reading one more token from the state gives the logits of the whole context. */
  lemma OneMore<V, P, R>(m: Model<V, P, R>, context: seq<nat>, token: nat)
    requires m.blockSize > 0 && StatesFrom(m, 0, m.empty)
    ensures var (logits, state) := Forwarded(m, [token], Absorbed(m, context).1);
      && Choice(m, context + [token]) == m.argmax(logits[0])
      && state == Absorbed(m, context + [token]).1
      && state.position == |context| + 1
  {
    ChunksAgree(m, context, [token], ModelState(m.empty, 0));
  }

  /** The logits and the state after `context`. */
  ghost predicate Ready<V, P, R>(m: Model<V, P, R>, context: seq<nat>, logits: V, state: ModelState<P, R>) {
    && m.blockSize > 0 && StatesFrom(m, 0, m.empty) && context != []
    && m.argmax(logits) == Choice(m, context) && state == Absorbed(m, context).1
  }

  /** `decode`: one token on top of everything that has been read. */
  method DecodeNext<V, P, R>(m: Model<V, P, R>, ghost context: seq<nat>, token: nat, state: ModelState<P, R>)
      returns (logits: V, next: ModelState<P, R>)
    requires m.blockSize > 0 && StatesFrom(m, 0, m.empty) && state == Absorbed(m, context).1
    ensures Ready(m, context + [token], logits, next)
  {
    OneMore(m, context, token);
    var decoded := Forward(m, [token], Some(state));
    logits, next := decoded.value.0[0], decoded.value.1;
  }

  lemma ContinuationGrows<V, P, R>(m: Model<V, P, R>, prompt: seq<nat>, count: nat, context: seq<nat>)
    requires m.blockSize > 0 && StatesFrom(m, 0, m.empty) && prompt != []
    requires context == prompt + Continuation(m, prompt, count)
    ensures Continuation(m, prompt, count + 1) == Continuation(m, prompt, count) + [Choice(m, context)]
    ensures context + [Choice(m, context)] == prompt + Continuation(m, prompt, count + 1)
  {
  }

  /** Prefill once, then one token at a time. */
  method GenerateIncremental<V, P, R>(m: Model<V, P, R>, prompt: seq<nat>, count: nat) returns (generated: seq<nat>)
    requires m.blockSize > 0 && StatesFrom(m, 0, m.empty) && prompt != [] && count > 0
    ensures generated == Continuation(m, prompt, count)
  {
    generated := [];
    var prefilled := Forward(m, prompt, None);
    var logits, state := prefilled.value.0[|prompt| - 1], prefilled.value.1;
    ghost var context := prompt;
    for index := 0 to count
      invariant generated == Continuation(m, prompt, index) && context == prompt + generated
      invariant index < count ==> Ready(m, context, logits, state)
    {
      var token := m.argmax(logits);
      ContinuationGrows(m, prompt, index, context);
      generated := generated + [token];
      if index + 1 < count {
        logits, state := DecodeNext(m, context, token, state);
      }
      context := context + [token];
    }
  }

  /** The whole sequence again for every token. */
  method GenerateFromScratch<V, P, R>(m: Model<V, P, R>, prompt: seq<nat>, count: nat) returns (generated: seq<nat>)
    requires m.blockSize > 0 && StatesFrom(m, 0, m.empty) && prompt != []
    ensures generated == Continuation(m, prompt, count)
  {
    generated := [];
    var sequence := prompt;
    for index := 0 to count
      invariant generated == Continuation(m, prompt, index) && sequence == prompt + generated
    {
      var run := Forward(m, sequence, None);
      var token := m.argmax(run.value.0[|sequence| - 1]);
      assert token == Choice(m, sequence);
      ContinuationGrows(m, prompt, index, sequence);
      generated, sequence := generated + [token], sequence + [token];
    }
  }

  /** Both modes give the same tokens, for every prompt and count. */
  method GenerateGreedy<V, P, R>(m: Model<V, P, R>, prompt: seq<nat>, count: int, incremental: bool)
      returns (r: Result<seq<nat>>)
    requires m.blockSize > 0 && StatesFrom(m, 0, m.empty)
    ensures r == if prompt == [] || count < 0 then Failure("prompt_ids must be non-empty and count non-negative")
                 else Success(Continuation(m, prompt, count))
  {
    if prompt == [] || count < 0 {
      return Failure("prompt_ids must be non-empty and count non-negative");
    }
    if count == 0 {
      return Success([]);
    }
    var generated;
    if incremental {
      generated := GenerateIncremental(m, prompt, count);
    } else {
      generated := GenerateFromScratch(m, prompt, count);
    }
    return Success(generated);
  }
}
