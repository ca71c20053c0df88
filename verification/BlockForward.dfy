/**
 The expert-major block of the target: all tokens of a block through one layer before the next, a
 snapshot of every state after every token, each expert once over all tokens that chose it. It gives the
 logits and the states of reading the tokens one by one, so a block verifies like single steps do.
 */
module BlockForward {
  import opened Wrappers
  import opened Engine
  import opened Scheduler
  import opened Providers
  import opened Speculative
  import opened ExpertPlan

  /** Hidden vector of a position on its way up, and the residual sources it has collected. */
  datatype Row = Row(hidden: Vec, sources: seq<Vec>)

  /** What MLA makes of a row: its output and what it appends to its caches. */
  datatype MlaRow = MlaRow(attention: Vec, keys: Vec, values: Vec, sharedKeys: Vec)

  /** The tensor kernels, as functions of one row: KDA layers and one MLA layer on top of them. */
  datatype Kernels = Kernels(
    vocab: nat, topK: nat, emptyKda: seq<Vec>, residualBlock: nat, embed: nat -> Vec,
    residual: (nat, Vec, seq<Vec>) -> Vec, norm: (nat, Vec) -> Vec,
    kda: (nat, Vec, Vec) -> (Vec, Vec), mla: (Vec, MlaState) -> MlaRow, add: (Vec, Vec) -> Vec,
    ffnInput: (nat, Vec, seq<Vec>) -> Vec, dense: Vec -> Vec,
    route: (nat, Vec) -> seq<Slot>, latent: (nat, Vec) -> Vec, expert: (nat, nat, Vec) -> Vec,
    mix: (nat, seq<Slot>, seq<Vec>) -> Vec, shared: (nat, Vec) -> Vec, logits: Row -> Vec)

  ghost predicate KernelsOk(k: Kernels) {
    k.vocab > 0 && k.residualBlock > 0 && forall row: Row :: |k.logits(row)| == k.vocab
  }

  // ----- One row through one layer -----

  function AttentionInput(k: Kernels, l: nat, row: Row): Vec {
    k.norm(l, if row.sources == [] then row.hidden else k.residual(l, row.hidden, row.sources))
  }

  /** Every `residualBlock`-th layer keeps the hidden vector as a source and starts a new sum. */
  function Summed(k: Kernels, l: nat, row: Row, attention: Vec): Row
    requires k.residualBlock > 0
  {
    if l % k.residualBlock == 0 then Row(attention, row.sources + [row.hidden])
    else Row(k.add(row.hidden, attention), row.sources)
  }

  function KdaStep(k: Kernels, l: nat, row: Row, s: Vec): (Row, Vec)
    requires k.residualBlock > 0
  {
    var (attention, next) := k.kda(l, AttentionInput(k, l, row), s);
    (Summed(k, l, row, attention), next)
  }

  function Appended(s: MlaState, r: MlaRow): MlaState {
    MlaState(s.keys + r.keys, s.values + r.values, s.sharedKeys + r.sharedKeys, s.length + 1)
  }

  function MlaRowOf(k: Kernels, l: nat, row: Row, s: MlaState): MlaRow {
    k.mla(AttentionInput(k, l, row), s)
  }

  function MlaStep(k: Kernels, l: nat, row: Row, s: MlaState): (Row, MlaState)
    requires k.residualBlock > 0
  {
    var r := MlaRowOf(k, l, row, s);
    (Summed(k, l, row, r.attention), Appended(s, r))
  }

  function FfnInput(k: Kernels, l: nat, mid: Row): Vec {
    k.ffnInput(l, mid.hidden, mid.sources)
  }

  function ExpertsOf(k: Kernels, l: nat): (nat, Vec) -> Vec {
    (id: nat, x: Vec) => k.expert(l, id, x)
  }

  /** The mixture of one token: its routed experts in slot order, then the shared one. */
  function Mixture(k: Kernels, l: nat, x: Vec): Vec {
    var route := k.route(l, x);
    k.add(k.mix(l, route, WantedBy(route, k.latent(l, x), ExpertsOf(k, l))), k.shared(l, x))
  }

  /** The first layer is dense, all others are mixtures of experts. */
  function Fed(k: Kernels, l: nat, mid: Row): Row {
    var x := FfnInput(k, l, mid);
    Row(k.add(mid.hidden, if l == 0 then k.dense(x) else Mixture(k, l, x)), mid.sources)
  }

  // ----- Token by token: the decoder -----

  /** A row through the KDA layers from `l` on, with their states. */
  function Up(k: Kernels, l: nat, row: Row, kda: seq<Vec>): (r: (Row, seq<Vec>))
    requires k.residualBlock > 0
    decreases |kda|
  {
    if kda == [] then (row, [])
    else
      var (mid, next) := KdaStep(k, l, row, kda[0]);
      var (top, rest) := Up(k, l + 1, Fed(k, l, mid), kda[1..]);
      (top, [next] + rest)
  }

  function Kernel(k: Kernels, token: nat, s: ModelState): Pass
    requires k.residualBlock > 0
  {
    var (row, kda) := Up(k, 0, Row(k.embed(token), []), s.kda);
    var r := MlaRowOf(k, |s.kda|, row, s.mla);
    Pass(k.logits(Fed(k, |s.kda|, MlaStep(k, |s.kda|, row, s.mla).0)), kda, r.keys, r.values, r.sharedKeys)
  }

  function EngineOf(k: Kernels): (e: Engine)
    requires KernelsOk(k)
    ensures e.vocab == k.vocab
  {
    Decoder(k.vocab, k.emptyKda, (token: nat, s: ModelState) => Kernel(k, token, s))
  }

  // ----- The grid of layers and positions -----

  datatype Block = Block(k: Kernels, s: ModelState, tokens: seq<nat>)

  /** The row entering layer `l` at position `i`. */
  function RowAt(b: Block, l: nat, i: nat): Row
    requires b.k.residualBlock > 0 && l <= |b.s.kda| && i < |b.tokens|
    decreases l + i, 0
  {
    if l == 0 then Row(b.k.embed(b.tokens[i]), [])
    else Fed(b.k, l - 1, KdaStep(b.k, l - 1, RowAt(b, l - 1, i), StateAt(b, l - 1, i)).0)
  }

  /** The state of KDA layer `l` before position `i`. */
  function StateAt(b: Block, l: nat, i: nat): Vec
    requires b.k.residualBlock > 0 && l < |b.s.kda| && i <= |b.tokens|
    decreases l + i, 1
  {
    if i == 0 then b.s.kda[l] else KdaStep(b.k, l, RowAt(b, l, i - 1), StateAt(b, l, i - 1)).1
  }

  function MlaAt(b: Block, i: nat): MlaState
    requires b.k.residualBlock > 0 && i <= |b.tokens|
  {
    if i == 0 then b.s.mla else MlaStep(b.k, |b.s.kda|, RowAt(b, |b.s.kda|, i - 1), MlaAt(b, i - 1)).1
  }

  function TopAt(b: Block, i: nat): Row
    requires b.k.residualBlock > 0 && i < |b.tokens|
  {
    var n := |b.s.kda|;
    Fed(b.k, n, MlaStep(b.k, n, RowAt(b, n, i), MlaAt(b, i)).0)
  }

  /** The states of the KDA layers before position `i`. */
  function StatesAt(b: Block, i: nat): (states: seq<Vec>)
    requires b.k.residualBlock > 0 && i <= |b.tokens|
    ensures |states| == |b.s.kda| && forall l :: 0 <= l < |states| ==> states[l] == StateAt(b, l, i)
  {
    seq(|b.s.kda|, l requires 0 <= l < |b.s.kda| => StateAt(b, l, i))
  }

  /** The rows of position `i`, from the embedding up. */
  function ColumnAt(b: Block, i: nat): (rows: seq<Row>)
    requires b.k.residualBlock > 0 && i < |b.tokens|
    ensures |rows| == |b.s.kda| + 1 && forall l :: 0 <= l < |rows| ==> rows[l] == RowAt(b, l, i)
  {
    seq(|b.s.kda| + 1, l requires 0 <= l < |b.s.kda| + 1 => RowAt(b, l, i))
  }

  function ModelAt(b: Block, i: nat): ModelState
    requires b.k.residualBlock > 0 && i <= |b.tokens|
  {
    ModelState(StatesAt(b, i), MlaAt(b, i))
  }

  /** Rows and states of one position, layer upon layer from `l` on. */
  ghost predicate Column(k: Kernels, l: nat, rows: seq<Row>, before: seq<Vec>, after: seq<Vec>)
    requires k.residualBlock > 0
  {
    && |rows| == |before| + 1 && |after| == |before|
    && forall j :: 0 <= j < |before| ==> Cell(k, l + j, rows[j], before[j], rows[j + 1], after[j])
  }

  ghost predicate Cell(k: Kernels, l: nat, row: Row, before: Vec, up: Row, after: Vec)
    requires k.residualBlock > 0
  {
    up == Fed(k, l, KdaStep(k, l, row, before).0) && after == KdaStep(k, l, row, before).1
  }

  lemma ColumnAbove(k: Kernels, l: nat, rows: seq<Row>, before: seq<Vec>, after: seq<Vec>)
    requires k.residualBlock > 0 && Column(k, l, rows, before, after) && before != []
    ensures Column(k, l + 1, rows[1..], before[1..], after[1..])
    ensures Cell(k, l, rows[0], before[0], rows[1], after[0])
  {
    assert Cell(k, l + 0, rows[0], before[0], rows[0 + 1], after[0]);
    forall j | 0 <= j < |before| - 1
      ensures Cell(k, l + 1 + j, rows[1..][j], before[1..][j], rows[1..][j + 1], after[1..][j])
    {
      assert Cell(k, l + (1 + j), rows[1 + j], before[1 + j], rows[1 + j + 1], after[1 + j]);
    }
  }

  lemma UpOnce(k: Kernels, l: nat, row: Row, before: seq<Vec>, up: Row, next: Vec, top: Row, rest: seq<Vec>)
    requires k.residualBlock > 0 && before != [] && Cell(k, l, row, before[0], up, next)
    requires Up(k, l + 1, up, before[1..]) == (top, rest)
    ensures Up(k, l, row, before) == (top, [next] + rest)
  {
  }

  lemma {:induction false} UpTheColumn(k: Kernels, l: nat, rows: seq<Row>, before: seq<Vec>, after: seq<Vec>)
    requires k.residualBlock > 0 && Column(k, l, rows, before, after)
    ensures Up(k, l, rows[0], before) == (rows[|before|], after)
    decreases |before|
  {
    if before != [] {
      ColumnAbove(k, l, rows, before, after);
      UpTheColumn(k, l + 1, rows[1..], before[1..], after[1..]);
      UpOnce(k, l, rows[0], before, rows[1], after[0], rows[|before|], after[1..]);
      assert after == [after[0]] + after[1..];
    }
  }

  lemma OneCell(b: Block, l: nat, i: nat)
    requires b.k.residualBlock > 0 && l < |b.s.kda| && i < |b.tokens|
    ensures Cell(b.k, l, RowAt(b, l, i), StateAt(b, l, i), RowAt(b, l + 1, i), StateAt(b, l, i + 1))
  {
  }

  lemma ColumnOfGrid(b: Block, i: nat)
    requires b.k.residualBlock > 0 && i < |b.tokens|
    ensures Column(b.k, 0, ColumnAt(b, i), StatesAt(b, i), StatesAt(b, i + 1))
  {
    var rows, before, after := ColumnAt(b, i), StatesAt(b, i), StatesAt(b, i + 1);
    forall l | 0 <= l < |before|
      ensures Cell(b.k, 0 + l, rows[l], before[l], rows[l + 1], after[l])
    {
      OneCell(b, l, i);
    }
  }

  /** A position goes up its column of the grid. */
  lemma GoesUp(b: Block, i: nat)
    requires b.k.residualBlock > 0 && i < |b.tokens|
    ensures Up(b.k, 0, RowAt(b, 0, i), StatesAt(b, i)) == (RowAt(b, |b.s.kda|, i), StatesAt(b, i + 1))
  {
    ColumnOfGrid(b, i);
    UpTheColumn(b.k, 0, ColumnAt(b, i), StatesAt(b, i), StatesAt(b, i + 1));
  }

  lemma OneForward(k: Kernels, token: nat, s: ModelState, row: Row, kda: seq<Vec>)
    requires KernelsOk(k) && Up(k, 0, Row(k.embed(token), []), s.kda) == (row, kda)
    ensures var (mid, mla) := MlaStep(k, |s.kda|, row, s.mla);
      Forward(EngineOf(k), token, s) == (k.logits(Fed(k, |s.kda|, mid)), ModelState(kda, mla))
  {
  }

  lemma OneColumn(b: Block, i: nat)
    requires KernelsOk(b.k) && i < |b.tokens|
    ensures Forward(EngineOf(b.k), b.tokens[i], ModelAt(b, i)) == (b.k.logits(TopAt(b, i)), ModelAt(b, i + 1))
  {
    GoesUp(b, i);
    OneForward(b.k, b.tokens[i], ModelAt(b, i), RowAt(b, |b.s.kda|, i), StatesAt(b, i + 1));
  }

  lemma ReadsOneMore(e: Engine, s: ModelState, tokens: seq<nat>, i: nat, before: ModelState)
    requires i < |tokens| && Read(e, s, tokens[..i]).1 == before
    ensures Read(e, s, tokens[..i + 1]) == Forward(e, tokens[i], before)
  {
    assert tokens[..i + 1][..i] == tokens[..i];
  }

  /** Reading the tokens one by one fills the grid column by column. */
  lemma {:induction false} ReadIsGrid(b: Block, i: nat)
    requires KernelsOk(b.k) && i <= |b.tokens|
    ensures Read(EngineOf(b.k), b.s, b.tokens[..i]).1 == ModelAt(b, i)
    ensures i > 0 ==> Read(EngineOf(b.k), b.s, b.tokens[..i]).0 == b.k.logits(TopAt(b, i - 1))
  {
    if i == 0 {
      assert StatesAt(b, 0) == b.s.kda;
    } else {
      ReadIsGrid(b, i - 1);
      OneColumn(b, i - 1);
      ReadsOneMore(EngineOf(b.k), b.s, b.tokens, i - 1, ModelAt(b, i - 1));
    }
  }

  // ----- Layer by layer: the block -----

  function RowsOf(b: Block, l: nat): (rows: seq<Row>)
    requires b.k.residualBlock > 0 && l <= |b.s.kda|
    ensures |rows| == |b.tokens| && forall i :: 0 <= i < |rows| ==> rows[i] == RowAt(b, l, i)
  {
    seq(|b.tokens|, i requires 0 <= i < |b.tokens| => RowAt(b, l, i))
  }

  /** The rows after attention, before the feed-forward part. */
  function MidsOf(b: Block, l: nat): (mids: seq<Row>)
    requires b.k.residualBlock > 0 && l <= |b.s.kda|
    ensures |mids| == |b.tokens|
  {
    if l < |b.s.kda| then
      seq(|b.tokens|, i requires 0 <= i < |b.tokens| => KdaStep(b.k, l, RowAt(b, l, i), StateAt(b, l, i)).0)
    else
      seq(|b.tokens|, i requires 0 <= i < |b.tokens| => MlaStep(b.k, l, RowAt(b, l, i), MlaAt(b, i)).0)
  }

  function SnapshotsOf(b: Block, l: nat): (snapshots: seq<Vec>)
    requires b.k.residualBlock > 0 && l < |b.s.kda|
    ensures |snapshots| == |b.tokens| && forall i :: 0 <= i < |snapshots| ==> snapshots[i] == StateAt(b, l, i + 1)
  {
    seq(|b.tokens|, i requires 0 <= i < |b.tokens| => StateAt(b, l, i + 1))
  }

  /** The state before position `i`: the one given, or the snapshot after the position before. */
  function Prior<S>(s: S, snapshots: seq<S>, i: nat): S
    requires i <= |snapshots|
  {
    if i == 0 then s else snapshots[i - 1]
  }

  type Attention<!S> = (Row, S) -> (Row, S)

  function KdaLayer(k: Kernels, l: nat): Attention<Vec>
    requires k.residualBlock > 0
  {
    (row: Row, s: Vec) => KdaStep(k, l, row, s)
  }

  function MlaLayer(k: Kernels, l: nat): Attention<MlaState>
    requires k.residualBlock > 0
  {
    (row: Row, s: MlaState) => MlaStep(k, l, row, s)
  }

  /** Rows and snapshots of one layer, each from the snapshot before. */
  ghost predicate Scanned<S>(step: Attention<S>, rows: seq<Row>, s: S, mids: seq<Row>, snapshots: seq<S>) {
    && |mids| == |snapshots| <= |rows|
    && forall i :: 0 <= i < |mids| ==> step(rows[i], Prior(s, snapshots, i)) == (mids[i], snapshots[i])
  }

  /** The attention of one layer over all positions, its state kept after each of them. */
  method Attend<S>(step: Attention<S>, rows: seq<Row>, s: S) returns (mids: seq<Row>, snapshots: seq<S>)
    ensures Scanned(step, rows, s, mids, snapshots) && |mids| == |rows|
  {
    mids, snapshots := [], [];
    var working := s;
    for i := 0 to |rows|
      invariant |mids| == i && Scanned(step, rows, s, mids, snapshots)
      invariant working == Prior(s, snapshots, i)
    {
      var (mid, next) := step(rows[i], working);
      working := next;
      mids, snapshots := mids + [mid], snapshots + [next];
    }
  }

  /** The states along a layer are a row of the grid. */
  lemma {:induction false} KdaAlongTheGrid(b: Block, l: nat, mids: seq<Row>, snapshots: seq<Vec>, i: nat)
    requires b.k.residualBlock > 0 && l < |b.s.kda| && i < |b.tokens| == |mids|
    requires Scanned(KdaLayer(b.k, l), RowsOf(b, l), b.s.kda[l], mids, snapshots)
    ensures snapshots[i] == StateAt(b, l, i + 1)
    ensures mids[i] == KdaStep(b.k, l, RowAt(b, l, i), StateAt(b, l, i)).0
  {
    if i > 0 {
      KdaAlongTheGrid(b, l, mids, snapshots, i - 1);
    }
    assert Prior(b.s.kda[l], snapshots, i) == StateAt(b, l, i);
    OneCell(b, l, i);
  }

  lemma {:induction false} MlaAlongTheGrid(b: Block, mids: seq<Row>, snapshots: seq<MlaState>, i: nat)
    requires b.k.residualBlock > 0 && i < |b.tokens| == |mids|
    requires Scanned(MlaLayer(b.k, |b.s.kda|), RowsOf(b, |b.s.kda|), b.s.mla, mids, snapshots)
    ensures snapshots[i] == MlaAt(b, i + 1)
    ensures mids[i] == MlaStep(b.k, |b.s.kda|, RowAt(b, |b.s.kda|, i), MlaAt(b, i)).0
  {
    if i > 0 {
      MlaAlongTheGrid(b, mids, snapshots, i - 1);
    }
    assert Prior(b.s.mla, snapshots, i) == MlaAt(b, i);
    assert MlaStep(b.k, |b.s.kda|, RowAt(b, |b.s.kda|, i), MlaAt(b, i)) == (mids[i], snapshots[i]);
  }

  lemma KdaLayerIsGrid(b: Block, l: nat, mids: seq<Row>, snapshots: seq<Vec>)
    requires b.k.residualBlock > 0 && l < |b.s.kda| && |b.tokens| == |mids|
    requires Scanned(KdaLayer(b.k, l), RowsOf(b, l), b.s.kda[l], mids, snapshots)
    ensures mids == MidsOf(b, l) && snapshots == SnapshotsOf(b, l)
    ensures FedAll(b.k, l, mids) == RowsOf(b, l + 1)
  {
    forall i | 0 <= i < |mids|
      ensures mids[i] == MidsOf(b, l)[i] && snapshots[i] == SnapshotsOf(b, l)[i]
      ensures Fed(b.k, l, mids[i]) == RowAt(b, l + 1, i)
    {
      KdaAlongTheGrid(b, l, mids, snapshots, i);
      OneCell(b, l, i);
    }
  }

  lemma MlaLayerIsGrid(b: Block, mids: seq<Row>, snapshots: seq<MlaState>, rows: seq<Row>)
    requires b.k.residualBlock > 0 && |b.tokens| == |mids|
    requires Scanned(MlaLayer(b.k, |b.s.kda|), RowsOf(b, |b.s.kda|), b.s.mla, mids, snapshots)
    requires rows == FedAll(b.k, |b.s.kda|, mids)
    ensures mids == MidsOf(b, |b.s.kda|)
    ensures forall i :: 0 <= i < |mids| ==> snapshots[i] == MlaAt(b, i + 1) && rows[i] == TopAt(b, i)
  {
    forall i | 0 <= i < |mids|
      ensures mids[i] == MidsOf(b, |b.s.kda|)[i]
      ensures snapshots[i] == MlaAt(b, i + 1) && rows[i] == TopAt(b, i)
    {
      MlaAlongTheGrid(b, mids, snapshots, i);
    }
  }

  function RoutesOf(k: Kernels, l: nat, mids: seq<Row>): (routes: seq<seq<Slot>>)
    ensures |routes| == |mids|
    ensures forall i :: 0 <= i < |mids| ==> routes[i] == k.route(l, FfnInput(k, l, mids[i]))
  {
    seq(|mids|, i requires 0 <= i < |mids| => k.route(l, FfnInput(k, l, mids[i])))
  }

  function LatentsOf(k: Kernels, l: nat, mids: seq<Row>): (latents: seq<Vec>)
    ensures |latents| == |mids|
    ensures forall i :: 0 <= i < |mids| ==> latents[i] == k.latent(l, FfnInput(k, l, mids[i]))
  {
    seq(|mids|, i requires 0 <= i < |mids| => k.latent(l, FfnInput(k, l, mids[i])))
  }

  function FedAll(k: Kernels, l: nat, mids: seq<Row>): (rows: seq<Row>)
    ensures |rows| == |mids| && forall i :: 0 <= i < |mids| ==> rows[i] == Fed(k, l, mids[i])
  {
    seq(|mids|, i requires 0 <= i < |mids| => Fed(k, l, mids[i]))
  }

  ghost predicate FeedsWell(k: Kernels, l: nat, mids: seq<Row>) {
    l == 0 || GoodRoutes(RoutesOf(k, l, mids))
  }

  /** Expert loads and assignments. */
  datatype Load = Load(payloads: nat, assignments: nat)

  /** Every expert that is used is loaded once; every router slot is an assignment. */
  function LayerLoad(routes: seq<seq<Slot>>): Load {
    Load(|ExpertSet(routes)|, SlotsOf(routes))
  }

  function Plus(a: Load, b: Load): Load {
    Load(a.payloads + b.payloads, a.assignments + b.assignments)
  }

  /** The work of the first layers of a block; the lowest has no experts. */
  function LoadUpTo(b: Block, layers: nat): Load
    requires b.k.residualBlock > 0 && layers <= |b.s.kda| + 1
  {
    if layers <= 1 then Load(0, 0)
    else Plus(LoadUpTo(b, layers - 1), LayerLoad(RoutesOf(b.k, layers - 1, MidsOf(b, layers - 1))))
  }

  function BlockLoad(b: Block): Load
    requires b.k.residualBlock > 0
  {
    LoadUpTo(b, |b.s.kda| + 1)
  }

  lemma WorkOfPlan(p: Plan, routes: seq<seq<Slot>>)
    requires PlanOf(p, routes)
    ensures Load(|p.groups|, p.count) == LayerLoad(routes)
  {
    GroupsAreExperts(p, routes);
  }

  /** The mixture of all positions, expert by expert. */
  method FeedExperts(k: Kernels, l: nat, mids: seq<Row>) returns (r: Result<(seq<Row>, Load)>)
    requires l > 0
    ensures r.Success? <==> GoodRoutes(RoutesOf(k, l, mids))
    ensures r.Success? ==> r.value == (FedAll(k, l, mids), LayerLoad(RoutesOf(k, l, mids)))
  {
    var routes, latents := RoutesOf(k, l, mids), LatentsOf(k, l, mids);
    var plan :- BuildPlan(routes);
    WorkOfPlan(plan, routes);
    var outputs := RunPlan(plan, routes, latents, ExpertsOf(k, l), []);
    var rows: seq<Row> := [];
    for i := 0 to |mids|
      invariant rows == FedAll(k, l, mids)[..i]
    {
      var x := FfnInput(k, l, mids[i]);
      assert outputs[i] == WantedBy(routes[i], latents[i], ExpertsOf(k, l));
      var output := k.add(k.mix(l, routes[i], outputs[i]), k.shared(l, x));
      rows := rows + [Row(k.add(mids[i].hidden, output), mids[i].sources)];
    }
    assert rows == FedAll(k, l, mids);
    return Success((rows, Load(|plan.groups|, plan.count)));
  }

  method FeedDense(k: Kernels, mids: seq<Row>) returns (rows: seq<Row>)
    ensures rows == FedAll(k, 0, mids)
  {
    rows := [];
    for i := 0 to |mids|
      invariant rows == FedAll(k, 0, mids)[..i]
    {
      rows := rows + [Row(k.add(mids[i].hidden, k.dense(FfnInput(k, 0, mids[i]))), mids[i].sources)];
    }
  }

  method Feed(k: Kernels, l: nat, mids: seq<Row>, before: Load) returns (r: Result<(seq<Row>, Load)>)
    ensures r.Success? <==> FeedsWell(k, l, mids)
    ensures r.Success? ==> r.value.0 == FedAll(k, l, mids)
    ensures r.Success? ==> r.value.1 == if l == 0 then before else Plus(before, LayerLoad(RoutesOf(k, l, mids)))
  {
    if l == 0 {
      var rows := FeedDense(k, mids);
      return Success((rows, before));
    }
    var fed :- FeedExperts(k, l, mids);
    var (rows, load) := fed;
    return Success((rows, Plus(before, load)));
  }

  ghost predicate PlannableAt(b: Block, l: nat)
    requires b.k.residualBlock > 0 && l <= |b.s.kda|
  {
    FeedsWell(b.k, l, MidsOf(b, l))
  }

  /** Every mixture of the block has routes to plan. */
  ghost predicate Plannable(b: Block, layers: nat)
    requires b.k.residualBlock > 0 && layers <= |b.s.kda| + 1
  {
    forall l :: 0 <= l < layers ==> PlannableAt(b, l)
  }

  ghost predicate SnapshotsTaken(b: Block, snapshots: seq<seq<Vec>>)
    requires b.k.residualBlock > 0
  {
    |snapshots| <= |b.s.kda| && forall l :: 0 <= l < |snapshots| ==> snapshots[l] == SnapshotsOf(b, l)
  }

  lemma OneMorePlanned(b: Block, layers: nat)
    requires b.k.residualBlock > 0 && layers <= |b.s.kda|
    ensures Plannable(b, layers + 1) <==> Plannable(b, layers) && FeedsWell(b.k, layers, MidsOf(b, layers))
  {
    assert PlannableAt(b, layers) == FeedsWell(b.k, layers, MidsOf(b, layers));
  }

  lemma StillPlannable(b: Block, l: nat, layers: nat)
    requires b.k.residualBlock > 0 && l < layers <= |b.s.kda| + 1
    ensures Plannable(b, layers) ==> FeedsWell(b.k, l, MidsOf(b, l))
  {
    assert Plannable(b, layers) ==> PlannableAt(b, l);
  }

  lemma OneMoreSnapshot(b: Block, snapshots: seq<seq<Vec>>, states: seq<Vec>)
    requires b.k.residualBlock > 0 && SnapshotsTaken(b, snapshots) && |snapshots| < |b.s.kda|
    requires states == SnapshotsOf(b, |snapshots|)
    ensures SnapshotsTaken(b, snapshots + [states])
  {
  }

  function Embedded(k: Kernels, tokens: seq<nat>): (rows: seq<Row>)
    ensures |rows| == |tokens| && forall i :: 0 <= i < |rows| ==> rows[i] == Row(k.embed(tokens[i]), [])
  {
    seq(|tokens|, i requires 0 <= i < |tokens| => Row(k.embed(tokens[i]), []))
  }

  lemma EmbeddedRows(b: Block)
    requires b.k.residualBlock > 0
    ensures Embedded(b.k, b.tokens) == RowsOf(b, 0)
  {
  }

  /** What the layers so far have left: the rows above them, the snapshots, and the expert work. */
  datatype Progress = Progress(rows: seq<Row>, snapshots: seq<seq<Vec>>, load: Load)

  ghost predicate Reached(b: Block, l: nat, p: Progress)
    requires b.k.residualBlock > 0 && l <= |b.s.kda|
  {
    && p.rows == RowsOf(b, l) && |p.snapshots| == l && SnapshotsTaken(b, p.snapshots)
    && p.load == LoadUpTo(b, l) && Plannable(b, l)
  }

  /** One KDA layer of the block. */
  method RunKdaLayer(ghost b: Block, k: Kernels, l: nat, s: Vec, before: Progress) returns (r: Result<Progress>)
    requires b.k == k && k.residualBlock > 0 && l < |b.s.kda| && s == b.s.kda[l] && Reached(b, l, before)
    ensures r.Success? ==> Reached(b, l + 1, r.value)
    ensures r.Failure? ==> !Plannable(b, |b.s.kda|)
  {
    var mids, states := Attend(KdaLayer(k, l), before.rows, s);
    KdaLayerIsGrid(b, l, mids, states);
    OneMorePlanned(b, l);
    StillPlannable(b, l, |b.s.kda|);
    OneMoreSnapshot(b, before.snapshots, states);
    var fed :- Feed(k, l, mids, before.load);
    return Success(Progress(fed.0, before.snapshots + [states], fed.1));
  }

  /** The KDA layers of the block, with a snapshot of every state after every position. */
  method RunKdaLayers(ghost b: Block, k: Kernels, tokens: seq<nat>, kda: seq<Vec>) returns (r: Result<Progress>)
    requires b.k == k && k.residualBlock > 0 && b.tokens == tokens && b.s.kda == kda
    ensures r.Success? ==> Reached(b, |kda|, r.value)
    ensures r.Failure? ==> !Plannable(b, |kda|)
  {
    EmbeddedRows(b);
    var progress := Progress(Embedded(k, tokens), [], Load(0, 0));
    for l := 0 to |kda|
      invariant Reached(b, l, progress)
    {
      progress :- RunKdaLayer(b, k, l, kda[l], progress);
    }
    return Success(progress);
  }

  /** The state after position `i`, put together from the snapshots of all layers. */
  function Snapshot(kda: seq<seq<Vec>>, mla: seq<MlaState>, i: nat): ModelState
    requires i < |mla| && forall l :: 0 <= l < |kda| ==> i < |kda[l]|
  {
    ModelState(seq(|kda|, l requires 0 <= l < |kda| => kda[l][i]), mla[i])
  }

  /** What reading the tokens one by one gives after position `i`. */
  ghost predicate ReadsTo(k: Kernels, s: ModelState, tokens: seq<nat>, i: nat, logits: Vec, state: ModelState)
    requires KernelsOk(k) && i < |tokens|
  {
    (logits, state) == Read(EngineOf(k), s, tokens[..i + 1])
  }

  ghost predicate AllRead(k: Kernels, s: ModelState, tokens: seq<nat>, logits: seq<Vec>, states: seq<ModelState>)
    requires KernelsOk(k)
  {
    && |logits| == |states| <= |tokens|
    && forall i :: 0 <= i < |logits| ==> ReadsTo(k, s, tokens, i, logits[i], states[i])
  }

  lemma OneMoreRead(k: Kernels, s: ModelState, tokens: seq<nat>, logits: seq<Vec>, states: seq<ModelState>, top: Vec,
                    state: ModelState)
    requires KernelsOk(k) && AllRead(k, s, tokens, logits, states) && |logits| < |tokens|
    requires ReadsTo(k, s, tokens, |logits|, top, state)
    ensures AllRead(k, s, tokens, logits + [top], states + [state])
  {
  }

  lemma SnapshotIsModel(b: Block, kda: seq<seq<Vec>>, mla: seq<MlaState>, i: nat)
    requires b.k.residualBlock > 0 && |kda| == |b.s.kda| && SnapshotsTaken(b, kda) && i < |b.tokens| == |mla|
    requires mla[i] == MlaAt(b, i + 1)
    ensures Snapshot(kda, mla, i) == ModelAt(b, i + 1)
  {
    assert Snapshot(kda, mla, i).kda == StatesAt(b, i + 1);
  }

  lemma SnapshotReads(b: Block, rows: seq<Row>, kda: seq<seq<Vec>>, mla: seq<MlaState>, i: nat)
    requires KernelsOk(b.k) && |kda| == |b.s.kda| && SnapshotsTaken(b, kda) && i < |b.tokens| == |mla| == |rows|
    requires mla[i] == MlaAt(b, i + 1) && rows[i] == TopAt(b, i)
    ensures ReadsTo(b.k, b.s, b.tokens, i, b.k.logits(rows[i]), Snapshot(kda, mla, i))
  {
    ReadIsGrid(b, i + 1);
    SnapshotIsModel(b, kda, mla, i);
  }

  /** The last layer and the logits. */
  method Finish(ghost b: Block, k: Kernels, rows: seq<Row>, kda: seq<seq<Vec>>, mla: seq<MlaState>)
      returns (logits: seq<Vec>, states: seq<ModelState>)
    requires b.k == k && KernelsOk(k) && |kda| == |b.s.kda| && SnapshotsTaken(b, kda)
    requires |b.tokens| == |mla| == |rows|
    requires forall i :: 0 <= i < |mla| ==> mla[i] == MlaAt(b, i + 1) && rows[i] == TopAt(b, i)
    ensures |logits| == |b.tokens| && AllRead(k, b.s, b.tokens, logits, states)
  {
    logits, states := [], [];
    for i := 0 to |rows|
      invariant |logits| == i && AllRead(k, b.s, b.tokens, logits, states)
    {
      SnapshotReads(b, rows, kda, mla, i);
      var top, state := k.logits(rows[i]), Snapshot(kda, mla, i);
      OneMoreRead(k, b.s, b.tokens, logits, states, top, state);
      logits, states := logits + [top], states + [state];
    }
  }

  /** Logits and states after every position, and the expert work. */
  datatype BlockResult = BlockResult(logits: seq<Vec>, states: seq<ModelState>, work: Load)

  predicate Known(k: Kernels, tokens: seq<nat>) {
    forall i :: 0 <= i < |tokens| ==> tokens[i] < k.vocab
  }

  /** `forward_expert_major_block`: what reading the tokens one by one gives, after each of them. */
  method ForwardExpertMajorBlock(k: Kernels, tokens: seq<nat>, s: ModelState) returns (r: Result<BlockResult>)
    requires KernelsOk(k)
    ensures r.Success? <==> tokens != [] && Known(k, tokens) && Plannable(Block(k, s, tokens), |s.kda| + 1)
    ensures r.Success? ==>
      && |r.value.logits| == |r.value.states| == |tokens|
      && r.value.work == BlockLoad(Block(k, s, tokens))
      && forall i :: 0 <= i < |tokens| ==> ReadsTo(k, s, tokens, i, r.value.logits[i], r.value.states[i])
  {
    if tokens == [] || !Known(k, tokens) {
      return Failure("invalid_extent");
    }
    ghost var b := Block(k, s, tokens);
    OneMorePlanned(b, |s.kda|);
    var below :- RunKdaLayers(b, k, tokens, s.kda);
    var mids, mla := Attend(MlaLayer(k, |s.kda|), below.rows, s.mla);
    MlaLayerIsGrid(b, mids, mla, FedAll(k, |s.kda|, mids));
    var fed :- Feed(k, |s.kda|, mids, below.load);
    var logits, states := Finish(b, k, fed.0, below.snapshots, mla);
    return Success(BlockResult(logits, states, fed.1));
  }

  // ----- Verification of a block -----

  /** Reading on from the state after some tokens is reading all of them. */
  lemma {:induction false} ReadOn(e: Engine, before: seq<nat>, tokens: seq<nat>)
    ensures Read(e, Absorb(e, before).1, tokens).1 == Absorb(e, before + tokens).1
    ensures tokens != [] ==> Read(e, Absorb(e, before).1, tokens) == Absorb(e, before + tokens)
    decreases |tokens|
  {
    if tokens == [] {
      assert before + tokens == before;
    } else {
      var front, token := tokens[..|tokens| - 1], tokens[|tokens| - 1];
      ReadOn(e, before, front);
      assert before + tokens == (before + front) + [token];
      AbsorbMore(e, before + front, token);
    }
  }

  lemma BlockIsRead(k: Kernels, before: seq<nat>, tokens: seq<nat>, result: BlockResult, targets: seq<nat>)
    requires KernelsOk(k) && |result.logits| == |result.states| == |targets| == |tokens|
    requires forall i :: 0 <= i < |tokens| ==>
      && ReadsTo(k, Absorb(EngineOf(k), before).1, tokens, i, result.logits[i], result.states[i])
      && |result.logits[i]| == k.vocab && targets[i] == ArgMax(result.logits[i])
    ensures BlockRead(EngineOf(k), before, tokens, targets, result.states)
  {
    forall i | 0 <= i < |tokens|
      ensures result.states[i] == Absorb(EngineOf(k), before + tokens[..i + 1]).1
      ensures result.logits[i] == Absorb(EngineOf(k), before + tokens[..i + 1]).0
    {
      ReadOn(EngineOf(k), before, tokens[..i + 1]);
    }
  }

  method Targets(k: Kernels, ghost s: ModelState, ghost tokens: seq<nat>, logits: seq<Vec>, ghost states: seq<ModelState>)
      returns (targets: seq<nat>)
    requires KernelsOk(k) && |logits| == |states| == |tokens|
    requires forall i :: 0 <= i < |tokens| ==> ReadsTo(k, s, tokens, i, logits[i], states[i])
    ensures |targets| == |logits|
    ensures forall i :: 0 <= i < |logits| ==> |logits[i]| == k.vocab && targets[i] == ArgMax(logits[i])
  {
    targets := [];
    for i := 0 to |logits|
      invariant |targets| == i
      invariant forall j :: 0 <= j < i ==> |logits[j]| == k.vocab && targets[j] == ArgMax(logits[j])
    {
      assert ReadsTo(k, s, tokens, i, logits[i], states[i]);
      targets := targets + [ArgMax(logits[i])];
    }
  }

  /**
   The target side of an expert-major round, the block run layer by layer: it reports what single steps
   of the decoder would have, and leaves its state where they would have.
   */
  method VerifyExpertMajorRound(k: Kernels, ghost context: seq<nat>, p: Proposal, maxDraft: nat, s: ModelState)
      returns (r: Result<(Verification, Load)>, after: ModelState)
    requires KernelsOk(k) && context != [] && p.anchor == context[|context| - 1] < k.vocab
    requires s == Lagging(EngineOf(k), context)
    ensures r.Success? <==> ProposalFits(EngineOf(k), p, maxDraft)
                            && Plannable(Block(k, s, [p.anchor] + p.candidates), |s.kda| + 1)
    ensures r.Success? ==>
      && Verifies(EngineOf(k), context, p, r.value.0)
      && after == Lagging(EngineOf(k), context + r.value.0.committed)
      && r.value.1 == BlockLoad(Block(k, s, [p.anchor] + p.candidates))
  {
    after := s;
    if |p.candidates| > maxDraft || !Known(k, p.candidates) {
      return Failure("invalid_extent"), after;
    }
    var tokens := [p.anchor] + p.candidates;
    var block := ForwardExpertMajorBlock(k, tokens, s);
    if block.Failure? {
      return Failure(block.error), after;
    }
    var targets := Targets(k, s, tokens, block.value.logits, block.value.states);
    BlockIsRead(k, context[..|context| - 1], tokens, block.value, targets);
    var verified;
    verified, after := VerifyBlock(EngineOf(k), context, p, maxDraft, s, targets, block.value.states);
    return Success((verified.value, block.value.work)), after;
  }

  // ----- The work of a block -----

  /** Every route is one that the planner takes, of at most `topK` experts. */
  ghost predicate RoutesWell(k: Kernels) {
    forall l: nat, x: Vec :: GoodRoute(k.route(l, x)) && |k.route(l, x)| <= k.topK
  }

  lemma AlwaysPlannable(b: Block)
    requires b.k.residualBlock > 0 && RoutesWell(b.k) && b.tokens != []
    ensures Plannable(b, |b.s.kda| + 1)
  {
    forall l | 0 <= l <= |b.s.kda|
      ensures PlannableAt(b, l)
    {
      var routes := RoutesOf(b.k, l, MidsOf(b, l));
      assert forall t :: 0 <= t < |routes| ==> GoodRoute(routes[t]);
    }
  }

  lemma {:induction false} SomeSlots(routes: seq<seq<Slot>>)
    requires routes != [] && GoodRoute(routes[|routes| - 1])
    ensures SlotsOf(routes) > 0
  {
  }

  lemma LayerLoadBounds(k: Kernels, l: nat, mids: seq<Row>)
    requires RoutesWell(k) && mids != []
    ensures var load := LayerLoad(RoutesOf(k, l, mids));
      load.payloads <= load.assignments && 0 < load.assignments <= Times(|mids|, k.topK)
  {
    var routes := RoutesOf(k, l, mids);
    assert forall t :: 0 <= t < |routes| ==> GoodRoute(routes[t]) && |routes[t]| <= k.topK;
    ExpertsBelowSlots(routes, k.topK);
    SomeSlots(routes);
  }

  /** No more loads than assignments, at least one as soon as a layer has experts, and at most `topK` a token. */
  lemma {:induction false} LoadBounds(b: Block, layers: nat)
    requires b.k.residualBlock > 0 && RoutesWell(b.k) && b.tokens != [] && layers <= |b.s.kda| + 1
    ensures var load := LoadUpTo(b, layers);
      && load.payloads <= load.assignments <= Times(layers, Times(|b.tokens|, b.k.topK))
      && (layers > 1 ==> load.assignments > 0)
  {
    if layers > 1 {
      LoadBounds(b, layers - 1);
      LayerLoadBounds(b.k, layers - 1, MidsOf(b, layers - 1));
    }
  }

  lemma {:induction false} UpKeepsLayers(k: Kernels, l: nat, row: Row, kda: seq<Vec>)
    requires k.residualBlock > 0
    ensures |Up(k, l, row, kda).1| == |kda|
    decreases |kda|
  {
    if kda != [] {
      var (mid, next) := KdaStep(k, l, row, kda[0]);
      UpKeepsLayers(k, l + 1, Fed(k, l, mid), kda[1..]);
    }
  }

  /** The decoder never changes how many layers it has. */
  lemma {:induction false} SameLayers(k: Kernels, tokens: seq<nat>)
    requires KernelsOk(k)
    ensures |Absorb(EngineOf(k), tokens).1.kda| == |k.emptyKda|
    decreases |tokens|
  {
    if tokens != [] {
      var front, token := tokens[..|tokens| - 1], tokens[|tokens| - 1];
      assert tokens == front + [token];
      SameLayers(k, front);
      AbsorbMore(EngineOf(k), front, token);
      UpKeepsLayers(k, 0, Row(k.embed(token), []), Absorb(EngineOf(k), front).1.kda);
    }
  }
}
