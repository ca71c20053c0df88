/**
 The decoder the runtime drives, one token at a time. The kernels are an opaque exact function of
 the token and the recurrent state; what is modelled is the shape of the state: the KDA part is
 replaced by every forward call, the MLA part is only ever appended to.
 */
module Engine {
  import opened Wrappers

  type Vec = seq<real>

  datatype MlaState = MlaState(keys: Vec, values: Vec, sharedKeys: Vec, length: nat)
  datatype ModelState = ModelState(kda: seq<Vec>, mla: MlaState)

  /** The outcome of one kernel pass: logits, the new KDA state and the rows appended to the MLA state. */
  datatype Pass = Pass(logits: Vec, kda: seq<Vec>, keys: Vec, values: Vec, sharedKeys: Vec)

  datatype Decoder = Decoder(vocab: nat, emptyKda: seq<Vec>, kernel: (nat, ModelState) -> Pass)

  ghost predicate WellShaped(d: Decoder) {
    && d.vocab > 0
    && forall token: nat, s: ModelState :: |d.kernel(token, s).logits| == d.vocab
  }

  type Engine = d: Decoder | WellShaped(d)
    witness Decoder(1, [], (token, s) => Pass([0.0], [], [], [], []))

  function EmptyState(e: Engine): ModelState {
    ModelState(e.emptyKda, MlaState([], [], [], 0))
  }

  /** One forward call. */
  function Forward(e: Engine, token: nat, s: ModelState): (r: (Vec, ModelState))
    ensures |r.0| == e.vocab
  {
    var p := e.kernel(token, s);
    (p.logits, ModelState(p.kda, MlaState(s.mla.keys + p.keys, s.mla.values + p.values,
                                     s.mla.sharedKeys + p.sharedKeys, s.mla.length + 1)))
  }

  /** The last logits and the state after reading `tokens` one by one from state `s`. */
  function Read(e: Engine, s: ModelState, tokens: seq<nat>): (r: (Vec, ModelState))
    ensures tokens != [] ==> |r.0| == e.vocab
    decreases |tokens|
  {
    if tokens == [] then ([], s)
    else Forward(e, tokens[|tokens| - 1], Read(e, s, tokens[..|tokens| - 1]).1)
  }

  function Absorb(e: Engine, tokens: seq<nat>): (r: (Vec, ModelState))
    ensures tokens != [] ==> |r.0| == e.vocab
  {
    Read(e, EmptyState(e), tokens)
  }

  lemma AbsorbMore(e: Engine, tokens: seq<nat>, token: nat)
    ensures Absorb(e, tokens + [token]) == Forward(e, token, Absorb(e, tokens).1)
  {
    assert (tokens + [token])[..|tokens|] == tokens;
  }

  /** The first position holding the maximum. */
  function ArgMax(v: Vec): (index: nat)
    requires v != []
    ensures index < |v|
    ensures forall i :: 0 <= i < |v| ==> v[i] <= v[index]
    ensures forall i :: 0 <= i < index ==> v[i] < v[index]
  {
    if |v| == 1 then 0
    else
      var best := ArgMax(v[..|v| - 1]);
      if v[best] < v[|v| - 1] then |v| - 1 else best
  }

  /** What the decoder generates greedily after `context`, `count` tokens of it. */
  function Greedy(e: Engine, context: seq<nat>, count: nat): (tokens: seq<nat>)
    requires context != []
    ensures |tokens| == count
    ensures InVocabulary(e, tokens)
    decreases count
  {
    if count == 0 then []
    else
      var before := Greedy(e, context, count - 1);
      before + [ArgMax(Absorb(e, context + before).0)]
  }

  predicate InVocabulary(e: Engine, tokens: seq<nat>) {
    forall i :: 0 <= i < |tokens| ==> tokens[i] < e.vocab
  }

  lemma {:induction false} GreedyPrefix(e: Engine, context: seq<nat>, short: nat, long: nat)
    requires context != [] && short <= long
    ensures Greedy(e, context, long)[..short] == Greedy(e, context, short)
    decreases long
  {
    if short < long {
      GreedyPrefix(e, context, short, long - 1);
      assert Greedy(e, context, long)[..short] == Greedy(e, context, long - 1)[..short];
    }
  }

  /** Reads a whole sequence from the empty state; a token outside the vocabulary stops it. */
  method Prefill(e: Engine, tokens: seq<nat>) returns (r: Result<(Vec, ModelState)>)
    ensures r == if InVocabulary(e, tokens) then Success(Absorb(e, tokens)) else Failure("invalid_extent")
  {
    var state := EmptyState(e);
    var logits: Vec := [];
    for index := 0 to |tokens|
      invariant (logits, state) == Absorb(e, tokens[..index])
      invariant InVocabulary(e, tokens[..index])
    {
      if tokens[index] >= e.vocab {
        return Failure("invalid_extent");
      }
      assert tokens[..index + 1] == tokens[..index] + [tokens[index]];
      AbsorbMore(e, tokens[..index], tokens[index]);
      var (nextLogits, nextState) := Forward(e, tokens[index], state);
      logits, state := nextLogits, nextState;
    }
    assert tokens[..|tokens|] == tokens;
    return Success((logits, state));
  }

  method GenerateIncremental(e: Engine, prompt: seq<nat>, count: nat) returns (r: Result<seq<nat>>)
    requires prompt != []
    ensures r == if InVocabulary(e, prompt) then Success(Greedy(e, prompt, count)) else Failure("invalid_extent")
  {
    var prefilled :- Prefill(e, prompt);
    var (logits, state) := prefilled;
    var tokens: seq<nat> := [];
    if count != 0 {
      var token := ArgMax(logits);
      tokens := [token];
      assert prompt + [] == prompt;
      assert Greedy(e, prompt, 0) == [];
      for index := 1 to count
        invariant tokens == Greedy(e, prompt, index)
        invariant token == tokens[index - 1]
        invariant state == Absorb(e, prompt + tokens[..index - 1]).1
      {
        assert prompt + tokens == (prompt + tokens[..index - 1]) + [token];
        AbsorbMore(e, prompt + tokens[..index - 1], token);
        var (nextLogits, nextState) := Forward(e, token, state);
        state := nextState;
        token := ArgMax(nextLogits);
        tokens := tokens + [token];
        assert tokens[..index] == Greedy(e, prompt, index);
      }
    }
    return Success(tokens);
  }

  method GenerateByReplay(e: Engine, prompt: seq<nat>, count: nat) returns (r: Result<seq<nat>>)
    requires prompt != []
    ensures r == if InVocabulary(e, prompt) || count == 0 then Success(Greedy(e, prompt, count))
                 else Failure("invalid_extent")
  {
    var tokens: seq<nat> := [];
    var sequence := prompt;
    for generated := 0 to count
      invariant tokens == Greedy(e, prompt, generated)
      invariant sequence == prompt + tokens
      invariant generated > 0 ==> InVocabulary(e, prompt)
    {
      assert InVocabulary(e, sequence) <==> InVocabulary(e, prompt) by {
        assert forall i :: 0 <= i < |prompt| ==> sequence[i] == prompt[i];
        assert forall i :: |prompt| <= i < |sequence| ==> sequence[i] == tokens[i - |prompt|];
      }
      var prefilled :- Prefill(e, sequence);
      var token := ArgMax(prefilled.0);
      tokens := tokens + [token];
      sequence := sequence + [token];
    }
    return Success(tokens);
  }

  /**
   Greedy generation, from a running state or by re-reading the whole sequence for every token.
   Both give `Greedy`; they differ only in when an unknown prompt token is noticed.
   */
  method GenerateGreedy(e: Engine, prompt: seq<nat>, count: nat, incremental: bool)
      returns (r: Result<seq<nat>>)
    ensures r == if prompt == [] then Failure("invalid_extent")
                 else if InVocabulary(e, prompt) || (!incremental && count == 0)
                 then Success(Greedy(e, prompt, count))
                 else Failure("invalid_extent")
  {
    if prompt == [] {
      return Failure("invalid_extent");
    }
    if incremental {
      r := GenerateIncremental(e, prompt, count);
    } else {
      r := GenerateByReplay(e, prompt, count);
    }
  }
}
