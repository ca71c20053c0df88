/**
 Speculative generation with a decoder made of layers. A round is verified token by token, or as one
 expert-major block; either way only what the target would have said is committed.
 */
module Generation {
  import opened Wrappers
  import opened Engine
  import opened Scheduler
  import opened Providers
  import opened Speculative
  import opened BlockForward

  /** The decoder of these kernels, whose router always has a usable choice. */
  ghost predicate IsTarget(k: Kernels, e: Engine) {
    KernelsOk(k) && RoutesWell(k) && e == EngineOf(k)
  }

  /** The block that verifies a proposal. */
  ghost function BlockOf(k: Kernels, context: seq<nat>, p: Proposal): Block
    requires KernelsOk(k) && context != []
  {
    Block(k, Lagging(EngineOf(k), context), [p.anchor] + p.candidates)
  }

  /** The expert work of that block. */
  ghost function LoadFor(k: Kernels, context: seq<nat>, p: Proposal): Load
    requires KernelsOk(k) && context != []
  {
    BlockLoad(BlockOf(k, context, p))
  }

  /**
   The target side of a round, in both forms: the same report and the same state, and for a block the
   loads and assignments of its plans.
   */
  method VerifyRound(k: Kernels, e: Engine, expertMajor: bool, ghost context: seq<nat>, p: Proposal,
                     maxDraft: nat, state: ModelState)
      returns (r: Result<(Verification, Load)>, after: ModelState)
    requires IsTarget(k, e) && context != [] && p.anchor == context[|context| - 1] < e.vocab
    requires state == Lagging(e, context)
    ensures r.Success? <==> ProposalFits(e, p, maxDraft)
    ensures r.Success? ==>
      && Verifies(e, context, p, r.value.0) && after == Lagging(e, context + r.value.0.committed)
      && r.value.1 == if expertMajor then LoadFor(k, context, p) else Load(0, 0)
  {
    if expertMajor {
      AlwaysPlannable(BlockOf(k, context, p));
      r, after := VerifyExpertMajorRound(k, context, p, maxDraft, state);
    } else {
      var verified;
      verified, after := VerifyGreedyDraft(e, context, p, maxDraft, state);
      if verified.Failure? {
        return Failure(verified.error), after;
      }
      r := Success((verified.value, Load(0, 0)));
    }
  }

  /** One round: verify, and give back the report together with the state after committing. */
  method Round(k: Kernels, e: Engine, expertMajor: bool, ghost prompt: seq<nat>, generated: seq<nat>, p: Proposal,
               maxDraft: nat, state: ModelState)
      returns (r: Result<(Verification, Load, ModelState)>)
    requires IsTarget(k, e) && RoundKept(e, prompt, generated, state)
    requires p.anchor == generated[|generated| - 1]
    ensures r.Success? <==> ProposalFits(e, p, maxDraft)
    ensures r.Success? ==> Verifies(e, prompt + generated, p, r.value.0)
    ensures r.Success? ==> r.value.1 == if expertMajor then LoadFor(k, prompt + generated, p) else Load(0, 0)
    ensures r.Success? ==> RoundKept(e, prompt, generated + r.value.0.committed, r.value.2)
    ensures r.Success? ==> 0 < |r.value.0.committed| <= |p.candidates| + 1
  {
    AnchorIsKnown(e, prompt, generated, state);
    var verified, after := VerifyRound(k, e, expertMajor, prompt + generated, p, maxDraft, state);
    if verified.Failure? {
      return Failure(verified.error);
    }
    RoundStaysKept(e, prompt, generated, state, p, verified.value.0, after);
    return Success((verified.value.0, verified.value.1, after));
  }

  /**
   The speculative loop with ANY draft provider: `draft(i)` is whatever it answers in round i. When
   the loop succeeds the tokens are exactly the target's greedy tokens, as many as asked for; when
   it stops early everything committed so far is greedy and round `rounds` was not acceptable.
   */
  method GenerateSpeculative(k: Kernels, e: Engine, expertMajor: bool, prompt: seq<nat>, count: nat, blockSize: nat,
                             draft: nat -> Result<Proposal>)
      returns (r: Result<seq<nat>>, generated: seq<nat>, rounds: nat)
    requires IsTarget(k, e)
    ensures r.Success? ==> prompt != [] && r.value == Greedy(e, prompt, count)
    ensures r.Failure? && prompt != [] && InVocabulary(e, prompt) && blockSize != 0 ==>
      && 0 < |generated| < count
      && generated == Greedy(e, prompt, |generated|)
      && !Acceptable(e, draft(rounds), generated, MaxDraft(count, |generated|, blockSize))
  {
    generated, rounds := [], 0;
    if blockSize == 0 {
      return Failure("invalid_state"), generated, rounds;
    }
    if prompt == [] {
      return Failure("invalid_extent"), generated, rounds;
    }
    var prefilled := Prefill(e, prompt);
    if prefilled.Failure? {
      return Failure(prefilled.error), generated, rounds;
    }
    var (logits, state) := prefilled.value;
    if count != 0 {
      generated := FirstToken(e, prompt, logits);
      while |generated| < count
        invariant 0 < |generated| <= count
        invariant RoundKept(e, prompt, generated, state)
        decreases count - |generated|
      {
        var maxDraft := MaxDraft(count, |generated|, blockSize);
        var answer := draft(rounds);
        if answer.Failure? {
          return Failure(answer.error), generated, rounds;
        }
        if answer.value.anchor != generated[|generated| - 1] {
          return Failure("invalid_state"), generated, rounds;
        }
        var committed := Round(k, e, expertMajor, prompt, generated, answer.value, maxDraft, state);
        if committed.Failure? {
          return Failure(committed.error), generated, rounds;
        }
        generated := generated + committed.value.0.committed;
        state := committed.value.2;
        rounds := rounds + 1;
      }
    }
    return Success(generated), generated, rounds;
  }
}
