/**
 Speculative decoding: a draft of up to `blockSize` tokens is checked against the target's own
 greedy choices, and only what the target would have said is committed.
 */
module Speculative {
  import opened Wrappers
  import opened Engine
  import opened Scheduler
  import opened Providers

  predicate ProposalFits(e: Engine, p: Proposal, maxDraft: nat) {
    p.anchor < e.vocab && |p.candidates| <= maxDraft && InVocabulary(e, p.candidates)
  }

  /** The candidates agreeing with the target's continuation of `context`, as many as lead it. */
  function Agreeing(e: Engine, context: seq<nat>, candidates: seq<nat>): (n: nat)
    requires context != []
    ensures n <= |candidates|
    ensures candidates[..n] == Greedy(e, context, n)
    ensures n < |candidates| ==> candidates[n] != Greedy(e, context, n + 1)[n]
  {
    if candidates == [] then 0
    else
      var n := Agreeing(e, context, candidates[..|candidates| - 1]);
      if n == |candidates| - 1 && candidates[n] == Greedy(e, context, n + 1)[n] then n + 1 else n
  }

  /** What verification must report: the agreeing prefix and then one token of the target's own. */
  ghost predicate Verifies(e: Engine, context: seq<nat>, p: Proposal, v: Verification)
    requires context != []
  {
    var n := Agreeing(e, context, p.candidates);
    && v.anchor == p.anchor
    && v.proposed == |p.candidates|
    && v.accepted == n
    && v.committed == Greedy(e, context, n + 1)
    && v.allAccepted == (n == |p.candidates|)
  }

  lemma AgreesBelow(e: Engine, context: seq<nat>, candidates: seq<nat>, m: nat, n: nat)
    requires context != [] && m < n <= |candidates|
    requires candidates[..n] == Greedy(e, context, n)
    ensures candidates[m] == Greedy(e, context, m + 1)[m]
  {
    GreedyPrefix(e, context, m + 1, n);
    assert candidates[m] == candidates[..n][m];
    assert Greedy(e, context, n)[m] == Greedy(e, context, n)[..m + 1][m];
  }

  lemma AgreeingUnique(e: Engine, context: seq<nat>, candidates: seq<nat>, n: nat)
    requires context != [] && n <= |candidates|
    requires candidates[..n] == Greedy(e, context, n)
    requires n < |candidates| ==> candidates[n] != Greedy(e, context, n + 1)[n]
    ensures Agreeing(e, context, candidates) == n
  {
    var m := Agreeing(e, context, candidates);
    if m < n {
      AgreesBelow(e, context, candidates, m, n);
    } else if n < m {
      AgreesBelow(e, context, candidates, n, m);
    }
  }

  /** The state that has read everything except the last token. */
  ghost function Lagging(e: Engine, seen: seq<nat>): ModelState
    requires seen != []
  {
    Absorb(e, seen[..|seen| - 1]).1
  }

  lemma ReadLast(e: Engine, seen: seq<nat>)
    requires seen != []
    ensures Forward(e, seen[|seen| - 1], Lagging(e, seen)) == Absorb(e, seen)
  {
  }

  lemma LagsBehind(e: Engine, context: seq<nat>, committed: seq<nat>, next: nat)
    ensures Lagging(e, context + (committed + [next])) == Absorb(e, context + committed).1
    ensures (context + (committed + [next]))[|context| + |committed|] == next
  {
    var seen := context + (committed + [next]);
    assert seen[..|seen| - 1] == context + committed;
  }

  function Report(p: Proposal, accepted: nat, committed: seq<nat>): Verification {
    Verification(p.anchor, |p.candidates|, accepted, committed, accepted == |p.candidates|, 0, 0, 0, 0)
  }

  /** A prefix that agrees, then one greedy token, is what verification must report. */
  lemma ReportVerifies(e: Engine, context: seq<nat>, p: Proposal, agreed: seq<nat>, next: nat)
    requires context != [] && |agreed| <= |p.candidates|
    requires agreed == p.candidates[..|agreed|] == Greedy(e, context, |agreed|)
    requires agreed + [next] == Greedy(e, context, |agreed| + 1)
    requires |agreed| < |p.candidates| ==> p.candidates[|agreed|] != next
    ensures Verifies(e, context, p, Report(p, |agreed|, agreed + [next]))
  {
    assert (agreed + [next])[|agreed|] == next;
    AgreeingUnique(e, context, p.candidates, |agreed|);
  }

  /** The tokens committed so far are the target's own, and its state has read all but the last. */
  ghost predicate Agreed(e: Engine, context: seq<nat>, committed: seq<nat>, input: nat, state: ModelState) {
    && context != [] && committed == Greedy(e, context, |committed|)
    && input == (context + committed)[|context + committed| - 1]
    && state == Lagging(e, context + committed)
  }

  /** One call of the target: reads the last token seen, gives the next greedy token. */
  method TargetStep(e: Engine, ghost context: seq<nat>, ghost committed: seq<nat>, input: nat, state: ModelState)
      returns (target: nat, after: ModelState)
    requires Agreed(e, context, committed, input, state)
    ensures Agreed(e, context, committed + [target], target, after)
  {
    ReadLast(e, context + committed);
    var (logits, next) := Forward(e, input, state);
    target, after := ArgMax(logits), next;
    LagsBehind(e, context, committed, target);
  }

  /**
   Verification token by token. `context` ends with the anchor, which the target state has not read
   yet; afterwards the state has read everything but the last committed token.
   */
  method VerifyGreedyDraft(e: Engine, ghost context: seq<nat>, p: Proposal, maxDraft: nat, state: ModelState)
      returns (r: Result<Verification>, after: ModelState)
    requires context != [] && p.anchor == context[|context| - 1]
    requires state == Lagging(e, context)
    ensures r.Success? <==> ProposalFits(e, p, maxDraft)
    ensures r.Failure? ==> r.error == "invalid_extent" && after == state
    ensures r.Success? ==>
      Verifies(e, context, p, r.value) && after == Lagging(e, context + r.value.committed)
  {
    after := state;
    if !ProposalFits(e, p, maxDraft) {
      return Failure("invalid_extent"), after;
    }
    var committed: seq<nat> := [];
    var input := p.anchor;
    var target: nat;
    assert context + committed == context;
    for index := 0 to |p.candidates|
      invariant committed == p.candidates[..index]
      invariant Agreed(e, context, committed, input, after)
    {
      target, after := TargetStep(e, context, committed, input, after);
      if p.candidates[index] != target {
        ReportVerifies(e, context, p, committed, target);
        return Success(Report(p, index, committed + [target])), after;
      }
      committed := committed + [target];
      input := target;
    }
    target, after := TargetStep(e, context, committed, input, after);
    ReportVerifies(e, context, p, committed, target);
    return Success(Report(p, |p.candidates|, committed + [target])), after;
  }

  /** The target tokens and the states after each input of a block, as single steps would give them. */
  ghost predicate BlockRead(e: Engine, before: seq<nat>, inputs: seq<nat>, targets: seq<nat>, states: seq<ModelState>) {
    && |targets| == |states| == |inputs|
    && forall i :: 0 <= i < |inputs| ==>
         && states[i] == Absorb(e, before + inputs[..i + 1]).1
         && targets[i] == ArgMax(Absorb(e, before + inputs[..i + 1]).0)
  }

  /** Verification of a whole block against precomputed target tokens. */
  method VerifyGreedyTargetBlock(e: Engine, ghost context: seq<nat>, p: Proposal, maxDraft: nat, targets: seq<nat>)
      returns (r: Result<Verification>)
    requires context != []
    requires |targets| == |p.candidates| + 1
    requires forall i :: 0 <= i <= |p.candidates| ==>
      targets[i] == ArgMax(Absorb(e, context + p.candidates[..i]).0)
    ensures r.Success? <==> ProposalFits(e, p, maxDraft)
    ensures r.Failure? ==> r.error == "invalid_extent"
    ensures r.Success? ==> Verifies(e, context, p, r.value)
  {
    if !ProposalFits(e, p, maxDraft) {
      return Failure("invalid_extent");
    }
    var committed: seq<nat> := [];
    for index := 0 to |p.candidates|
      invariant committed == p.candidates[..index] == Greedy(e, context, index)
    {
      assert targets[index] == ArgMax(Absorb(e, context + committed).0);
      if p.candidates[index] != targets[index] {
        ReportVerifies(e, context, p, committed, targets[index]);
        return Success(Report(p, index, committed + [targets[index]]));
      }
      committed := committed + [p.candidates[index]];
    }
    assert targets[|p.candidates|] == ArgMax(Absorb(e, context + committed).0);
    ReportVerifies(e, context, p, committed, targets[|targets| - 1]);
    return Success(Report(p, |p.candidates|, committed + [targets[|targets| - 1]]));
  }

  /** The decision about a block that has been read: the report, and the state of the last committed position. */
  method VerifyBlock(e: Engine, ghost context: seq<nat>, p: Proposal, maxDraft: nat, state: ModelState,
                     targets: seq<nat>, states: seq<ModelState>)
      returns (r: Result<Verification>, after: ModelState)
    requires context != [] && p.anchor == context[|context| - 1]
    requires BlockRead(e, context[..|context| - 1], [p.anchor] + p.candidates, targets, states)
    ensures r.Success? <==> ProposalFits(e, p, maxDraft)
    ensures r.Success? ==>
      Verifies(e, context, p, r.value) && after == Lagging(e, context + r.value.committed)
  {
    after := state;
    ghost var before, inputs := context[..|context| - 1], [p.anchor] + p.candidates;
    forall i | 0 <= i <= |p.candidates|
      ensures before + inputs[..i + 1] == context + p.candidates[..i]
    {
    }
    r := VerifyGreedyTargetBlock(e, context, p, maxDraft, targets);
    if r.Success? {
      var committed := r.value.committed;
      after := states[|committed| - 1];
      ghost var last := |committed| - 1;
      GreedyPrefix(e, context, last, last + 1);
      assert committed == committed[..last] + [committed[last]];
      LagsBehind(e, context, committed[..last], committed[last]);
    }
  }

  function MaxDraft(count: nat, generated: nat, blockSize: nat): nat
    requires generated < count
  {
    Min(blockSize, count - generated - 1)
  }

  /** A proposal the loop accepts when `generated` is what has been committed so far. */
  predicate Acceptable(e: Engine, answer: Result<Proposal>, generated: seq<nat>, maxDraft: nat)
    requires generated != []
  {
    && answer.Success?
    && answer.value.anchor == generated[|generated| - 1]
    && ProposalFits(e, answer.value, maxDraft)
  }

  /** Greedy generation can be stopped and taken up again anywhere. */
  lemma {:induction false} GreedyContinues(e: Engine, context: seq<nat>, first: nat, more: nat)
    requires context != []
    ensures Greedy(e, context, first + more) ==
            Greedy(e, context, first) + Greedy(e, context + Greedy(e, context, first), more)
    decreases more
  {
    if more != 0 {
      GreedyContinues(e, context, first, more - 1);
      var head := Greedy(e, context, first);
      var tail := Greedy(e, context + head, more - 1);
      assert context + (head + tail) == (context + head) + tail;
    }
  }

  lemma VerifiedIsGreedy(e: Engine, context: seq<nat>, p: Proposal, v: Verification)
    requires context != [] && Verifies(e, context, p, v)
    ensures 0 < |v.committed| <= |p.candidates| + 1
    ensures v.committed == Greedy(e, context, |v.committed|)
  {
  }

  /** Committing a verified round keeps the output greedy and never overshoots the block. */
  lemma RoundIsGreedy(e: Engine, prompt: seq<nat>, generated: seq<nat>, p: Proposal, v: Verification)
    requires prompt != [] && generated == Greedy(e, prompt, |generated|)
    requires Verifies(e, prompt + generated, p, v)
    ensures 0 < |v.committed| <= |p.candidates| + 1
    ensures generated + v.committed == Greedy(e, prompt, |generated + v.committed|)
  {
    VerifiedIsGreedy(e, prompt + generated, p, v);
    GreedyContinues(e, prompt, |generated|, |v.committed|);
  }

  function FirstToken(e: Engine, prompt: seq<nat>, logits: Vec): (tokens: seq<nat>)
    requires prompt != [] && logits == Absorb(e, prompt).0
    ensures tokens == Greedy(e, prompt, 1)
    ensures Lagging(e, prompt + tokens) == Absorb(e, prompt).1
  {
    var token := ArgMax(logits);
    LagsBehind(e, prompt, [], token);
    assert prompt + [] == prompt;
    assert Greedy(e, prompt, 0) == [];
    [token]
  }

  /** What the loop keeps: the output is greedy and the state lags one token behind it. */
  ghost predicate RoundKept(e: Engine, prompt: seq<nat>, generated: seq<nat>, state: ModelState) {
    && prompt != [] && generated != []
    && generated == Greedy(e, prompt, |generated|)
    && state == Lagging(e, prompt + generated)
  }

  lemma AnchorIsKnown(e: Engine, prompt: seq<nat>, generated: seq<nat>, state: ModelState)
    requires RoundKept(e, prompt, generated, state)
    ensures var context := prompt + generated;
      context[|context| - 1] == generated[|generated| - 1] < e.vocab
  {
    assert InVocabulary(e, generated);
  }

  lemma RoundStaysKept(e: Engine, prompt: seq<nat>, generated: seq<nat>, state: ModelState, p: Proposal,
                       v: Verification, after: ModelState)
    requires RoundKept(e, prompt, generated, state)
    requires Verifies(e, prompt + generated, p, v)
    requires after == Lagging(e, (prompt + generated) + v.committed)
    ensures RoundKept(e, prompt, generated + v.committed, after)
    ensures 0 < |v.committed| <= |p.candidates| + 1
  {
    RoundIsGreedy(e, prompt, generated, p, v);
    assert (prompt + generated) + v.committed == prompt + (generated + v.committed);
  }
}
