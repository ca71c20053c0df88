/**
 The whole AURORA loop: the speculative target on one side, the persistent draft provider on the
 other, the scheduler learning from every verification.
 */
module ClosedLoop {
  import opened Wrappers
  import opened Engine
  import opened Scheduler
  import opened Providers
  import opened Speculative
  import opened BlockForward
  import opened ExpertPlan
  import opened Generation

  /** The expert work of the block that verifies a proposal after a context. */
  type Workload = (seq<nat>, Proposal) -> Load

  ghost predicate SaneLoad(load: Load, bound: nat) {
    0 < load.assignments <= bound && load.payloads <= load.assignments
  }

  /** Every position is routed to an expert, and a draft has at most four tokens. */
  ghost predicate SaneWork(work: Workload, bound: nat) {
    forall context: seq<nat>, q: Proposal :: context != [] && |q.candidates| <= 4 ==> SaneLoad(work(context, q), bound)
  }

  /** The work of the blocks of a decoder. */
  ghost function WorkloadOf(k: Kernels): Workload
    requires KernelsOk(k)
  {
    (context: seq<nat>, q: Proposal) => if context == [] then Load(0, 0) else LoadFor(k, context, q)
  }

  /** What a block of five positions can cost. */
  function WorkBound(k: Kernels): nat {
    Times(|k.emptyKda| + 1, Times(5, k.topK))
  }

  lemma {:induction false} TimesGrows(a: nat, b: nat, most: nat)
    requires a <= b
    ensures Times(a, most) <= Times(b, most)
  {
    if a < b {
      TimesGrows(a, b - 1, most);
    }
  }

  lemma {:induction false} TimesMore(n: nat, low: nat, high: nat)
    requires low <= high
    ensures Times(n, low) <= Times(n, high)
  {
    if n > 0 {
      TimesMore(n - 1, low, high);
    }
  }

  /** With one layer of experts at least, the work of every block is sane. */
  lemma TargetWorksSanely(k: Kernels)
    requires KernelsOk(k) && RoutesWell(k) && k.emptyKda != []
    ensures SaneWork(WorkloadOf(k), WorkBound(k))
  {
    forall context: seq<nat>, q: Proposal | context != [] && |q.candidates| <= 4
      ensures SaneLoad(WorkloadOf(k)(context, q), WorkBound(k))
    {
      var b := BlockOf(k, context, q);
      SameLayers(k, context[..|context| - 1]);
      LoadBounds(b, |b.s.kda| + 1);
      TimesGrows(|b.tokens|, 5, k.topK);
      TimesMore(|k.emptyKda| + 1, Times(|b.tokens|, k.topK), Times(5, k.topK));
    }
  }

  /** The verification as the target reports it back to the provider. */
  function WithFeedback(v: Verification, expertMajor: bool, work: Load): Verification
    requires v.accepted <= v.proposed
  {
    if expertMajor then
      v.(evaluated := v.proposed + 1, discarded := v.proposed - v.accepted,
         payloadLoads := work.payloads, assignments := work.assignments)
    else
      v.(evaluated := |v.committed|, discarded := 0, payloadLoads := 0, assignments := 0)
  }

  lemma FeedbackIsSane(v: Verification, expertMajor: bool, work: Load, bound: nat)
    requires v.accepted <= v.proposed
    requires work.payloads <= work.assignments <= bound
    ensures var f := WithFeedback(v, expertMajor, work);
      && f.discarded <= f.evaluated && f.payloadLoads <= f.assignments <= bound
      && (f.assignments == 0 <==> !expertMajor || work.assignments == 0)
  {
  }

  // ----- The course of a generation -----

  /** What verification reports about a proposal, before the feedback is filled in. */
  function Verified(e: Engine, context: seq<nat>, q: Proposal): (v: Verification)
    requires context != []
    ensures Verifies(e, context, q, v) && 0 < |v.committed| <= |q.candidates| + 1
  {
    var n := Agreeing(e, context, q.candidates);
    Report(q, n, Greedy(e, context, n + 1))
  }

  lemma SameReport(e: Engine, context: seq<nat>, q: Proposal, v: Verification, expertMajor: bool, work: Load)
    requires context != [] && Verifies(e, context, q, v)
    ensures WithFeedback(v, expertMajor, work) == WithFeedback(Verified(e, context, q), expertMajor, work)
  {
  }

  /** One round of provider and target: the provider after it, the committed tokens, the length of the draft. */
  ghost function RoundOf(d: Engine, e: Engine, p: Persistent, prompt: seq<nat>, generated: seq<nat>, maxDraft: nat,
                         expertMajor: bool, work: Workload): (r: Option<(Persistent, seq<nat>, nat)>)
    requires PersistentValid(p) && prompt != [] && generated != []
    ensures r.Some? ==> PersistentValid(r.value.0) && 0 < |r.value.1| <= r.value.2 + 1 <= maxDraft + 1
  {
    var (q, answer) := PersistentPropose(d, p, Request(generated[|generated| - 1], maxDraft, |generated|, generated));
    if answer.Failure? || !ProposalFits(e, answer.value, maxDraft) then None
    else
      var v := Verified(e, prompt + generated, answer.value);
      var load := work(prompt + generated, answer.value);
      Some((PersistentUpdate(d, q, WithFeedback(v, expertMajor, load)), v.committed, |answer.value.candidates|))
  }

  /** A round of which the proposal and the provider afterwards are known. */
  lemma RoundIs(d: Engine, e: Engine, p: Persistent, prompt: seq<nat>, generated: seq<nat>, maxDraft: nat,
                expertMajor: bool, work: Workload, q: Persistent, answer: Proposal, after: Persistent)
    requires PersistentValid(p) && PersistentValid(q) && prompt != [] && generated != []
    requires PersistentPropose(d, p, Request(generated[|generated| - 1], maxDraft, |generated|, generated))
          == (q, Success(answer))
    requires ProposalFits(e, answer, maxDraft)
    requires after == PersistentUpdate(d, q, WithFeedback(Verified(e, prompt + generated, answer), expertMajor,
                                                          work(prompt + generated, answer)))
    ensures RoundOf(d, e, p, prompt, generated, maxDraft, expertMajor, work)
         == Some((after, Verified(e, prompt + generated, answer).committed, |answer.candidates|))
  {
  }

  lemma NoRound(d: Engine, e: Engine, p: Persistent, prompt: seq<nat>, generated: seq<nat>, maxDraft: nat,
                expertMajor: bool, work: Workload)
    requires PersistentValid(p) && prompt != [] && generated != []
    requires PersistentPropose(d, p, Request(generated[|generated| - 1], maxDraft, |generated|, generated)).1.Failure?
    ensures RoundOf(d, e, p, prompt, generated, maxDraft, expertMajor, work) == None
  {
  }

  /** How a generation went: whether it failed, what it generated, and the length of the draft of every round. */
  datatype Course = Course(failed: bool, generated: seq<nat>, lengths: seq<nat>)

  /** A round from a state and what is generated so far. */
  type Step<!P> = (P, seq<nat>) -> Option<(P, seq<nat>, nat)>

  function CourseFrom<P>(step: Step<P>, p: P, generated: seq<nat>, count: nat): Course
    decreases count - |generated|
  {
    if |generated| >= count then Course(false, generated, [])
    else
      var next := step(p, generated);
      if next.None? || next.value.1 == [] then Course(true, generated, [])
      else After([next.value.2], CourseFrom(step, next.value.0, generated + next.value.1, count))
  }

  /** The rounds so far, then what is still to come. */
  function After(lengths: seq<nat>, rest: Course): Course {
    rest.(lengths := lengths + rest.lengths)
  }

  lemma CourseAdvances<P>(step: Step<P>, p: P, generated: seq<nat>, count: nat, lengths: seq<nat>,
                          after: P, committed: seq<nat>, length: nat)
    requires |generated| < count && committed != []
    requires step(p, generated) == Some((after, committed, length))
    ensures After(lengths, CourseFrom(step, p, generated, count))
         == After(lengths + [length], CourseFrom(step, after, generated + committed, count))
  {
    var rest := CourseFrom(step, after, generated + committed, count);
    assert lengths + ([length] + rest.lengths) == lengths + [length] + rest.lengths;
  }

  lemma CourseEnds<P>(step: Step<P>, p: P, generated: seq<nat>, count: nat, lengths: seq<nat>)
    requires |generated| >= count || step(p, generated).None?
    ensures After(lengths, CourseFrom(step, p, generated, count)) == Course(|generated| < count, generated, lengths)
  {
  }

  /** The rounds of provider and target. */
  ghost function Rounds(d: Engine, e: Engine, prompt: seq<nat>, count: nat, blockSize: nat, expertMajor: bool,
                        work: Workload): Step<Persistent>
  {
    (p: Persistent, generated: seq<nat>) =>
      if PersistentValid(p) && prompt != [] && 0 < |generated| < count then
        RoundOf(d, e, p, prompt, generated, MaxDraft(count, |generated|, blockSize), expertMajor, work)
      else None
  }

  lemma RoundsAt(d: Engine, e: Engine, p: Persistent, prompt: seq<nat>, generated: seq<nat>, count: nat, blockSize: nat,
                 expertMajor: bool, work: Workload)
    requires PersistentValid(p) && prompt != [] && 0 < |generated| < count
    ensures Rounds(d, e, prompt, count, blockSize, expertMajor, work)(p, generated)
         == RoundOf(d, e, p, prompt, generated, MaxDraft(count, |generated|, blockSize), expertMajor, work)
  {
  }

  ghost predicate CountersBelow(s: State, rounds: nat, bound: nat)
    requires Scheduler.Valid(s)
  {
    && (forall p :: 0 <= p < 4 ==> s.trials[p] <= rounds)
    && (forall r :: 0 <= r < 3 ==> s.loads[r] <= rounds * bound && s.assignments[r] <= rounds * bound)
  }

  /** Between rounds. */
  ghost predicate Ready(d: Engine, p: Persistent, prompt: seq<nat>, generated: seq<nat>, rounds: nat, bound: nat) {
    && PersistentValid(p)
    && !p.life.lifecycleError && !p.life.pending
    && p.life.prompt == prompt
    && (p.life.initialized ==> p.life.expected == generated)
    && InVocabulary(d, prompt + generated)
    && CountersBelow(p.life.scheduler, rounds, bound)
    && (p.life.scheduler.config.policy == Fixed ==> p.life.scheduler.cap.None?)
  }

  /** Between a proposal and its verification. */
  ghost predicate Waiting(d: Engine, p: Persistent, prompt: seq<nat>, generated: seq<nat>, q: Proposal, rounds: nat,
                          bound: nat)
  {
    && PersistentValid(p)
    && !p.life.lifecycleError && p.life.pending
    && p.life.prompt == prompt
    && p.life.expected == generated
    && p.life.initialized
    && p.life.pendingAnchor == q.anchor && p.life.pendingCandidates == q.candidates
    && InVocabulary(d, prompt + generated)
    && CountersBelow(p.life.scheduler, rounds, bound)
    && (p.life.scheduler.config.policy == Fixed ==> p.life.scheduler.cap.None?)
    && (q.candidates != [] ==>
          |q.candidates| in LADDER && |q.candidates| <= p.life.scheduler.config.maximumLength)
  }

  lemma ProposalArrives(d: Engine, p: Persistent, prompt: seq<nat>, generated: seq<nat>, maxDraft: nat, rounds: nat,
                        bound: nat)
    requires generated != [] && Ready(d, p, prompt, generated, rounds, bound)
    ensures var request := Request(generated[|generated| - 1], maxDraft, |generated|, generated);
            var (q, answer) := PersistentPropose(d, p, request);
      && answer.Success?
      && answer.value.anchor == generated[|generated| - 1]
      && |answer.value.candidates| == Choose(p.life.scheduler, maxDraft).1 <= maxDraft
      && InVocabulary(d, answer.value.candidates)
      && q.life.scheduler == Choose(p.life.scheduler, maxDraft).0
      && (p.life.scheduler.config.policy == Fixed && maxDraft != 0 ==> answer.value.candidates != [])
      && Waiting(d, q, prompt, generated, answer.value, rounds, bound)
  {
    var (scheduler, length) := Choose(p.life.scheduler, maxDraft);
    assert scheduler.trials == p.life.scheduler.trials && scheduler.loads == p.life.scheduler.loads
           && scheduler.assignments == p.life.scheduler.assignments;
  }

  /** A verified report is one the provider accepts. */
  lemma VerifiedIsAllowed(e: Engine, context: seq<nat>, s: Life, q: Proposal, v: Verification)
    requires context != [] && Verifies(e, context, q, v)
    requires s.pending && s.pendingAnchor == q.anchor && s.pendingCandidates == q.candidates
    ensures UpdateAllowed(s, v)
    ensures InVocabulary(e, v.committed)
  {
    GreedyPrefix(e, context, v.accepted, v.accepted + 1);
  }

  lemma SchedulerAccepts(s: State, v: Verification, rounds: nat, bound: nat)
    requires Scheduler.Valid(s) && CountersBelow(s, rounds, bound)
    requires rounds < UINT64_MAX && (rounds + 1) * bound <= UINT64_MAX
    requires AcceptableReport(s, v) && v.assignments <= bound
    ensures Learn(s, v).1.Success?
    ensures CountersBelow(Learn(s, v).0, rounds + 1, bound)
  {
    assert (rounds + 1) * bound == rounds * bound + bound;
    if v.proposed != 0 {
      assert CountersFit(s, v);
      var c := Counted(s, v);
      assert CountersBelow(c, rounds + 1, bound);
      var t := Learn(s, v).0;
      assert t.trials == c.trials && t.loads == c.loads && t.assignments == c.assignments;
    }
  }

  /** After a round the provider is ready again, unless an empty block reported expert work. */
  lemma UpdateLands(d: Engine, p: Persistent, prompt: seq<nat>, generated: seq<nat>, q: Proposal,
                    v: Verification, rounds: nat, bound: nat)
    requires Waiting(d, p, prompt, generated, q, rounds, bound)
    requires rounds < UINT64_MAX && (rounds + 1) * bound <= UINT64_MAX
    requires UpdateAllowed(p.life, v) && InVocabulary(d, v.committed)
    requires v.discarded <= v.evaluated && v.payloadLoads <= v.assignments <= bound
    ensures var t := PersistentUpdate(d, p, v);
      && PersistentValid(t)
      && (v.proposed == 0 && v.assignments != 0 ==> t.life.lifecycleError)
      && (v.proposed != 0 || v.assignments == 0 ==>
            Ready(d, t, prompt, generated + v.committed, rounds + 1, bound))
  {
    assert v.committed[v.accepted] < d.vocab;
    if v.proposed != 0 || v.assignments == 0 {
      SchedulerAccepts(p.life.scheduler, v, rounds, bound);
      assert InVocabulary(d, prompt + (generated + v.committed)) by {
        var all := prompt + (generated + v.committed);
        assert forall i :: 0 <= i < |prompt + generated| ==> all[i] == (prompt + generated)[i];
        assert forall i :: |prompt + generated| <= i < |all| ==> all[i] == v.committed[i - |prompt + generated|];
      }
    }
  }

  /**
   Exactly when a report breaks a waiting provider: an empty proposal that was still charged expert
   assignments, which is what an expert-major block reports after a paused or final round.
   */
  lemma EmptyBlockBreaks(d: Engine, p: Persistent, prompt: seq<nat>, generated: seq<nat>, q: Proposal,
                         v: Verification, rounds: nat, bound: nat)
    requires Waiting(d, p, prompt, generated, q, rounds, bound)
    requires rounds < UINT64_MAX && (rounds + 1) * bound <= UINT64_MAX
    requires UpdateAllowed(p.life, v) && InVocabulary(d, v.committed)
    requires v.discarded <= v.evaluated && v.payloadLoads <= v.assignments <= bound
    ensures PersistentUpdate(d, p, v).life.lifecycleError <==> v.proposed == 0 && v.assignments != 0
  {
    UpdateLands(d, p, prompt, generated, q, v, rounds, bound);
  }

  /** The provider between rounds: in step with the target, or broken. */
  ghost predicate InStep(provider: PersistentDraftProvider, d: Engine, prompt: seq<nat>, generated: seq<nat>,
                         rounds: nat, bound: nat)
    reads provider, provider.scheduler, provider.cursor
  {
    && provider.Valid() && provider.engine == d
    && (!provider.lifecycleError ==> Ready(d, provider.Abs(), prompt, generated, rounds, bound))
  }

  /** The request of a round: answered unless the provider is broken. */
  method Ask(provider: PersistentDraftProvider, d: Engine, ghost prompt: seq<nat>, generated: seq<nat>,
             maxDraft: nat, ghost rounds: nat, ghost bound: nat)
      returns (answer: Result<Proposal>)
    requires generated != [] && InStep(provider, d, prompt, generated, rounds, bound)
    modifies provider, provider.scheduler, provider.cursor
    ensures provider.Valid() && (provider.cursor != old(provider.cursor) ==> fresh(provider.cursor))
    ensures answer.Success? <==> !old(provider.lifecycleError)
    ensures (provider.Abs(), answer) ==
      PersistentPropose(d, old(provider.Abs()), Request(generated[|generated| - 1], maxDraft, |generated|, generated))
    ensures answer.Success? ==>
      && Waiting(d, provider.Abs(), prompt, generated, answer.value, rounds, bound)
      && answer.value.anchor == generated[|generated| - 1]
      && |answer.value.candidates| <= maxDraft && InVocabulary(d, answer.value.candidates)
      && (provider.scheduler.config.policy == Fixed && maxDraft != 0 ==> answer.value.candidates != [])
  {
    if !provider.lifecycleError {
      ProposalArrives(d, provider.Abs(), prompt, generated, maxDraft, rounds, bound);
    }
    answer := provider.Propose(Request(generated[|generated| - 1], maxDraft, |generated|, generated));
  }

  /** The report of a round: it breaks the provider exactly when an expert-major block had no draft. */
  method Tell(provider: PersistentDraftProvider, ghost e: Engine, d: Engine, ghost prompt: seq<nat>,
              ghost generated: seq<nat>, ghost q: Proposal, verified: Verification, expertMajor: bool,
              load: Load, ghost work: Load, ghost rounds: nat, ghost bound: nat)
    requires d.vocab == e.vocab && prompt != [] && provider.Valid() && provider.engine == d
    requires Waiting(d, provider.Abs(), prompt, generated, q, rounds, bound)
    requires Verifies(e, prompt + generated, q, verified)
    requires SaneLoad(work, bound)
    requires WithFeedback(verified, expertMajor, load) == WithFeedback(verified, expertMajor, work)
    requires rounds < UINT64_MAX && (rounds + 1) * bound <= UINT64_MAX
    modifies provider, provider.scheduler, provider.cursor
    ensures provider.cursor == old(provider.cursor)
    ensures provider.Abs() == PersistentUpdate(d, old(provider.Abs()), WithFeedback(verified, expertMajor, work))
    ensures InStep(provider, d, prompt, generated + verified.committed, rounds + 1, bound)
    ensures provider.lifecycleError <==> expertMajor && q.candidates == []
  {
    var v := WithFeedback(verified, expertMajor, load);
    ghost var p := provider.Abs();
    VerifiedIsAllowed(e, prompt + generated, p.life, q, verified);
    assert UpdateAllowed(p.life, v);
    FeedbackIsSane(verified, expertMajor, work, bound);
    UpdateLands(d, p, prompt, generated, q, v, rounds, bound);
    provider.Update(v);
  }

  /** The report of a round, with the work of its block. */
  ghost function ReportOf(e: Engine, prompt: seq<nat>, generated: seq<nat>, q: Proposal, expertMajor: bool,
                          work: Workload): Verification
    requires prompt != []
  {
    WithFeedback(Verified(e, prompt + generated, q), expertMajor, work(prompt + generated, q))
  }

  /** A load that is not reported does not matter. */
  lemma FeedbackIgnores(v: Verification, a: Load, b: Load)
    requires v.accepted <= v.proposed
    ensures WithFeedback(v, false, a) == WithFeedback(v, false, b)
  {
  }

  /** The target and the work of its blocks. */
  ghost predicate Serves(k: Kernels, e: Engine, work: Workload) {
    IsTarget(k, e) && work == WorkloadOf(k)
  }

  /** The block of a waiting provider costs no more than any other. */
  lemma WaitingIsSane(d: Engine, p: Persistent, prompt: seq<nat>, generated: seq<nat>, q: Proposal, rounds: nat,
                      bound: nat, work: Workload)
    requires Waiting(d, p, prompt, generated, q, rounds, bound) && SaneWork(work, bound) && prompt != []
    ensures SaneLoad(work(prompt + generated, q), bound)
  {
    assert |q.candidates| <= 4;
  }

  /** The target's side of a round and the report: the committed tokens and the target state after them. */
  method VerifyAndTell(provider: PersistentDraftProvider, k: Kernels, e: Engine, d: Engine, ghost work: Workload,
                       ghost prompt: seq<nat>,
                       generated: seq<nat>, q: Proposal, maxDraft: nat, expertMajor: bool, state: ModelState,
                       ghost rounds: nat, ghost bound: nat)
      returns (committed: seq<nat>, after: ModelState)
    requires Serves(k, e, work) && d.vocab == e.vocab && RoundKept(e, prompt, generated, state)
    requires provider.Valid() && provider.engine == d
    requires Waiting(d, provider.Abs(), prompt, generated, q, rounds, bound)
    requires q.anchor == generated[|generated| - 1] && ProposalFits(e, q, maxDraft)
    requires SaneLoad(work(prompt + generated, q), bound)
    requires rounds < UINT64_MAX && (rounds + 1) * bound <= UINT64_MAX
    modifies provider, provider.scheduler, provider.cursor
    ensures provider.cursor == old(provider.cursor)
    ensures provider.Abs() ==
      PersistentUpdate(d, old(provider.Abs()), ReportOf(e, prompt, generated, q, expertMajor, work))
    ensures committed == Verified(e, prompt + generated, q).committed
    ensures RoundKept(e, prompt, generated + committed, after)
    ensures InStep(provider, d, prompt, generated + committed, rounds + 1, bound)
    ensures provider.lifecycleError <==> expertMajor && q.candidates == []
  {
    var round := Round(k, e, expertMajor, prompt, generated, q, maxDraft, state);
    var (verified, load, next) := round.value;
    ghost var full := work(prompt + generated, q);
    SameReport(e, prompt + generated, q, verified, expertMajor, full);
    if !expertMajor {
      FeedbackIgnores(verified, load, full);
    }
    Tell(provider, e, d, prompt, generated, q, verified, expertMajor, load, full, rounds, bound);
    return verified.committed, next;
  }

  /** The rest of a round that has its proposal. */
  method AnsweredRound(provider: PersistentDraftProvider, k: Kernels, e: Engine, d: Engine, ghost work: Workload,
                       ghost prompt: seq<nat>, generated: seq<nat>, maxDraft: nat, expertMajor: bool, state: ModelState,
                       q: Proposal, ghost p: Persistent, ghost rounds: nat, ghost bound: nat)
      returns (committed: seq<nat>, after: ModelState)
    requires Serves(k, e, work) && d.vocab == e.vocab && RoundKept(e, prompt, generated, state)
    requires provider.Valid() && provider.engine == d && PersistentValid(p)
    requires PersistentPropose(d, p, Request(generated[|generated| - 1], maxDraft, |generated|, generated))
          == (provider.Abs(), Success(q))
    requires Waiting(d, provider.Abs(), prompt, generated, q, rounds, bound)
    requires q.anchor == generated[|generated| - 1]
    requires |q.candidates| <= maxDraft && InVocabulary(d, q.candidates) && SaneWork(work, bound)
    requires rounds < UINT64_MAX && (rounds + 1) * bound <= UINT64_MAX
    modifies provider, provider.scheduler, provider.cursor
    ensures provider.cursor == old(provider.cursor)
    ensures RoundOf(d, e, p, prompt, generated, maxDraft, expertMajor, work)
         == Some((provider.Abs(), committed, |q.candidates|))
    ensures RoundKept(e, prompt, generated + committed, after)
    ensures InStep(provider, d, prompt, generated + committed, rounds + 1, bound)
    ensures provider.lifecycleError <==> expertMajor && q.candidates == []
  {
    AnchorIsKnown(e, prompt, generated, state);
    ghost var asked := provider.Abs();
    WaitingIsSane(d, asked, prompt, generated, q, rounds, bound, work);
    committed, after := VerifyAndTell(provider, k, e, d, work, prompt, generated, q, maxDraft, expertMajor, state,
                                      rounds, bound);
    RoundIs(d, e, p, prompt, generated, maxDraft, expertMajor, work, asked, q, provider.Abs());
  }

  /** One round on both sides: the committed tokens, the target state after them, the draft length. */
  method AuroraRound(provider: PersistentDraftProvider, k: Kernels, e: Engine, d: Engine, ghost work: Workload,
                     ghost prompt: seq<nat>,
                     generated: seq<nat>, maxDraft: nat, expertMajor: bool, state: ModelState, ghost rounds: nat,
                     ghost bound: nat)
      returns (r: Result<(seq<nat>, ModelState, nat)>)
    requires Serves(k, e, work) && d.vocab == e.vocab && RoundKept(e, prompt, generated, state)
    requires InStep(provider, d, prompt, generated, rounds, bound) && SaneWork(work, bound)
    requires rounds < UINT64_MAX && (rounds + 1) * bound <= UINT64_MAX
    modifies provider, provider.scheduler, provider.cursor
    ensures provider.Valid() && (provider.cursor != old(provider.cursor) ==> fresh(provider.cursor))
    ensures r.Success? <==> !old(provider.lifecycleError)
    ensures RoundOf(d, e, old(provider.Abs()), prompt, generated, maxDraft, expertMajor, work)
         == if r.Success? then Some((provider.Abs(), r.value.0, r.value.2)) else None
    ensures r.Success? ==>
      && RoundKept(e, prompt, generated + r.value.0, r.value.1)
      && InStep(provider, d, prompt, generated + r.value.0, rounds + 1, bound)
      && 0 < |r.value.0| <= r.value.2 + 1 <= maxDraft + 1
      && (provider.lifecycleError <==> expertMajor && r.value.2 == 0)
      && (provider.scheduler.config.policy == Fixed && maxDraft != 0 ==> r.value.2 != 0)
  {
    ghost var p := provider.Abs();
    var answer := Ask(provider, d, prompt, generated, maxDraft, rounds, bound);
    if answer.Failure? {
      NoRound(d, e, p, prompt, generated, maxDraft, expertMajor, work);
      return Failure(answer.error);
    }
    var committed, after := AnsweredRound(provider, k, e, d, work, prompt, generated, maxDraft, expertMajor, state,
                                          answer.value, p, rounds, bound);
    return Success((committed, after, |answer.value.candidates|));
  }

  /** A round that drafted nothing, unless it was the last. */
  ghost predicate Paused(lengths: seq<nat>) {
    lengths != [] && lengths[|lengths| - 1] == 0
  }

  /** Every round before the last one drafted something. */
  ghost predicate Busy(lengths: seq<nat>) {
    forall i :: 0 <= i < |lengths| - 1 ==> lengths[i] != 0
  }

  /**
   What a course comes to: it is greedy throughout, and it fails exactly when an expert-major round
   that was not the last drafted nothing.
   */
  ghost predicate GreedyCourse(e: Engine, prompt: seq<nat>, count: nat, expertMajor: bool, c: Course)
    requires prompt != []
  {
    && c.generated == Greedy(e, prompt, |c.generated|) && |c.generated| <= count
    && (!c.failed ==> |c.generated| == count)
    && (c.failed <==> expertMajor && Paused(c.lengths) && |c.generated| < count)
    && (!c.failed && expertMajor ==> Busy(c.lengths))
  }

  lemma StillBusy(lengths: seq<nat>, length: nat)
    requires Busy(lengths) && !Paused(lengths)
    ensures Busy(lengths + [length])
  {
  }

  /** What the loop keeps about the provider and the rounds so far. */
  ghost predicate Underway(provider: PersistentDraftProvider, d: Engine, prompt: seq<nat>, generated: seq<nat>,
                           count: nat, expertMajor: bool, rounds: nat, lengths: seq<nat>, bound: nat)
    reads provider, provider.scheduler, provider.cursor
  {
    && rounds == |lengths| < |generated| <= count
    && InStep(provider, d, prompt, generated, rounds, bound)
    && (provider.lifecycleError <==> expertMajor && Paused(lengths))
    && (expertMajor ==> Busy(lengths))
    && (provider.scheduler.config.policy == Fixed && |generated| < count ==> !provider.lifecycleError)
  }

  /** One turn of the loop. */
  method NextRound(provider: PersistentDraftProvider, k: Kernels, e: Engine, d: Engine, ghost work: Workload,
                   prompt: seq<nat>,
                   generated: seq<nat>, state: ModelState, count: nat, blockSize: nat, expertMajor: bool,
                   ghost rounds: nat, ghost lengths: seq<nat>, ghost bound: nat)
      returns (r: Result<(seq<nat>, ModelState, nat)>)
    requires Serves(k, e, work) && d.vocab == e.vocab && RoundKept(e, prompt, generated, state)
    requires |generated| < count && blockSize != 0
    requires Underway(provider, d, prompt, generated, count, expertMajor, rounds, lengths, bound)
    requires SaneWork(work, bound) && count <= UINT64_MAX && count * bound <= UINT64_MAX
    modifies provider, provider.scheduler, provider.cursor
    ensures provider.cursor != old(provider.cursor) ==> fresh(provider.cursor)
    ensures RoundOf(d, e, old(provider.Abs()), prompt, generated, MaxDraft(count, |generated|, blockSize), expertMajor,
                    work)
         == if r.Success? then Some((provider.Abs(), r.value.0, r.value.2)) else None
    ensures r.Failure? ==> expertMajor && Paused(lengths) && provider.scheduler.config.policy != Fixed
    ensures r.Success? ==>
      && r.value.0 != []
      && RoundKept(e, prompt, generated + r.value.0, r.value.1)
      && Underway(provider, d, prompt, generated + r.value.0, count, expertMajor, rounds + 1, lengths + [r.value.2],
                  bound)
  {
    RoundsFit(rounds + 1, count, bound);
    r := AuroraRound(provider, k, e, d, work, prompt, generated, MaxDraft(count, |generated|, blockSize), expertMajor,
                     state, rounds, bound);
    if r.Success? && expertMajor {
      StillBusy(lengths, r.value.2);
    }
  }

  /** The rounds so far and the course from here make up the whole course. */
  ghost predicate OnCourse(step: Step<Persistent>, p: Persistent, generated: seq<nat>, count: nat, lengths: seq<nat>,
                           whole: Course)
  {
    After(lengths, CourseFrom(step, p, generated, count)) == whole
  }

  /** One turn of the loop along its course. */
  method Turn(provider: PersistentDraftProvider, k: Kernels, e: Engine, d: Engine, ghost work: Workload,
              prompt: seq<nat>, generated: seq<nat>, state: ModelState, count: nat, blockSize: nat, expertMajor: bool,
              ghost rounds: nat, ghost lengths: seq<nat>, ghost bound: nat, ghost whole: Course)
      returns (r: Result<(seq<nat>, ModelState)>, ghost longer: seq<nat>)
    requires Serves(k, e, work) && d.vocab == e.vocab && RoundKept(e, prompt, generated, state)
    requires |generated| < count && blockSize != 0
    requires Underway(provider, d, prompt, generated, count, expertMajor, rounds, lengths, bound)
    requires SaneWork(work, bound) && count <= UINT64_MAX && count * bound <= UINT64_MAX
    requires OnCourse(Rounds(d, e, prompt, count, blockSize, expertMajor, work), provider.Abs(), generated, count,
                      lengths, whole)
    modifies provider, provider.scheduler, provider.cursor
    ensures provider.cursor != old(provider.cursor) ==> fresh(provider.cursor)
    ensures r.Failure? ==> whole == Course(true, generated, lengths)
    ensures r.Failure? ==> expertMajor && Paused(lengths) && provider.scheduler.config.policy != Fixed
    ensures r.Success? ==>
      && |r.value.0| > |generated| && RoundKept(e, prompt, r.value.0, r.value.1)
      && Underway(provider, d, prompt, r.value.0, count, expertMajor, rounds + 1, longer, bound)
      && OnCourse(Rounds(d, e, prompt, count, blockSize, expertMajor, work), provider.Abs(), r.value.0, count, longer,
                  whole)
  {
    ghost var step, before := Rounds(d, e, prompt, count, blockSize, expertMajor, work), provider.Abs();
    longer := lengths;
    RoundsAt(d, e, before, prompt, generated, count, blockSize, expertMajor, work);
    var round := NextRound(provider, k, e, d, work, prompt, generated, state, count, blockSize, expertMajor,
                           rounds, lengths, bound);
    if round.Failure? {
      CourseEnds(step, before, generated, count, lengths);
      return Failure(round.error), longer;
    }
    var (committed, after, length) := round.value;
    CourseAdvances(step, before, generated, count, lengths, provider.Abs(), committed, length);
    return Success((generated + committed, after)), lengths + [length];
  }

  /** The rounds after the first token, which are those of the course from there. */
  method DecodeRounds(provider: PersistentDraftProvider, k: Kernels, e: Engine, d: Engine, ghost work: Workload,
                      prompt: seq<nat>, first: seq<nat>, start: ModelState, count: nat, blockSize: nat,
                      expertMajor: bool, ghost bound: nat)
      returns (failed: bool, generated: seq<nat>, ghost lengths: seq<nat>)
    requires Serves(k, e, work) && d.vocab == e.vocab && RoundKept(e, prompt, first, start)
    requires |first| <= count && blockSize != 0
    requires InStep(provider, d, prompt, first, 0, bound) && !provider.lifecycleError
    requires SaneWork(work, bound) && count <= UINT64_MAX && count * bound <= UINT64_MAX
    modifies provider, provider.scheduler, provider.cursor
    ensures Course(failed, generated, lengths) ==
      CourseFrom(Rounds(d, e, prompt, count, blockSize, expertMajor, work), old(provider.Abs()), first, count)
    ensures GreedyCourse(e, prompt, count, expertMajor, Course(failed, generated, lengths))
    ensures provider.scheduler.config.policy == Fixed ==> !failed
  {
    generated, lengths := first, [];
    var state := start;
    ghost var rounds := 0;
    ghost var step := Rounds(d, e, prompt, count, blockSize, expertMajor, work);
    ghost var whole := CourseFrom(step, provider.Abs(), first, count);
    while |generated| < count
      invariant provider.cursor != old(provider.cursor) ==> fresh(provider.cursor)
      invariant RoundKept(e, prompt, generated, state)
      invariant Underway(provider, d, prompt, generated, count, expertMajor, rounds, lengths, bound)
      invariant OnCourse(step, provider.Abs(), generated, count, lengths, whole)
      decreases count - |generated|
    {
      var turn;
      ghost var longer;
      turn, longer := Turn(provider, k, e, d, work, prompt, generated, state, count, blockSize, expertMajor, rounds,
                           lengths, bound, whole);
      if turn.Failure? {
        return true, generated, lengths;
      }
      generated, state, rounds, lengths := turn.value.0, turn.value.1, rounds + 1, longer;
    }
    CourseEnds(step, provider.Abs(), generated, count, lengths);
    failed := false;
  }

  /** The course of a generation with a fresh provider, from the target's first token on. */
  ghost function AuroraCourse(e: Engine, d: Engine, c: Config, prompt: seq<nat>, count: nat, blockSize: nat,
                              expertMajor: bool, work: Workload): Course
    requires ValidConfig(c) && prompt != []
  {
    if count == 0 then Course(false, [], [])
    else
      CourseFrom(Rounds(d, e, prompt, count, blockSize, expertMajor, work),
                 Persistent(FreshLife(c, prompt), None, false), Greedy(e, prompt, 1), count)
  }

  /**
   Generation with a fresh persistent provider, blocks and their expert work as the target runs them: it
   goes the way of its course. Whatever comes out is the target's greedy output. Verified token by token,
   the loop always finishes. Verified in expert-major blocks it fails exactly when a round that is not the
   last one drafts nothing: the provider then refuses the report and every later proposal. The fixed
   policy never gets there.
   */
  method GenerateWithAurora(k: Kernels, d: Engine, c: Config, prompt: seq<nat>, count: nat, blockSize: nat,
                            expertMajor: bool)
      returns (r: Result<seq<nat>>, generated: seq<nat>)
    requires KernelsOk(k) && RoutesWell(k) && k.emptyKda != [] && d.vocab == k.vocab && ValidConfig(c)
    requires count <= UINT64_MAX && count * WorkBound(k) <= UINT64_MAX
    ensures prompt == [] || blockSize == 0 || !InVocabulary(EngineOf(k), prompt) ==> r.Failure?
    ensures r.Success? ==> prompt != [] && r.value == generated == Greedy(EngineOf(k), prompt, count)
    ensures prompt != [] && blockSize != 0 && InVocabulary(EngineOf(k), prompt) ==>
      var course := AuroraCourse(EngineOf(k), d, c, prompt, count, blockSize, expertMajor, WorkloadOf(k));
      && r.Failure? == course.failed && generated == course.generated
      && GreedyCourse(EngineOf(k), prompt, count, expertMajor, course)
      && (c.policy == Fixed ==> r.Success?)
  {
    generated := [];
    if blockSize == 0 {
      return Failure("invalid_state"), generated;
    }
    if prompt == [] {
      return Failure("invalid_extent"), generated;
    }
    var e := EngineOf(k);
    var prefilled := Prefill(e, prompt);
    if prefilled.Failure? {
      return Failure(prefilled.error), generated;
    }
    if count == 0 {
      return Success([]), generated;
    }
    var provider := new PersistentDraftProvider(d, prompt, c);
    var (logits, state) := prefilled.value;
    var first := FirstToken(e, prompt, logits);
    TargetWorksSanely(k);
    FreshIsReady(e, d, c, prompt, first, WorkBound(k));
    var failed;
    ghost var lengths;
    failed, generated, lengths := DecodeRounds(provider, k, e, d, WorkloadOf(k), prompt, first, state, count, blockSize,
                                               expertMajor, WorkBound(k));
    if failed {
      return Failure("invalid_state"), generated;
    }
    return Success(generated), generated;
  }

  lemma FreshIsReady(e: Engine, d: Engine, c: Config, prompt: seq<nat>, first: seq<nat>, bound: nat)
    requires d.vocab == e.vocab && ValidConfig(c) && prompt != []
    requires InVocabulary(e, prompt) && InVocabulary(e, first)
    ensures Ready(d, Persistent(FreshLife(c, prompt), None, false), prompt, first, 0, bound)
  {
    var all := prompt + first;
    assert forall i :: 0 <= i < |all| ==> all[i] == if i < |prompt| then prompt[i] else first[i - |prompt|];
  }

  lemma RoundsFit(rounds: nat, count: nat, bound: nat)
    requires rounds <= count
    ensures rounds * bound <= count * bound
  {
  }
}
