/**
 How a generation fails: in expert-major blocks a rejected probe of one token pauses the scheduler, the
 paused round drafts nothing, and the block charged to it breaks the provider. And when none can.
 */
module ClosedLoopRuns {
  import opened Wrappers
  import opened Engine
  import opened Scheduler
  import opened Providers
  import opened Speculative
  import opened BlockForward
  import opened ClosedLoop

  function RequestFor(generated: seq<nat>, maxDraft: nat): Request
    requires generated != []
  {
    Request(generated[|generated| - 1], maxDraft, |generated|, generated)
  }

  /** A round whose proposal is verified: it drafts what the scheduler chose and commits what the target says. */
  lemma RoundHappens(d: Engine, e: Engine, p: Persistent, prompt: seq<nat>, generated: seq<nat>, maxDraft: nat,
                     expertMajor: bool, work: Workload, rounds: nat, bound: nat)
    requires d.vocab == e.vocab && prompt != [] && generated != []
    requires Ready(d, p, prompt, generated, rounds, bound)
    ensures var (q, answer) := PersistentPropose(d, p, RequestFor(generated, maxDraft));
      && answer.Success? && |answer.value.candidates| == Choose(p.life.scheduler, maxDraft).1
      && q.life.scheduler == Choose(p.life.scheduler, maxDraft).0
      && Waiting(d, q, prompt, generated, answer.value, rounds, bound)
      && RoundOf(d, e, p, prompt, generated, maxDraft, expertMajor, work)
         == Some((PersistentUpdate(d, q, ReportOf(e, prompt, generated, answer.value, expertMajor, work)),
                  Verified(e, prompt + generated, answer.value).committed, |answer.value.candidates|))
  {
    ProposalArrives(d, p, prompt, generated, maxDraft, rounds, bound);
    var all := prompt + generated;
    assert all[|all| - 1] == generated[|generated| - 1];
  }

  lemma ReportKeepsPolicy(d: Engine, q: Persistent, v: Verification)
    requires PersistentValid(q)
    ensures PersistentUpdate(d, q, v).life.scheduler.config == q.life.scheduler.config
  {
  }

  /** What a round of a ready provider comes to, whatever it drafts. */
  lemma RoundGoesOn(d: Engine, e: Engine, p: Persistent, prompt: seq<nat>, generated: seq<nat>, maxDraft: nat,
                    expertMajor: bool, work: Workload, rounds: nat, bound: nat)
      returns (after: Persistent, committed: seq<nat>, length: nat)
    requires d.vocab == e.vocab && prompt != [] && generated != []
    requires Ready(d, p, prompt, generated, rounds, bound) && SaneWork(work, bound)
    requires rounds < UINT64_MAX && (rounds + 1) * bound <= UINT64_MAX
    ensures RoundOf(d, e, p, prompt, generated, maxDraft, expertMajor, work) == Some((after, committed, length))
    ensures length == Choose(p.life.scheduler, maxDraft).1 && 0 < |committed| <= length + 1 <= maxDraft + 1
    ensures after.life.scheduler.config == p.life.scheduler.config && PersistentValid(after)
    ensures length != 0 || !expertMajor ==> Ready(d, after, prompt, generated + committed, rounds + 1, bound)
  {
    RoundHappens(d, e, p, prompt, generated, maxDraft, expertMajor, work, rounds, bound);
    var (q, answer) := PersistentPropose(d, p, RequestFor(generated, maxDraft));
    var verified := Verified(e, prompt + generated, answer.value);
    VerifiedIsAllowed(e, prompt + generated, q.life, answer.value, verified);
    var load := work(prompt + generated, answer.value);
    WaitingIsSane(d, q, prompt, generated, answer.value, rounds, bound, work);
    FeedbackIsSane(verified, expertMajor, load, bound);
    var v := WithFeedback(verified, expertMajor, load);
    UpdateLands(d, q, prompt, generated, answer.value, v, rounds, bound);
    ReportKeepsPolicy(d, q, v);
    after, committed, length := PersistentUpdate(d, q, v), verified.committed, |answer.value.candidates|;
  }

  /** The draft of the next round is one token that the target would not have said. */
  ghost predicate ProbeRejected(d: Engine, e: Engine, p: Persistent, prompt: seq<nat>, generated: seq<nat>,
                                maxDraft: nat)
    requires PersistentValid(p) && prompt != [] && generated != []
  {
    var answer := PersistentPropose(d, p, RequestFor(generated, maxDraft)).1;
    && answer.Success? && |answer.value.candidates| == 1
    && answer.value.candidates != Greedy(e, prompt + generated, 1)
  }

  lemma NoneAgrees(e: Engine, context: seq<nat>, candidates: seq<nat>)
    requires context != [] && |candidates| == 1 && candidates != Greedy(e, context, 1)
    ensures Agreeing(e, context, candidates) == 0
  {
    assert candidates[..1] == candidates;
  }

  /** A rejected probe leaves the provider ready and the scheduler paused. */
  lemma ProbeRound(d: Engine, e: Engine, p: Persistent, prompt: seq<nat>, generated: seq<nat>, maxDraft: nat,
                   work: Workload, rounds: nat, bound: nat) returns (after: Persistent)
    requires d.vocab == e.vocab && prompt != [] && generated != []
    requires Ready(d, p, prompt, generated, rounds, bound) && p.life.scheduler.config.policy == Adaptive
    requires ProbeRejected(d, e, p, prompt, generated, maxDraft) && SaneWork(work, bound)
    requires rounds < UINT64_MAX && (rounds + 1) * bound <= UINT64_MAX
    ensures RoundOf(d, e, p, prompt, generated, maxDraft, true, work)
         == Some((after, Greedy(e, prompt + generated, 1), 1))
    ensures Ready(d, after, prompt, generated + Greedy(e, prompt + generated, 1), rounds + 1, bound)
    ensures after.life.scheduler.cap == Some(0) && after.life.scheduler.config.policy == Adaptive
  {
    RoundHappens(d, e, p, prompt, generated, maxDraft, true, work, rounds, bound);
    var (q, answer) := PersistentPropose(d, p, RequestFor(generated, maxDraft));
    var verified := Verified(e, prompt + generated, answer.value);
    NoneAgrees(e, prompt + generated, answer.value.candidates);
    VerifiedIsAllowed(e, prompt + generated, q.life, answer.value, verified);
    WaitingIsSane(d, q, prompt, generated, answer.value, rounds, bound, work);
    var v := WithFeedback(verified, true, work(prompt + generated, answer.value));
    UpdateLands(d, q, prompt, generated, answer.value, v, rounds, bound);
    after := PersistentUpdate(d, q, v);
    RejectionCaps(q.life.scheduler, v, rounds, bound);
  }

  lemma RejectionCaps(s: State, v: Verification, rounds: nat, bound: nat)
    requires Scheduler.Valid(s) && CountersBelow(s, rounds, bound) && s.config.policy == Adaptive
    requires rounds < UINT64_MAX && (rounds + 1) * bound <= UINT64_MAX
    requires v.accepted == 0 && v.proposed == 1
    requires v.discarded <= v.evaluated && v.payloadLoads <= v.assignments <= bound
    ensures Learn(s, v).0.cap == Some(0)
  {
    SchedulerAccepts(s, v, rounds, bound);
  }

  /** The paused round drafts nothing, commits one token and breaks the provider. */
  lemma PausedRound(d: Engine, e: Engine, p: Persistent, prompt: seq<nat>, generated: seq<nat>, maxDraft: nat,
                    work: Workload, rounds: nat, bound: nat) returns (after: Persistent)
    requires d.vocab == e.vocab && prompt != [] && generated != []
    requires Ready(d, p, prompt, generated, rounds, bound) && p.life.scheduler.config.policy == Adaptive
    requires p.life.scheduler.cap == Some(0) && SaneWork(work, bound)
    requires rounds < UINT64_MAX && (rounds + 1) * bound <= UINT64_MAX
    ensures RoundOf(d, e, p, prompt, generated, maxDraft, true, work)
         == Some((after, Greedy(e, prompt + generated, 1), 0))
    ensures PersistentValid(after) && after.life.lifecycleError
  {
    RoundHappens(d, e, p, prompt, generated, maxDraft, true, work, rounds, bound);
    var (q, answer) := PersistentPropose(d, p, RequestFor(generated, maxDraft));
    var verified := Verified(e, prompt + generated, answer.value);
    VerifiedIsAllowed(e, prompt + generated, q.life, answer.value, verified);
    WaitingIsSane(d, q, prompt, generated, answer.value, rounds, bound, work);
    var v := WithFeedback(verified, true, work(prompt + generated, answer.value));
    UpdateLands(d, q, prompt, generated, answer.value, v, rounds, bound);
    after := PersistentUpdate(d, q, v);
  }

  /** A round as a step of the generation. */
  ghost predicate IsStep(d: Engine, e: Engine, prompt: seq<nat>, count: nat, blockSize: nat, expertMajor: bool,
                         work: Workload, p: Persistent, generated: seq<nat>,
                         next: Option<(Persistent, seq<nat>, nat)>)
  {
    Rounds(d, e, prompt, count, blockSize, expertMajor, work)(p, generated) == next
  }

  /** The probe and the paused round, as steps of the generation. */
  lemma ProbeAndPause(d: Engine, e: Engine, p: Persistent, prompt: seq<nat>, generated: seq<nat>, one: seq<nat>,
                      two: seq<nat>, count: nat, blockSize: nat, work: Workload, rounds: nat, bound: nat)
      returns (p1: Persistent, p2: Persistent)
    requires d.vocab == e.vocab && prompt != [] && generated != [] && |generated| + 3 <= count && blockSize != 0
    requires SaneWork(work, bound) && rounds + 2 <= UINT64_MAX && (rounds + 2) * bound <= UINT64_MAX
    requires Ready(d, p, prompt, generated, rounds, bound) && p.life.scheduler.config.policy == Adaptive
    requires ProbeRejected(d, e, p, prompt, generated, MaxDraft(count, |generated|, blockSize))
    requires one == Greedy(e, prompt + generated, 1) && two == Greedy(e, prompt + (generated + one), 1)
    ensures IsStep(d, e, prompt, count, blockSize, true, work, p, generated, Some((p1, one, 1)))
    ensures IsStep(d, e, prompt, count, blockSize, true, work, p1, generated + one, Some((p2, two, 0)))
    ensures PersistentValid(p2) && p2.life.lifecycleError
  {
    RoundsFit(rounds + 1, rounds + 2, bound);
    p1 := ProbeRound(d, e, p, prompt, generated, MaxDraft(count, |generated|, blockSize), work, rounds, bound);
    p2 := PausedRound(d, e, p1, prompt, generated + one, MaxDraft(count, |generated + one|, blockSize),
                      work, rounds + 1, bound);
  }

  lemma BrokenStep(d: Engine, e: Engine, p: Persistent, prompt: seq<nat>, generated: seq<nat>, count: nat,
                   blockSize: nat, work: Workload)
    requires PersistentValid(p) && p.life.lifecycleError
    ensures IsStep(d, e, prompt, count, blockSize, true, work, p, generated, None)
  {
    if prompt != [] && 0 < |generated| < count {
      var maxDraft := MaxDraft(count, |generated|, blockSize);
      assert RoundOf(d, e, p, prompt, generated, maxDraft, true, work).None?;
    }
  }

  /** Two greedy tokens, one after the other. */
  lemma TwoTokens(e: Engine, prompt: seq<nat>, generated: seq<nat>, one: seq<nat>, two: seq<nat>)
    requires prompt != []
    requires one == Greedy(e, prompt + generated, 1) && two == Greedy(e, prompt + (generated + one), 1)
    ensures generated + one + two == generated + Greedy(e, prompt + generated, 2)
  {
    GreedyContinues(e, prompt + generated, 1, 1);
    assert prompt + (generated + one) == (prompt + generated) + one;
    assert generated + one + two == generated + (one + two);
  }

  /**
   Whenever an adaptive generation with expert-major verification, at any point of its run, has a
   probe of one token rejected with three tokens or more still to come, it fails two tokens later.
   */
  lemma RejectedProbeFails(d: Engine, e: Engine, p: Persistent, prompt: seq<nat>, generated: seq<nat>, count: nat,
                           blockSize: nat, work: Workload, rounds: nat, bound: nat)
    requires d.vocab == e.vocab && prompt != [] && generated != [] && |generated| + 3 <= count && blockSize != 0
    requires SaneWork(work, bound) && rounds + 2 <= UINT64_MAX && (rounds + 2) * bound <= UINT64_MAX
    requires Ready(d, p, prompt, generated, rounds, bound) && p.life.scheduler.config.policy == Adaptive
    requires ProbeRejected(d, e, p, prompt, generated, MaxDraft(count, |generated|, blockSize))
    ensures CourseFrom(Rounds(d, e, prompt, count, blockSize, true, work), p, generated, count)
         == Course(true, generated + Greedy(e, prompt + generated, 2), [1, 0])
  {
    var one := Greedy(e, prompt + generated, 1);
    var two := Greedy(e, prompt + (generated + one), 1);
    var p1, p2 := ProbeAndPause(d, e, p, prompt, generated, one, two, count, blockSize, work, rounds, bound);
    BrokenStep(d, e, p2, prompt, generated + one + two, count, blockSize, work);
    ThreeRounds(Rounds(d, e, prompt, count, blockSize, true, work), p, generated, p1, one, p2, two, count);
    TwoTokens(e, prompt, generated, one, two);
  }

  lemma ThreeRounds<P>(step: Step<P>, p0: P, generated: seq<nat>, p1: P, one: seq<nat>, p2: P, two: seq<nat>, count: nat)
    requires |one| == |two| == 1 && |generated| + 2 < count
    requires step(p0, generated) == Some((p1, one, 1))
    requires step(p1, generated + one) == Some((p2, two, 0))
    requires step(p2, generated + one + two).None?
    ensures CourseFrom(step, p0, generated, count) == Course(true, generated + one + two, [1, 0])
  {
    var c2 := CourseFrom(step, p2, generated + one + two, count);
    assert c2 == Course(true, generated + one + two, []);
    var c1 := CourseFrom(step, p1, generated + one, count);
    assert c1 == After([0], c2);
  }

  /**
   A fresh adaptive provider whose first token is not the target's: asked for four tokens or more
   in expert-major blocks, the generation ends after three with a failure.
   */
  lemma FirstProbeFails(e: Engine, d: Engine, c: Config, prompt: seq<nat>, count: nat, blockSize: nat,
                        work: Workload, bound: nat)
    requires d.vocab == e.vocab && ValidConfig(c) && c.policy == Adaptive
    requires prompt != [] && InVocabulary(e, prompt) && count >= 4 && blockSize != 0
    requires SaneWork(work, bound) && 2 * bound <= UINT64_MAX
    requires var seen := prompt + Greedy(e, prompt, 1); Greedy(d, seen, 1) != Greedy(e, seen, 1)
    ensures AuroraCourse(e, d, c, prompt, count, blockSize, true, work) == Course(true, Greedy(e, prompt, 3), [1, 0])
  {
    var first := Greedy(e, prompt, 1);
    var p := Persistent(FreshLife(c, prompt), None, false);
    FreshIsReady(e, d, c, prompt, first, bound);
    FreshProbes(c, MaxDraft(count, 1, blockSize));
    RejectedProbeFails(d, e, p, prompt, first, count, blockSize, work, 0, bound);
    GreedyContinues(e, prompt, 1, 2);
  }

  lemma FreshProbes(c: Config, maxDraft: nat)
    requires ValidConfig(c) && c.policy == Adaptive && maxDraft != 0
    ensures Choose(Fresh(c), maxDraft).1 == 1
  {
    var s := Fresh(c);
    assert ExplorationRung(s) == 0;
    assert Eligible(s, 0, EffectiveMaximum(s, maxDraft));
  }

  // ----- Generations that cannot fail -----

  /** The last token needs no draft. */
  lemma LastRound(d: Engine, e: Engine, p: Persistent, prompt: seq<nat>, generated: seq<nat>, count: nat,
                  blockSize: nat, expertMajor: bool, work: Workload, rounds: nat, bound: nat)
    requires d.vocab == e.vocab && prompt != [] && generated != [] && |generated| + 1 == count
    requires Ready(d, p, prompt, generated, rounds, bound) && SaneWork(work, bound)
    requires rounds < UINT64_MAX && (rounds + 1) * bound <= UINT64_MAX
    ensures !CourseFrom(Rounds(d, e, prompt, count, blockSize, expertMajor, work), p, generated, count).failed
  {
    var after, committed, length := RoundGoesOn(d, e, p, prompt, generated, 0, expertMajor, work, rounds, bound);
    RoundsAt(d, e, p, prompt, generated, count, blockSize, expertMajor, work);
    CourseAdvances(Rounds(d, e, prompt, count, blockSize, expertMajor, work), p, generated, count, [], after, committed,
                   length);
  }

  /** After a round that leaves the provider ready the rest decides. */
  lemma RestDecides(d: Engine, e: Engine, p: Persistent, prompt: seq<nat>, generated: seq<nat>, count: nat,
                    blockSize: nat, expertMajor: bool, work: Workload, after: Persistent, committed: seq<nat>,
                    length: nat)
    requires PersistentValid(p) && prompt != [] && 0 < |generated| < count && committed != []
    requires RoundOf(d, e, p, prompt, generated, MaxDraft(count, |generated|, blockSize), expertMajor, work)
          == Some((after, committed, length))
    ensures var step := Rounds(d, e, prompt, count, blockSize, expertMajor, work);
      CourseFrom(step, p, generated, count).failed == CourseFrom(step, after, generated + committed, count).failed
  {
    RoundsAt(d, e, p, prompt, generated, count, blockSize, expertMajor, work);
    CourseAdvances(Rounds(d, e, prompt, count, blockSize, expertMajor, work), p, generated, count, [], after, committed,
                   length);
  }

  /** A round that leaves the provider ready: the rest decides whether the generation fails. */
  lemma ReadyRound(d: Engine, e: Engine, p: Persistent, prompt: seq<nat>, generated: seq<nat>, count: nat,
                   blockSize: nat, expertMajor: bool, work: Workload, rounds: nat, bound: nat)
      returns (after: Persistent, committed: seq<nat>)
    requires d.vocab == e.vocab && prompt != [] && 0 < |generated| < count
    requires Ready(d, p, prompt, generated, rounds, bound) && SaneWork(work, bound)
    requires rounds < UINT64_MAX && (rounds + 1) * bound <= UINT64_MAX
    requires expertMajor ==> Choose(p.life.scheduler, MaxDraft(count, |generated|, blockSize)).1 != 0
    ensures 0 < |committed| <= MaxDraft(count, |generated|, blockSize) + 1
    ensures after.life.scheduler.config == p.life.scheduler.config
    ensures Choose(p.life.scheduler, MaxDraft(count, |generated|, blockSize)).1 + 1 >= |committed|
    ensures Ready(d, after, prompt, generated + committed, rounds + 1, bound)
    ensures var step := Rounds(d, e, prompt, count, blockSize, expertMajor, work);
      CourseFrom(step, p, generated, count).failed == CourseFrom(step, after, generated + committed, count).failed
  {
    var maxDraft := MaxDraft(count, |generated|, blockSize);
    var length;
    after, committed, length := RoundGoesOn(d, e, p, prompt, generated, maxDraft, expertMajor, work, rounds, bound);
    RestDecides(d, e, p, prompt, generated, count, blockSize, expertMajor, work, after, committed, length);
  }

  ghost predicate KeptBy<P>(step: Step<P>, good: (P, seq<nat>) -> bool, p: P, generated: seq<nat>) {
    var next := step(p, generated);
    next.Some? && next.value.1 != [] && good(next.value.0, generated + next.value.1)
  }

  /** Steps that keep what they need never fail. */
  ghost predicate Keeps<P(!new)>(step: Step<P>, good: (P, seq<nat>) -> bool, count: nat) {
    forall p: P, generated: seq<nat> :: good(p, generated) && |generated| < count ==> KeptBy(step, good, p, generated)
  }

  lemma {:induction false} KeptCourse<P(!new)>(step: Step<P>, good: (P, seq<nat>) -> bool, p: P, generated: seq<nat>,
                                               count: nat)
    requires Keeps(step, good, count) && good(p, generated)
    ensures !CourseFrom(step, p, generated, count).failed
    decreases count - |generated|
  {
    if |generated| < count {
      var (after, committed, length) := step(p, generated).value;
      KeptCourse(step, good, after, generated + committed, count);
    }
  }

  /** More rounds allow higher counters. */
  lemma MoreRounds(d: Engine, p: Persistent, prompt: seq<nat>, generated: seq<nat>, rounds: nat, more: nat, bound: nat)
    requires Ready(d, p, prompt, generated, rounds, bound) && rounds <= more
    ensures Ready(d, p, prompt, generated, more, bound)
  {
    RoundsFit(rounds, more, bound);
  }

  /** Between the rounds of a generation that has had at most a round for every token but the first. */
  ghost predicate Going(d: Engine, p: Persistent, prompt: seq<nat>, generated: seq<nat>, expertMajor: bool, bound: nat) {
    && generated != [] && Ready(d, p, prompt, generated, |generated| - 1, bound)
    && (!expertMajor || p.life.scheduler.config.policy == Fixed)
  }

  ghost function GoingOrDone(d: Engine, prompt: seq<nat>, count: nat, expertMajor: bool, bound: nat)
    : (Persistent, seq<nat>) -> bool
  {
    (p: Persistent, generated: seq<nat>) => |generated| >= count || Going(d, p, prompt, generated, expertMajor, bound)
  }

  /** What a scheduler chooses is enough for a round of expert-major blocks. */
  lemma Drafts(d: Engine, p: Persistent, prompt: seq<nat>, generated: seq<nat>, expertMajor: bool, rounds: nat,
               maxDraft: nat, bound: nat)
    requires Ready(d, p, prompt, generated, rounds, bound) && maxDraft != 0
    requires !expertMajor || p.life.scheduler.config.policy == Fixed
    ensures Choose(p.life.scheduler, maxDraft).1 != 0 || !expertMajor
  {
    FixedDrafts(p.life.scheduler, maxDraft);
  }

  /** A round with tokens still to come after it leaves the provider going. */
  lemma StillGoing(d: Engine, p: Persistent, after: Persistent, prompt: seq<nat>, generated: seq<nat>, longer: seq<nat>,
                   expertMajor: bool, bound: nat)
    requires 0 < |generated| < |longer| && Ready(d, after, prompt, longer, |generated|, bound)
    requires after.life.scheduler.config == p.life.scheduler.config
    requires !expertMajor || p.life.scheduler.config.policy == Fixed
    ensures Going(d, after, prompt, longer, expertMajor, bound)
  {
    MoreRounds(d, after, prompt, longer, |generated|, |longer| - 1, bound);
  }

  lemma GoingRound(d: Engine, e: Engine, p: Persistent, prompt: seq<nat>, generated: seq<nat>, count: nat, blockSize: nat,
               expertMajor: bool, work: Workload, rounds: nat, bound: nat)
      returns (after: Persistent, committed: seq<nat>, length: nat)
    requires d.vocab == e.vocab && prompt != [] && blockSize != 0 && SaneWork(work, bound)
    requires rounds < UINT64_MAX && (rounds + 1) * bound <= UINT64_MAX
    requires rounds + 1 == |generated| < count && Ready(d, p, prompt, generated, rounds, bound)
    requires !expertMajor || p.life.scheduler.config.policy == Fixed
    ensures RoundOf(d, e, p, prompt, generated, MaxDraft(count, |generated|, blockSize), expertMajor, work)
         == Some((after, committed, length))
    ensures committed != []
    ensures |generated + committed| < count ==> Going(d, after, prompt, generated + committed, expertMajor, bound)
  {
    var maxDraft := MaxDraft(count, |generated|, blockSize);
    after, committed, length := RoundGoesOn(d, e, p, prompt, generated, maxDraft, expertMajor, work, rounds, bound);
    if |generated + committed| < count {
      Drafts(d, p, prompt, generated, expertMajor, rounds, maxDraft, bound);
      StillGoing(d, p, after, prompt, generated, generated + committed, expertMajor, bound);
    }
  }

  lemma GoodStep(d: Engine, e: Engine, p: Persistent, prompt: seq<nat>, generated: seq<nat>, count: nat, blockSize: nat,
                 expertMajor: bool, work: Workload, bound: nat)
    requires d.vocab == e.vocab && prompt != [] && blockSize != 0 && SaneWork(work, bound)
    requires count <= UINT64_MAX && count * bound <= UINT64_MAX
    requires Going(d, p, prompt, generated, expertMajor, bound) && |generated| < count
    ensures KeptBy(Rounds(d, e, prompt, count, blockSize, expertMajor, work),
                   GoingOrDone(d, prompt, count, expertMajor, bound), p, generated)
  {
    RoundsFit(|generated|, count, bound);
    var after, committed, length :=
      GoingRound(d, e, p, prompt, generated, count, blockSize, expertMajor, work, |generated| - 1, bound);
    RoundsAt(d, e, p, prompt, generated, count, blockSize, expertMajor, work);
  }

  /** A fixed policy, or verification token by token, never fails. */
  lemma NeverFails(d: Engine, e: Engine, p: Persistent, prompt: seq<nat>, generated: seq<nat>, count: nat,
                   blockSize: nat, expertMajor: bool, work: Workload, bound: nat)
    requires d.vocab == e.vocab && prompt != [] && blockSize != 0 && SaneWork(work, bound)
    requires count <= UINT64_MAX && count * bound <= UINT64_MAX
    requires Going(d, p, prompt, generated, expertMajor, bound)
    ensures !CourseFrom(Rounds(d, e, prompt, count, blockSize, expertMajor, work), p, generated, count).failed
  {
    var step := Rounds(d, e, prompt, count, blockSize, expertMajor, work);
    var good := GoingOrDone(d, prompt, count, expertMajor, bound);
    forall q: Persistent, g: seq<nat> | good(q, g) && |g| < count ensures KeptBy(step, good, q, g) {
      GoodStep(d, e, q, prompt, g, count, blockSize, expertMajor, work, bound);
    }
    KeptCourse(step, good, p, generated, count);
  }

  lemma FixedDrafts(s: State, maxDraft: nat)
    requires Scheduler.Valid(s) && maxDraft != 0
    ensures s.config.policy == Fixed && s.cap.None? ==> Choose(s, maxDraft).1 != 0
  {
  }

  /** Three tokens are too few: the probe of the second leaves at most the last one to come. */
  lemma ThreeNeverFail(d: Engine, e: Engine, p: Persistent, prompt: seq<nat>, first: seq<nat>, blockSize: nat,
                       expertMajor: bool, work: Workload, bound: nat)
    requires d.vocab == e.vocab && prompt != [] && |first| == 1 && blockSize != 0
    requires SaneWork(work, bound) && 2 * bound <= UINT64_MAX
    requires Ready(d, p, prompt, first, 0, bound) && Choose(p.life.scheduler, 1).1 == 1
    ensures !CourseFrom(Rounds(d, e, prompt, 3, blockSize, expertMajor, work), p, first, 3).failed
  {
    var after, committed := ReadyRound(d, e, p, prompt, first, 3, blockSize, expertMajor, work, 0, bound);
    if |committed| == 1 {
      LastRound(d, e, after, prompt, first + committed, 3, blockSize, expertMajor, work, 1, bound);
    }
  }

  /** Up to three tokens a fresh provider never fails. */
  lemma ShortNeverFails(e: Engine, d: Engine, c: Config, prompt: seq<nat>, count: nat, blockSize: nat,
                        expertMajor: bool, work: Workload, bound: nat)
    requires d.vocab == e.vocab && ValidConfig(c) && prompt != [] && InVocabulary(e, prompt) && count <= 3
    requires blockSize != 0 && SaneWork(work, bound) && 2 * bound <= UINT64_MAX
    requires c.policy == Adaptive
    ensures !AuroraCourse(e, d, c, prompt, count, blockSize, expertMajor, work).failed
  {
    var first := Greedy(e, prompt, 1);
    var p := Persistent(FreshLife(c, prompt), None, false);
    FreshIsReady(e, d, c, prompt, first, bound);
    if count == 2 {
      LastRound(d, e, p, prompt, first, count, blockSize, expertMajor, work, 0, bound);
    } else if count == 3 {
      FreshProbes(c, 1);
      ThreeNeverFail(d, e, p, prompt, first, blockSize, expertMajor, work, bound);
    }
  }

  function OneHot(vocab: nat, token: nat): (logits: Vec)
    requires token < vocab
    ensures |logits| == vocab
  {
    seq(vocab, i => if i == token then 1.0 else 0.0)
  }

  /** A decoder that always says the same token. */
  function Says(vocab: nat, token: nat): (e: Engine)
    requires token < vocab
    ensures e.vocab == vocab
  {
    Decoder(vocab, [], (t, s) => Pass(OneHot(vocab, token), [], [], [], []))
  }

  lemma AlwaysSays(vocab: nat, token: nat, context: seq<nat>)
    requires token < vocab && context != []
    ensures Greedy(Says(vocab, token), context, 1) == [token]
  {
    var logits := Absorb(Says(vocab, token), context + []).0;
    assert logits == OneHot(vocab, token);
    assert logits[token] == 1.0;
    assert Greedy(Says(vocab, token), context, 0) == [];
  }

  /** A draft decoder whose first proposal to the target after a prompt is wrong. */
  lemma Contrary(e: Engine, prompt: seq<nat>) returns (d: Engine)
    requires e.vocab >= 2 && prompt != []
    ensures d.vocab == e.vocab
    ensures var seen := prompt + Greedy(e, prompt, 1); Greedy(d, seen, 1) != Greedy(e, seen, 1)
  {
    var seen := prompt + Greedy(e, prompt, 1);
    var said := Greedy(e, seen, 1)[0];
    var other := if said == 0 then 1 else 0;
    d := Says(e.vocab, other);
    AlwaysSays(e.vocab, other, seen);
  }

  ghost predicate Failing(e: Engine, d: Engine, c: Config, prompt: seq<nat>, count: nat, blockSize: nat,
                          expertMajor: bool, work: Workload)
    requires ValidConfig(c) && prompt != []
  {
    d.vocab == e.vocab && AuroraCourse(e, d, c, prompt, count, blockSize, expertMajor, work).failed
  }

  lemma OtherwiseSucceeds(e: Engine, d: Engine, c: Config, prompt: seq<nat>, count: nat, blockSize: nat,
                          expertMajor: bool, work: Workload, bound: nat)
    requires d.vocab == e.vocab && ValidConfig(c) && prompt != [] && InVocabulary(e, prompt) && blockSize != 0
    requires SaneWork(work, bound) && 2 * bound <= UINT64_MAX && count <= UINT64_MAX && count * bound <= UINT64_MAX
    requires !expertMajor || c.policy == Fixed || count < 4
    ensures !AuroraCourse(e, d, c, prompt, count, blockSize, expertMajor, work).failed
  {
    if expertMajor && c.policy == Adaptive {
      ShortNeverFails(e, d, c, prompt, count, blockSize, expertMajor, work, bound);
    } else if count != 0 {
      var first := Greedy(e, prompt, 1);
      FreshIsReady(e, d, c, prompt, first, bound);
      NeverFails(d, e, Persistent(FreshLife(c, prompt), None, false), prompt, first, count, blockSize, expertMajor, work,
                 bound);
    }
  }

  /**
   For any target of two tokens or more and any prompt: some draft decoder makes the generation fail
   exactly when blocks are verified expert by expert, the policy is adaptive and four tokens or more
   are asked for.
   */
  lemma FailsExactly(e: Engine, c: Config, prompt: seq<nat>, count: nat, blockSize: nat, expertMajor: bool,
                     work: Workload, bound: nat)
    requires e.vocab >= 2 && ValidConfig(c) && prompt != [] && InVocabulary(e, prompt) && blockSize != 0
    requires SaneWork(work, bound) && 2 * bound <= UINT64_MAX && count <= UINT64_MAX && count * bound <= UINT64_MAX
    ensures (exists d: Engine :: Failing(e, d, c, prompt, count, blockSize, expertMajor, work))
        <==> expertMajor && c.policy == Adaptive && count >= 4
  {
    if expertMajor && c.policy == Adaptive && count >= 4 {
      var d := Contrary(e, prompt);
      FirstProbeFails(e, d, c, prompt, count, blockSize, work, bound);
      assert Failing(e, d, c, prompt, count, blockSize, expertMajor, work);
    } else {
      forall d: Engine | d.vocab == e.vocab ensures !Failing(e, d, c, prompt, count, blockSize, expertMajor, work) {
        OtherwiseSucceeds(e, d, c, prompt, count, blockSize, expertMajor, work, bound);
      }
    }
  }

  /** The same with the blocks of a layered decoder and the work its planner counts. */
  lemma DecoderFailsExactly(k: Kernels, c: Config, prompt: seq<nat>, count: nat, blockSize: nat, expertMajor: bool)
    requires KernelsOk(k) && RoutesWell(k) && k.emptyKda != [] && k.vocab >= 2 && ValidConfig(c)
    requires prompt != [] && InVocabulary(EngineOf(k), prompt) && blockSize != 0
    requires 2 * WorkBound(k) <= UINT64_MAX && count <= UINT64_MAX && count * WorkBound(k) <= UINT64_MAX
    ensures (exists d: Engine :: Failing(EngineOf(k), d, c, prompt, count, blockSize, expertMajor, WorkloadOf(k)))
        <==> expertMajor && c.policy == Adaptive && count >= 4
  {
    TargetWorksSanely(k);
    FailsExactly(EngineOf(k), c, prompt, count, blockSize, expertMajor, WorkloadOf(k), WorkBound(k));
  }
}
