/** Which configurations let an adaptive scheduler stop drafting for ever. */
module SchedulerStall {
  import opened Wrappers
  import opened Scheduler
  import opened SchedulerRuns

  /** A closed-loop run in which every report is accepted; a refused one ends the loop. */
  predicate AllAccepted(s: State, rounds: seq<Round>)
    requires Valid(s)
    decreases |rounds|
  {
    rounds != [] ==>
      && AllAccepted(s, rounds[..|rounds| - 1])
      && TurnAccepted(Play(s, rounds[..|rounds| - 1]), rounds[|rounds| - 1])
  }

  /** The least survival that a first position with one success can have. */
  function LeastSurvival(): (r: real)
    ensures r > 0.0
  {
    2.0 / (UINT64_MAX + 2) as real
  }

  lemma PlaySnoc(s: State, rounds: seq<Round>, last: Round)
    requires Valid(s)
    ensures Play(s, rounds + [last]) == Turn(Play(s, rounds), last).0
    ensures AllAccepted(s, rounds + [last]) <==> AllAccepted(s, rounds) && TurnAccepted(Play(s, rounds), last)
  {
    assert (rounds + [last])[..|rounds|] == rounds;
  }

  // ----- No stall -----

  /** Without a success at the first position a pause or a retry is due, and no rung has qualified. */
  ghost predicate Unproven(s: State)
    requires Valid(s)
  {
    && (s.successes[0] == 0 ==> s.qualified.None?)
    && (s.successes[0] == 0 && s.observed[0] ==> s.cap == Some(0) || s.retry)
    && (forall r :: 0 <= r < 3 ==> s.loads[r] <= s.assignments[r])
  }

  lemma LearnUnproven(t: State, v: Verification)
    requires Valid(t) && t.config.policy == Adaptive && Learn(t, v).1.Success? && v.proposed != 0
    requires t.successes[0] == 0 ==> t.qualified.None? && v.proposed == 1
    requires forall r :: 0 <= r < 3 ==> t.loads[r] <= t.assignments[r]
    ensures Unproven(Learn(t, v).0)
  {
    var c, u := Counted(t, v), Learn(t, v).0;
    LearnKeepsCounted(t, v);
    assert c.successes[0] == t.successes[0] + if 0 < v.accepted then 1 else 0;
  }

  lemma ChooseUnproven(s: State, request: nat)
    requires Valid(s) && s.config.policy == Adaptive && Unproven(s)
    ensures var (t, length) := Choose(s, request);
      && (length == 0 ==> Unproven(t))
      && (t.successes[0] == 0 ==> t.qualified.None?)
      && (length != 0 && t.successes[0] == 0 ==> length == 1)
      && (forall r :: 0 <= r < 3 ==> t.loads[r] <= t.assignments[r])
  {
    ChooseKeepsCounters(s, request);
    if s.qualified.None? {
      assert ExplorationRung(s) == 0;
    }
  }

  lemma TurnUnproven(s: State, round: Round)
    requires Valid(s) && s.config.policy == Adaptive && Unproven(s) && TurnAccepted(s, round)
    ensures Unproven(Turn(s, round).0)
  {
    var (t, length) := Choose(s, round.request);
    var v := ReportFor(round, length);
    ChooseUnproven(s, round.request);
    if length != 0 {
      LearnUnproven(t, v);
    } else {
      assert Learn(t, v).0 == t;
    }
  }

  lemma {:induction false} RunUnproven(c: Config, rounds: seq<Round>)
    requires ValidConfig(c) && c.policy == Adaptive && AllAccepted(Fresh(c), rounds)
    ensures Unproven(Play(Fresh(c), rounds))
    decreases |rounds|
  {
    if rounds != [] {
      var before, last := rounds[..|rounds| - 1], rounds[|rounds| - 1];
      RunUnproven(c, before);
      TurnUnproven(Play(Fresh(c), before), last);
    }
  }

  lemma SmallRatio(loads: nat, assignments: nat)
    requires loads <= assignments && assignments > 0
    ensures loads as real / assignments as real <= 1.0
  {
  }

  lemma SurvivalAtLeast(successes: nat, trials: nat)
    requires 0 < successes && trials <= UINT64_MAX
    ensures (successes + 1) as real / (trials + 2) as real >= LeastSurvival()
  {
    var top, bottom, most := (successes + 1) as real, (trials + 2) as real, (UINT64_MAX + 2) as real;
    assert 2.0 * bottom <= top * most;
    assert top / bottom * bottom == top;
    assert LeastSurvival() * most == 2.0;
  }

  /** With no load limit and a threshold below the least survival the first rung stays open. */
  lemma NoStall(s: State)
    requires Valid(s) && Unproven(s)
    requires s.config.maximumUniqueLoadRatio == 1.0 && s.config.minimumPrefixSurvival <= LeastSurvival()
    ensures !Stalled(s)
  {
    if s.config.policy == Adaptive && !s.retry && s.cap != Some(0) {
      var limit := EffectiveMaximum(s, s.config.maximumLength);
      assert LADDER[0] == 1 <= limit;
      if s.observed[0] {
        SurvivalAtLeast(s.successes[0], s.trials[0]);
        if s.assignments[0] > 0 {
          SmallRatio(s.loads[0], s.assignments[0]);
        }
      }
      assert Eligible(s, 0, limit);
    }
  }

  // ----- A stall -----

  /** `k` probes of one token have been rejected and the next one is due. */
  ghost predicate Rejected(s: State, k: nat)
    requires Valid(s)
  {
    && s.config.policy == Adaptive && s.qualified.None? && s.cap.None? && s.retry
    && s.trials[0] == k && s.successes[0] == 0 && s.loads[0] == 0 && s.assignments[0] == 0
  }

  const REJECTION := Round(1, 0, 0, 0, 0, 0)

  /** A rejected probe of one token and the pause after it. */
  lemma RejectOnce(s: State, k: nat)
    requires Valid(s) && k < UINT64_MAX
    requires Rejected(s, k) || (k == 0 && s == Fresh(s.config) && s.config.policy == Adaptive)
    ensures var t := Turn(s, REJECTION).0;
      && TurnAccepted(s, REJECTION) && TurnAccepted(t, REJECTION) && Rejected(Turn(t, REJECTION).0, k + 1)
  {
    var (chosen, length) := Choose(s, 1);
    if !s.retry {
      assert LADDER[0] == 1 && Eligible(s, 0, EffectiveMaximum(s, 1));
    }
    assert length == 1;
    var v := ReportFor(REJECTION, 1);
    assert CountersFit(chosen, v);
    var t := Turn(s, REJECTION).0;
    assert t.trials[0] == k + 1 && t.successes[0] == 0 && t.cap == Some(0);
    var (paused, none) := Choose(t, 1);
    assert none == 0 && Learn(paused, ReportFor(REJECTION, 0)).0 == paused;
  }

  lemma RejectedAgain(c: Config, before: seq<Round>, k: nat) returns (rounds: seq<Round>)
    requires ValidConfig(c) && c.policy == Adaptive && k < UINT64_MAX && AllAccepted(Fresh(c), before)
    requires var s := Play(Fresh(c), before); Rejected(s, k) || (k == 0 && s == Fresh(c))
    ensures AllAccepted(Fresh(c), rounds) && Rejected(Play(Fresh(c), rounds), k + 1)
  {
    RejectOnce(Play(Fresh(c), before), k);
    PlayTwice(Fresh(c), before, REJECTION);
    rounds := before + [REJECTION] + [REJECTION];
  }

  lemma PlayTwice(s: State, rounds: seq<Round>, last: Round)
    requires Valid(s) && AllAccepted(s, rounds)
    requires TurnAccepted(Play(s, rounds), last) && TurnAccepted(Turn(Play(s, rounds), last).0, last)
    ensures AllAccepted(s, rounds + [last] + [last])
    ensures Play(s, rounds + [last] + [last]) == Turn(Turn(Play(s, rounds), last).0, last).0
  {
    PlaySnoc(s, rounds, last);
    PlaySnoc(s, rounds + [last], last);
  }

  lemma {:induction false} RejectOften(c: Config, k: nat) returns (rounds: seq<Round>)
    requires ValidConfig(c) && c.policy == Adaptive && 0 < k <= UINT64_MAX
    ensures AllAccepted(Fresh(c), rounds) && Rejected(Play(Fresh(c), rounds), k)
  {
    if k == 1 {
      rounds := [];
    } else {
      rounds := RejectOften(c, k - 1);
    }
    rounds := RejectedAgain(c, rounds, k - 1);
  }

  /** An accepted retry after as many rejections as the counter takes. */
  lemma LateSuccessStalls(s: State)
    requires Valid(s) && Rejected(s, UINT64_MAX - 1) && s.config.minimumPrefixSurvival > LeastSurvival()
    ensures TurnAccepted(s, Round(1, 1, 0, 0, 0, 0)) && Stalled(Turn(s, Round(1, 1, 0, 0, 0, 0)).0)
  {
    var last := Round(1, 1, 0, 0, 0, 0);
    var (t, length) := Choose(s, 1);
    var v := ReportFor(last, 1);
    assert length == 1 && CountersFit(t, v);
    var c := Counted(t, v);
    assert c.trials[0] == UINT64_MAX && c.successes[0] == 1 && Survival(c, 0) == LeastSurvival();
    var u := Adapted(c, v);
    assert Learn(t, v).0 == u && u.qualified.None? && ExplorationRung(u) == 0;
    assert Survival(u, 0) == LeastSurvival() && LADDER[0] == 1;
  }

  /** One accepted probe whose experts were all loaded. */
  lemma LoadedProbeStalls(c: Config)
    requires ValidConfig(c) && c.policy == Adaptive && c.maximumUniqueLoadRatio < 1.0
    ensures TurnAccepted(Fresh(c), Round(1, 1, 0, 0, 1, 1)) && Stalled(Turn(Fresh(c), Round(1, 1, 0, 0, 1, 1)).0)
  {
    var probe := Round(1, 1, 0, 0, 1, 1);
    var s := Fresh(c);
    var (t, length) := Choose(s, 1);
    assert LADDER[0] == 1 && Eligible(s, 0, EffectiveMaximum(s, 1));
    var v := ReportFor(probe, 1);
    assert length == 1 && CountersFit(t, v);
    var k := Counted(t, v);
    assert k.loads[0] == 1 && k.assignments[0] == 1 && !CostQualifies(k, 0);
    var u := Adapted(k, v);
    assert Learn(t, v).0 == u && u.qualified.None? && ExplorationRung(u) == 0;
    assert !CostQualifies(u, 0);
  }

  ghost predicate StallingRun(c: Config, rounds: seq<Round>)
    requires ValidConfig(c)
  {
    AllAccepted(Fresh(c), rounds) && Stalled(Play(Fresh(c), rounds))
  }

  lemma StallReached(c: Config) returns (rounds: seq<Round>)
    requires ValidConfig(c) && c.policy == Adaptive
    requires c.maximumUniqueLoadRatio < 1.0 || c.minimumPrefixSurvival > LeastSurvival()
    ensures StallingRun(c, rounds)
  {
    if c.maximumUniqueLoadRatio < 1.0 {
      LoadedProbeStalls(c);
      rounds := StalledAfter(c, [], Round(1, 1, 0, 0, 1, 1));
    } else {
      var before := RejectOften(c, UINT64_MAX - 1);
      LateSuccessStalls(Play(Fresh(c), before));
      rounds := StalledAfter(c, before, Round(1, 1, 0, 0, 0, 0));
    }
  }

  lemma StalledAfter(c: Config, before: seq<Round>, last: Round) returns (rounds: seq<Round>)
    requires ValidConfig(c) && AllAccepted(Fresh(c), before)
    requires var s := Play(Fresh(c), before); TurnAccepted(s, last) && Stalled(Turn(s, last).0)
    ensures StallingRun(c, rounds)
  {
    PlaySnoc(Fresh(c), before, last);
    rounds := before + [last];
  }

  /**
   Some closed-loop run stalls exactly when the configuration limits the load ratio at all, or asks for
   more survival than one success in as many trials as the counter takes.
   */
  lemma StallsExactly(c: Config)
    requires ValidConfig(c) && c.policy == Adaptive
    ensures (exists rounds :: StallingRun(c, rounds))
      <==> c.maximumUniqueLoadRatio < 1.0 || c.minimumPrefixSurvival > LeastSurvival()
  {
    if c.maximumUniqueLoadRatio < 1.0 || c.minimumPrefixSurvival > LeastSurvival() {
      var rounds := StallReached(c);
    } else {
      forall rounds: seq<Round>
        ensures !StallingRun(c, rounds)
      {
        if AllAccepted(Fresh(c), rounds) {
          RunUnproven(c, rounds);
          NoStall(Play(Fresh(c), rounds));
        }
      }
    }
  }
}
