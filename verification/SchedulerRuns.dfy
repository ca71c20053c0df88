/** What the scheduler keeps, counts and promises over whole runs. */
module SchedulerRuns {
  import opened Wrappers
  import opened Scheduler

  datatype Event = Ask(request: nat) | Report(v: Verification)

  function Step(s: State, e: Event): (r: State)
    requires Valid(s)
    ensures Valid(r) && r.config == s.config
  {
    match e
    case Ask(request) => Choose(s, request).0
    case Report(v) => Learn(s, v).0
  }

  function Run(s: State, events: seq<Event>): (r: State)
    requires Valid(s)
    ensures Valid(r) && r.config == s.config
    decreases |events|
  {
    if events == [] then s
    else Step(Run(s, events[..|events| - 1]), events[|events| - 1])
  }

  /** The accepted, non-empty reports of a run, in order. */
  function Accepted(s: State, events: seq<Event>): seq<Verification>
    requires Valid(s)
    decreases |events|
  {
    if events == [] then []
    else
      var before := events[..|events| - 1];
      var e := events[|events| - 1];
      Accepted(s, before) +
      if e.Report? && e.v.proposed != 0 && Learn(Run(s, before), e.v).1.Success? then [e.v] else []
  }

  function CountLonger(reports: seq<Verification>, position: nat): nat {
    if reports == [] then 0
    else CountLonger(reports[..|reports| - 1], position)
         + if reports[|reports| - 1].proposed > position then 1 else 0
  }

  function CountAccepting(reports: seq<Verification>, position: nat): nat {
    if reports == [] then 0
    else CountAccepting(reports[..|reports| - 1], position)
         + if reports[|reports| - 1].accepted > position then 1 else 0
  }

  function TotalLoads(reports: seq<Verification>, length: nat): nat {
    if reports == [] then 0
    else TotalLoads(reports[..|reports| - 1], length)
         + if reports[|reports| - 1].proposed == length then reports[|reports| - 1].payloadLoads else 0
  }

  function TotalAssignments(reports: seq<Verification>, length: nat): nat {
    if reports == [] then 0
    else TotalAssignments(reports[..|reports| - 1], length)
         + if reports[|reports| - 1].proposed == length then reports[|reports| - 1].assignments else 0
  }

  /** Every counter is a count over the accepted reports, whatever the calls were. */
  ghost predicate CountersExplain(s: State, reports: seq<Verification>)
    requires Valid(s)
  {
    && (forall p :: 0 <= p < 4 ==> s.trials[p] == CountLonger(reports, p))
    && (forall p :: 0 <= p < 4 ==> s.successes[p] == CountAccepting(reports, p))
    && (forall r :: 0 <= r < 3 ==> s.loads[r] == TotalLoads(reports, LADDER[r]))
    && (forall r :: 0 <= r < 3 ==> s.assignments[r] == TotalAssignments(reports, LADDER[r]))
    && (forall r :: 0 <= r < 3 ==> (s.observed[r] <==> exists v :: v in reports && v.proposed == LADDER[r]))
  }

  /** Learning from a report changes the counters only by counting it. */
  lemma LearnKeepsCounted(s: State, v: Verification)
    requires Valid(s) && v.proposed != 0 && Learn(s, v).1.Success?
    ensures var t, c := Learn(s, v).0, Counted(s, v);
      && t.trials == c.trials && t.successes == c.successes && t.loads == c.loads
      && t.assignments == c.assignments && t.observed == c.observed
  {
  }

  lemma LearnObserves(s: State, v: Verification, reports: seq<Verification>, r: nat)
    requires Valid(s) && CountersExplain(s, reports) && r < 3
    requires v.proposed != 0 && Learn(s, v).1.Success?
    ensures Learn(s, v).0.observed[r] <==> exists w :: w in reports + [v] && w.proposed == LADDER[r]
  {
    var t := Learn(s, v).0;
    LearnKeepsCounted(s, v);
    assert v in reports + [v];
    if t.observed[r] && s.observed[r] {
      var w :| w in reports && w.proposed == LADDER[r];
      assert w in reports + [v];
    }
  }

  lemma CountsGrow(s: State, c: State, v: Verification, reports: seq<Verification>)
    requires Valid(s) && CountersExplain(s, reports)
    requires AcceptableReport(s, v) && v.proposed != 0 && CountersFit(s, v) && c == Counted(s, v)
    ensures forall p :: 0 <= p < 4 ==> c.trials[p] == CountLonger(reports + [v], p)
    ensures forall p :: 0 <= p < 4 ==> c.successes[p] == CountAccepting(reports + [v], p)
    ensures forall r :: 0 <= r < 3 ==> c.loads[r] == TotalLoads(reports + [v], LADDER[r])
    ensures forall r :: 0 <= r < 3 ==> c.assignments[r] == TotalAssignments(reports + [v], LADDER[r])
  {
    var all := reports + [v];
    assert all[..|all| - 1] == reports;
  }

  lemma LearnCounts(s: State, v: Verification, reports: seq<Verification>)
    requires Valid(s) && CountersExplain(s, reports)
    requires v.proposed != 0 && Learn(s, v).1.Success?
    ensures CountersExplain(Learn(s, v).0, reports + [v])
  {
    var all := reports + [v];
    var t, c := Learn(s, v).0, Counted(s, v);
    LearnKeepsCounted(s, v);
    CountsGrow(s, c, v, reports);
    forall r | 0 <= r < 3
      ensures t.observed[r] <==> exists w :: w in all && w.proposed == LADDER[r]
    {
      LearnObserves(s, v, reports, r);
    }
  }

  lemma ChooseKeepsCounters(s: State, request: nat)
    requires Valid(s)
    ensures var t := Choose(s, request).0;
      && t.trials == s.trials && t.successes == s.successes && t.loads == s.loads
      && t.assignments == s.assignments && t.observed == s.observed && t.qualified == s.qualified
      && t.stats.growths == s.stats.growths
      && (t.cap == s.cap || t.cap == None)
  {
  }

  lemma StepCounts(s: State, e: Event, reports: seq<Verification>)
    requires Valid(s) && CountersExplain(s, reports)
    ensures CountersExplain(Step(s, e), reports +
      if e.Report? && e.v.proposed != 0 && Learn(s, e.v).1.Success? then [e.v] else [])
  {
    if e.Ask? {
      ChooseKeepsCounters(s, e.request);
      assert reports + [] == reports;
    } else if e.v.proposed != 0 && Learn(s, e.v).1.Success? {
      LearnCounts(s, e.v, reports);
    } else {
      assert Step(s, e) == s;
      assert reports + [] == reports;
    }
  }

  lemma {:induction false} CountersCountTheRun(s: State, events: seq<Event>)
    requires Valid(s) && CountersExplain(s, [])
    ensures CountersExplain(Run(s, events), Accepted(s, events))
    decreases |events|
  {
    if events != [] {
      var before := events[..|events| - 1];
      var e := events[|events| - 1];
      CountersCountTheRun(s, before);
      StepCounts(Run(s, before), e, Accepted(s, before));
    }
  }

  lemma {:induction false} CountsOrdered(reports: seq<Verification>, p: nat, q: nat)
    requires p <= q
    requires forall v :: v in reports ==> v.accepted <= v.proposed
    ensures CountLonger(reports, q) <= CountLonger(reports, p)
    ensures CountAccepting(reports, q) <= CountAccepting(reports, p)
    ensures CountAccepting(reports, p) <= CountLonger(reports, p)
  {
    if reports != [] {
      var last := reports[|reports| - 1];
      assert last in reports;
      assert forall v :: v in reports[..|reports| - 1] ==> v in reports;
      CountsOrdered(reports[..|reports| - 1], p, q);
    }
  }

  lemma {:induction false} LoadsBounded(reports: seq<Verification>, length: nat)
    requires forall v :: v in reports ==> v.payloadLoads <= v.assignments
    ensures TotalLoads(reports, length) <= TotalAssignments(reports, length)
  {
    if reports != [] {
      var last := reports[|reports| - 1];
      assert last in reports;
      assert forall v :: v in reports[..|reports| - 1] ==> v in reports;
      LoadsBounded(reports[..|reports| - 1], length);
    }
  }

  lemma {:induction false} AcceptedReportsAreSane(s: State, events: seq<Event>)
    requires Valid(s)
    ensures forall v :: v in Accepted(s, events) ==>
      v.accepted <= v.proposed && v.payloadLoads <= v.assignments
    decreases |events|
  {
    if events != [] {
      AcceptedReportsAreSane(s, events[..|events| - 1]);
    }
  }

  /** Trials and successes fall with the position; successes fit in trials, loads in assignments. */
  ghost predicate CountersOrdered(s: State)
    requires Valid(s)
  {
    && (forall p, q :: 0 <= p <= q < 4 ==> s.trials[q] <= s.trials[p])
    && (forall p, q :: 0 <= p <= q < 4 ==> s.successes[q] <= s.successes[p])
    && (forall p :: 0 <= p < 4 ==> s.successes[p] <= s.trials[p])
    && (forall r :: 0 <= r < 3 ==> s.loads[r] <= s.assignments[r])
  }

  lemma ExplainedCountersAreOrdered(s: State, reports: seq<Verification>)
    requires Valid(s) && CountersExplain(s, reports)
    requires forall v :: v in reports ==> v.accepted <= v.proposed && v.payloadLoads <= v.assignments
    ensures CountersOrdered(s)
  {
    forall p: nat, q: nat | p <= q
      ensures CountLonger(reports, q) <= CountLonger(reports, p)
      ensures CountAccepting(reports, q) <= CountAccepting(reports, p)
      ensures CountAccepting(reports, p) <= CountLonger(reports, p)
    {
      CountsOrdered(reports, p, q);
    }
    forall r | 0 <= r < 3
      ensures s.loads[r] <= s.assignments[r]
    {
      LoadsBounded(reports, LADDER[r]);
    }
  }

  /**
   From a fresh scheduler, over any calls: the counters are the counts of the accepted reports,
   trials and successes never increase with the position, successes never exceed trials, and no
   rung has loaded more experts than were assigned to it.
   */
  lemma CountersOverAnyRun(c: Config, events: seq<Event>)
    requires ValidConfig(c)
    ensures CountersExplain(Run(Fresh(c), events), Accepted(Fresh(c), events))
    ensures CountersOrdered(Run(Fresh(c), events))
  {
    assert CountersExplain(Fresh(c), []);
    CountersCountTheRun(Fresh(c), events);
    AcceptedReportsAreSane(Fresh(c), events);
    ExplainedCountersAreOrdered(Run(Fresh(c), events), Accepted(Fresh(c), events));
  }

  // ----- Closed loop: the target verifies exactly what `Choose` selected -----

  /** One request, and what the target would report about the proposal it gets. */
  datatype Round = Round(request: nat, accepted: nat, evaluated: nat, discarded: nat,
                         payloadLoads: nat, assignments: nat)

  function ReportFor(round: Round, length: nat): Verification {
    Verification(0, length, round.accepted, [], round.accepted == length, round.evaluated,
                 round.discarded, round.payloadLoads, round.assignments)
  }

  function Turn(s: State, round: Round): (r: (State, nat))
    requires Valid(s)
    ensures Valid(r.0) && r.0.config == s.config
    ensures r.1 <= s.config.maximumLength && (r.1 == 0 || r.1 in LADDER)
  {
    var (t, length) := Choose(s, round.request);
    (Learn(t, ReportFor(round, length)).0, length)
  }

  function TurnAccepted(s: State, round: Round): bool
    requires Valid(s)
  {
    var (t, length) := Choose(s, round.request);
    Learn(t, ReportFor(round, length)).1.Success?
  }

  function Play(s: State, rounds: seq<Round>): (r: State)
    requires Valid(s)
    ensures Valid(r) && r.config == s.config
    decreases |rounds|
  {
    if rounds == [] then s
    else Turn(Play(s, rounds[..|rounds| - 1]), rounds[|rounds| - 1]).0
  }

  function RungsClimbed(s: State): nat {
    if s.qualified.Some? then s.qualified.value + 1 else 0
  }

  /** The adaptive policy climbs one rung at a time. */
  ghost predicate NeverSkips(s: State)
    requires Valid(s)
  {
    && (forall r :: 0 <= r < 3 && s.observed[r] ==> r <= RungsClimbed(s))
    && RungsClimbed(s) <= MaximumRung(s) + 1
    && s.stats.growths == Min(RungsClimbed(s), 2)
    && (s.cap.Some? ==> s.cap.value <= 2)
  }

  lemma ChooseStaysInReach(s: State, request: nat)
    requires Valid(s) && s.config.policy == Adaptive && NeverSkips(s)
    ensures NeverSkips(Choose(s, request).0)
    ensures Choose(s, request).1 != 0 ==> RungIndex(Choose(s, request).1).value <= RungsClimbed(s)
  {
    ChooseKeepsCounters(s, request);
  }

  lemma LearnNeverSkips(s: State, v: Verification)
    requires Valid(s) && s.config.policy == Adaptive && NeverSkips(s)
    requires v.proposed != 0 && AcceptableReport(s, v) && CountersFit(s, v)
    requires RungIndex(v.proposed).value <= RungsClimbed(s)
    ensures NeverSkips(Adapted(Counted(s, v), v))
  {
    var rung := RungIndex(v.proposed).value;
    assert rung <= MaximumRung(s);
    var c := Counted(s, v);
    assert c.observed == s.observed[rung := true] && c.qualified == s.qualified && c.stats == s.stats;
    var u := Adapted(c, v);
    assert u.observed == c.observed;
    assert u.qualified == s.qualified || u.qualified == Some(rung);
  }

  lemma TurnNeverSkips(s: State, round: Round)
    requires Valid(s) && s.config.policy == Adaptive && NeverSkips(s)
    ensures NeverSkips(Turn(s, round).0)
    ensures Turn(s, round).1 != 0 ==> RungIndex(Turn(s, round).1).value <= RungsClimbed(s)
  {
    var (t, length) := Choose(s, round.request);
    var v := ReportFor(round, length);
    ChooseStaysInReach(s, round.request);
    ChooseKeepsCounters(s, round.request);
    if length != 0 && Learn(t, v).1.Success? {
      LearnNeverSkips(t, v);
    }
  }

  lemma {:induction false} RunNeverSkips(c: Config, rounds: seq<Round>)
    requires ValidConfig(c) && c.policy == Adaptive
    ensures NeverSkips(Play(Fresh(c), rounds))
    decreases |rounds|
  {
    if rounds != [] {
      var before, last := rounds[..|rounds| - 1], rounds[|rounds| - 1];
      RunNeverSkips(c, before);
      TurnNeverSkips(Play(Fresh(c), before), last);
    }
  }

  /**
   In every closed-loop adaptive run: no rung is tried before the one below it has qualified, and
   the growth counter is the number of rungs climbed, at most two.
   */
  lemma AdaptiveRunNeverSkips(c: Config, rounds: seq<Round>, next: Round)
    requires ValidConfig(c) && c.policy == Adaptive
    ensures var s := Play(Fresh(c), rounds);
      && NeverSkips(s)
      && (Turn(s, next).1 != 0 ==> RungIndex(Turn(s, next).1).value <= RungsClimbed(s))
  {
    RunNeverSkips(c, rounds);
    TurnNeverSkips(Play(Fresh(c), rounds), next);
  }

  /** A partly rejected proposal is always followed by a strictly shorter one. */
  lemma RejectionShrinks(s: State, rejected: Round, next: nat)
    requires Valid(s) && s.config.policy == Adaptive
    requires TurnAccepted(s, rejected) && rejected.accepted < Turn(s, rejected).1
    ensures Choose(Turn(s, rejected).0, next).1 < Turn(s, rejected).1
  {
    var (t, length) := Choose(s, rejected.request);
    var v := ReportFor(rejected, length);
    var u := Learn(t, v).0;
    var rung := RungIndex(length).value;
    assert u.cap == Some(if rung == 0 then 0 else LADDER[rung - 1]);
  }

  /** After a rejected single token: one silent request, then a retry of length one. */
  lemma RejectedProbePausesOnce(s: State, rejected: Round, first: Round, second: nat)
    requires Valid(s) && s.config.policy == Adaptive
    requires TurnAccepted(s, rejected) && Turn(s, rejected).1 == 1 && rejected.accepted == 0
    requires first.request > 0 && second > 0
    ensures var s1 := Turn(s, rejected).0;
      && Turn(s1, first).1 == 0
      && Choose(Turn(s1, first).0, second).1 == 1
  {
    var (t, length) := Choose(s, rejected.request);
    var s1 := Learn(t, ReportFor(rejected, length)).0;
    assert s1.cap == Some(0);
    var s2 := Choose(s1, first.request).0;
    assert s2.retry && s2.cap.None?;
    assert Learn(s2, ReportFor(first, 0)).0 == s2;
  }

  // ----- The scheduler can stop drafting for ever -----

  /** No pause pending, no retry pending, and every rung within reach is failing its gates. */
  predicate Stalled(s: State)
    requires Valid(s)
  {
    && s.config.policy == Adaptive
    && !s.retry
    && s.cap != Some(0)
    && forall r :: 0 <= r <= ExplorationRung(s) ==>
         !Eligible(s, r, EffectiveMaximum(s, s.config.maximumLength))
  }

  lemma StalledChoosesNothing(s: State, request: nat)
    requires Valid(s) && Stalled(s)
    ensures Choose(s, request) == (s, 0)
  {
    var limit := EffectiveMaximum(s, request);
    assert limit <= EffectiveMaximum(s, s.config.maximumLength);
    forall r | 0 <= r <= ExplorationRung(s)
      ensures !Eligible(s, r, limit)
    {
      assert !Eligible(s, r, EffectiveMaximum(s, s.config.maximumLength));
    }
  }

  /** A stalled scheduler never drafts again, whatever is asked and reported. */
  lemma {:induction false} StallIsForever(s: State, rounds: seq<Round>)
    requires Valid(s) && Stalled(s)
    ensures Play(s, rounds) == s
    ensures forall request :: Choose(Play(s, rounds), request).1 == 0
    decreases |rounds|
  {
    if rounds != [] {
      StallIsForever(s, rounds[..|rounds| - 1]);
      StalledChoosesNothing(s, rounds[|rounds| - 1].request);
    }
    forall request: nat
      ensures Choose(s, request).1 == 0
    {
      StalledChoosesNothing(s, request);
    }
  }

  /**
   The exact condition: an adaptive scheduler is stalled if and only if two requests for the
   configured maximum, with nothing to report in between, both come back empty.
   */
  lemma StalledExactly(s: State, quiet: Round)
    requires Valid(s) && s.config.policy == Adaptive
    requires quiet.request == s.config.maximumLength
    ensures Stalled(s) <==>
      Choose(s, quiet.request).1 == 0 && Choose(Choose(s, quiet.request).0, quiet.request).1 == 0
  {
    if Stalled(s) {
      StalledChoosesNothing(s, quiet.request);
    } else if !s.retry && s.cap != Some(0) {
      var limit := EffectiveMaximum(s, s.config.maximumLength);
      var r :| 0 <= r <= ExplorationRung(s) && Eligible(s, r, limit);
      assert limit != 0;
    }
  }

  /** A stall is reachable: one fully accepted probe is enough when 2/3 is below the threshold. */
  lemma CleanProbeCanStall(c: Config, request: nat, evaluated: nat)
    requires ValidConfig(c) && c.policy == Adaptive && request > 0
    ensures var probe := Round(request, 1, evaluated, 0, 0, 0);
      && Turn(Fresh(c), probe).1 == 1
      && (Stalled(Turn(Fresh(c), probe).0) <==> c.minimumPrefixSurvival > 2.0 / 3.0)
  {
    var probe := Round(request, 1, evaluated, 0, 0, 0);
    var (t, length) := Choose(Fresh(c), request);
    assert LADDER[0] == 1;
    assert Eligible(Fresh(c), 0, EffectiveMaximum(Fresh(c), request));
    var v := ReportFor(probe, length);
    var k := Counted(t, v);
    assert k.trials[0] == 1 && k.successes[0] == 1;
    assert Survival(k, 0) == 2.0 / 3.0;
    var u := Adapted(k, v);
    assert Learn(t, v).0 == u;
    assert Survival(u, 0) == 2.0 / 3.0;
    if c.minimumPrefixSurvival > 2.0 / 3.0 {
      assert u.qualified.None?;
      assert !Eligible(u, 0, EffectiveMaximum(u, c.maximumLength));
    } else {
      assert CostQualifies(u, 0);
      assert Eligible(u, 0, EffectiveMaximum(u, c.maximumLength));
    }
  }
}
