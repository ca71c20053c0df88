/**
 The AURORA draft-length scheduler: a rung-climbing policy over draft lengths 1, 2 and 4.

 `State` with `Choose` and `Learn` is the specification; the class below is the object the
 providers own and mutate. Survival and cost ratios are exact rationals, counters are unsigned
 64-bit and refuse to wrap.
 */
module Scheduler {
  import opened Wrappers

  const LADDER: seq<nat> := [1, 2, 4]
  const UINT64_MAX: nat := 0xFFFF_FFFF_FFFF_FFFF

  datatype Policy = Fixed | Adaptive

  datatype Config = Config(
    policy: Policy,
    maximumLength: nat,
    minimumPrefixSurvival: real,
    maximumUniqueLoadRatio: real)

  /** What the target reports back about one proposal. */
  datatype Verification = Verification(
    anchor: nat,
    proposed: nat,
    accepted: nat,
    committed: seq<nat>,
    allAccepted: bool,
    evaluated: nat,
    discarded: nat,
    payloadLoads: nat,
    assignments: nat)

  datatype Stats = Stats(
    selected1: nat, selected2: nat, selected4: nat, growths: nat, backoffs: nat)

  datatype State = State(
    config: Config,
    trials: seq<nat>,
    successes: seq<nat>,
    loads: seq<nat>,
    assignments: seq<nat>,
    observed: seq<bool>,
    qualified: Option<nat>,
    cap: Option<nat>,
    retry: bool,
    stats: Stats)

  predicate ValidConfig(c: Config) {
    && c.maximumLength in LADDER
    && 0.0 <= c.minimumPrefixSurvival <= 1.0
    && 0.0 <= c.maximumUniqueLoadRatio <= 1.0
  }

  ghost predicate Valid(s: State) {
    && ValidConfig(s.config)
    && |s.trials| == |s.successes| == 4
    && |s.loads| == |s.assignments| == |s.observed| == 3
    && (forall p :: 0 <= p < 4 ==> s.trials[p] <= UINT64_MAX)
    && (s.qualified.Some? ==> s.qualified.value < 3)
  }

  function Fresh(c: Config): (s: State)
    ensures ValidConfig(c) ==> Valid(s)
  {
    State(c, [0, 0, 0, 0], [0, 0, 0, 0], [0, 0, 0], [0, 0, 0], [false, false, false],
          None, None, false, Stats(0, 0, 0, 0, 0))
  }

  function RungIndex(length: nat): (r: Option<nat>)
    ensures r.Some? <==> length in LADDER
    ensures r.Some? ==> r.value < 3 && LADDER[r.value] == length
  {
    if length == 1 then Some(0) else if length == 2 then Some(1)
    else if length == 4 then Some(2) else None
  }

  function Min(a: nat, b: nat): nat {
    if a < b then a else b
  }

  function MaximumRung(s: State): (r: nat)
    requires ValidConfig(s.config)
    ensures r < 3 && LADDER[r] == s.config.maximumLength
  {
    RungIndex(s.config.maximumLength).value
  }

  function Survival(s: State, position: nat): real
    requires position < |s.trials| && position < |s.successes|
  {
    (s.successes[position] + 1) as real / (s.trials[position] + 2) as real
  }

  predicate CostQualifies(s: State, rung: nat)
    requires rung < |s.loads| && rung < |s.assignments|
  {
    || s.assignments[rung] == 0
    || s.loads[rung] as real / s.assignments[rung] as real <= s.config.maximumUniqueLoadRatio
  }

  /** A rung never observed is always allowed; an observed one must survive and be cheap. */
  predicate Passes(s: State, rung: nat)
    requires Valid(s) && rung < 3
  {
    s.observed[rung] ==>
      && Survival(s, LADDER[rung] - 1) >= s.config.minimumPrefixSurvival
      && CostQualifies(s, rung)
  }

  function EffectiveMaximum(s: State, request: nat): nat {
    var m := Min(request, s.config.maximumLength);
    if s.cap.Some? then Min(m, s.cap.value) else m
  }

  function ExplorationRung(s: State): (r: nat)
    requires Valid(s)
    ensures r < 3
  {
    if s.qualified.Some? then Min(s.qualified.value + 1, MaximumRung(s)) else 0
  }

  predicate Eligible(s: State, rung: nat, limit: nat)
    requires Valid(s) && rung < 3
  {
    LADDER[rung] <= limit && Passes(s, rung)
  }

  /** The longest eligible length among rungs 0..top, or 0. */
  function LongestEligible(s: State, top: nat, limit: nat): (length: nat)
    requires Valid(s) && top < 3
    ensures length == 0 <==> forall r :: 0 <= r <= top ==> !Eligible(s, r, limit)
    ensures length != 0 ==>
      exists r :: 0 <= r <= top && LADDER[r] == length && Eligible(s, r, limit)
        && forall q :: r < q <= top ==> !Eligible(s, q, limit)
  {
    if Eligible(s, top, limit) then LADDER[top]
    else if top == 0 then 0
    else LongestEligible(s, top - 1, limit)
  }

  function LongestFixed(limit: nat): nat {
    if 4 <= limit then 4 else if 2 <= limit then 2 else if 1 <= limit then 1 else 0
  }

  function Recorded(stats: Stats, length: nat): Stats {
    if length == 1 then stats.(selected1 := stats.selected1 + 1)
    else if length == 2 then stats.(selected2 := stats.selected2 + 1)
    else if length == 4 then stats.(selected4 := stats.selected4 + 1)
    else stats
  }

  /** The next state and the chosen draft length. */
  function Choose(s: State, request: nat): (r: (State, nat))
    requires Valid(s)
    ensures Valid(r.0) && r.0.config == s.config
    ensures r.1 <= request && r.1 <= s.config.maximumLength
    ensures r.1 == 0 || r.1 in LADDER
    ensures s.cap.Some? && request > 0 ==> r.1 <= s.cap.value
  {
    var limit := EffectiveMaximum(s, request);
    if request == 0 then (s, 0)
    else if limit == 0 then
      (if s.cap == Some(0) then s.(cap := None, retry := true) else s, 0)
    else if s.config.policy == Fixed then
      (s.(stats := Recorded(s.stats, LongestFixed(limit))), LongestFixed(limit))
    else if s.retry then
      (s.(retry := false, stats := Recorded(s.stats, 1)), 1)
    else
      var length := LongestEligible(s, ExplorationRung(s), limit);
      (s.(stats := Recorded(s.stats, length)), length)
  }

  predicate AcceptableReport(s: State, v: Verification) {
    && v.accepted <= v.proposed
    && v.discarded <= v.evaluated
    && v.payloadLoads <= v.assignments
    && (v.proposed == 0 ==> v.assignments == 0)
    && (v.proposed != 0 ==> v.proposed in LADDER && v.proposed <= s.config.maximumLength)
  }

  predicate CountersFit(s: State, v: Verification)
    requires Valid(s) && AcceptableReport(s, v) && v.proposed != 0
  {
    var rung := RungIndex(v.proposed).value;
    && (forall p :: 0 <= p < v.proposed ==> s.trials[p] < UINT64_MAX)
    && s.loads[rung] + v.payloadLoads <= UINT64_MAX
    && s.assignments[rung] + v.assignments <= UINT64_MAX
  }

  function Counted(s: State, v: Verification): (r: State)
    requires Valid(s) && AcceptableReport(s, v) && v.proposed != 0 && CountersFit(s, v)
    ensures Valid(r) && r.config == s.config
  {
    var rung := RungIndex(v.proposed).value;
    s.(trials := seq(4, p requires 0 <= p < 4 => s.trials[p] + if p < v.proposed then 1 else 0),
       successes := seq(4, p requires 0 <= p < 4 => s.successes[p] + if p < v.accepted then 1 else 0),
       loads := s.loads[rung := s.loads[rung] + v.payloadLoads],
       assignments := s.assignments[rung := s.assignments[rung] + v.assignments],
       observed := s.observed[rung := true])
  }

  /** The counters of `c` decide whether a fully accepted length moves the qualified rung up. */
  function Adapted(c: State, v: Verification): (r: State)
    requires Valid(c) && AcceptableReport(c, v) && v.proposed != 0
    ensures Valid(r) && r.config == c.config
  {
    var rung := RungIndex(v.proposed).value;
    if v.accepted < v.proposed then
      c.(cap := Some(if rung == 0 then 0 else LADDER[rung - 1]),
         stats := c.stats.(backoffs := c.stats.backoffs + 1))
    else if && Survival(c, v.proposed - 1) >= c.config.minimumPrefixSurvival
            && CostQualifies(c, rung)
            && (c.qualified.Some? ==> c.qualified.value < rung)
    then
      c.(cap := None, qualified := Some(rung),
         stats := c.stats.(growths := c.stats.growths + if rung + 1 < 3 then 1 else 0))
    else
      c.(cap := None)
  }

  function Learn(s: State, v: Verification): (r: (State, Result<bool>))
    requires Valid(s)
    ensures Valid(r.0) && r.0.config == s.config
    ensures r.1.Failure? ==> r.0 == s
    ensures r.1.Success? <==> AcceptableReport(s, v) && (v.proposed == 0 || CountersFit(s, v))
  {
    if !AcceptableReport(s, v) then (s, Failure("invalid_extent"))
    else if v.proposed == 0 then (s, Success(true))
    else if !CountersFit(s, v) then (s, Failure("invalid_state"))
    else if s.config.policy == Fixed then (Counted(s, v), Success(true))
    else (Adapted(Counted(s, v), v), Success(true))
  }

  class AdaptiveDraftScheduler {
    const config: Config
    var prefixTrials: seq<nat>
    var prefixSuccesses: seq<nat>
    var costLoads: seq<nat>
    var costAssignments: seq<nat>
    var observedLengths: seq<bool>
    var largestQualifiedRung: Option<nat>
    var rejectionCap: Option<nat>
    var retrySmallestRung: bool
    var stats: Stats

    function Abs(): State
      reads this
    {
      State(config, prefixTrials, prefixSuccesses, costLoads, costAssignments, observedLengths,
            largestQualifiedRung, rejectionCap, retrySmallestRung, stats)
    }

    constructor (c: Config)
      requires ValidConfig(c)
      ensures Abs() == Fresh(c)
    {
      config := c;
      prefixTrials, prefixSuccesses := [0, 0, 0, 0], [0, 0, 0, 0];
      costLoads, costAssignments := [0, 0, 0], [0, 0, 0];
      observedLengths := [false, false, false];
      largestQualifiedRung, rejectionCap, retrySmallestRung := None, None, false;
      stats := Stats(0, 0, 0, 0, 0);
    }

    /** The descending scan of the fixed policy. */
    method ScanFixed(limit: nat) returns (length: nat)
      ensures length == LongestFixed(limit)
    {
      var index := 3;
      while index > 0
        invariant 0 <= index <= 3
        invariant (index <= 2 ==> limit < 4) && (index <= 1 ==> limit < 2) && (index == 0 ==> limit < 1)
      {
        index := index - 1;
        if LADDER[index] <= limit {
          return LADDER[index];
        }
      }
      return 0;
    }

    /** The descending scan of the adaptive policy, from the exploration rung down. */
    method ScanAdaptive(limit: nat) returns (length: nat)
      requires Valid(Abs())
      ensures length == LongestEligible(Abs(), ExplorationRung(Abs()), limit)
    {
      var explorationRung := ExplorationRung(Abs());
      var index := explorationRung + 1;
      while index > 0
        invariant 0 <= index <= explorationRung + 1
        invariant LongestEligible(Abs(), explorationRung, limit) ==
                  if index == 0 then 0 else LongestEligible(Abs(), index - 1, limit)
      {
        index := index - 1;
        var candidate := LADDER[index];
        if candidate > limit {
          continue;
        }
        if observedLengths[index] {
          if Survival(Abs(), candidate - 1) < config.minimumPrefixSurvival {
            continue;
          }
          if !CostQualifies(Abs(), index) {
            continue;
          }
        }
        return candidate;
      }
      return 0;
    }

    method Select(requestMaximum: nat) returns (length: nat)
      requires Valid(Abs())
      modifies this
      ensures (Abs(), length) == Choose(old(Abs()), requestMaximum)
    {
      if requestMaximum == 0 {
        return 0;
      }
      var effectiveMaximum := Min(requestMaximum, config.maximumLength);
      if rejectionCap.Some? {
        effectiveMaximum := Min(effectiveMaximum, rejectionCap.value);
      }
      if effectiveMaximum == 0 {
        if rejectionCap == Some(0) {
          rejectionCap := None;
          retrySmallestRung := true;
        }
        return 0;
      }
      if config.policy == Fixed {
        length := ScanFixed(effectiveMaximum);
      } else if retrySmallestRung {
        retrySmallestRung := false;
        length := 1;
      } else {
        length := ScanAdaptive(effectiveMaximum);
      }
      stats := Recorded(stats, length);
    }

    /** True when one more observation of every prefix position still fits its counter. */
    method PrefixCountersFit(proposed: nat) returns (fit: bool)
      requires Valid(Abs()) && proposed <= 4
      ensures fit <==> forall p :: 0 <= p < proposed ==> prefixTrials[p] < UINT64_MAX
    {
      for position := 0 to proposed
        invariant forall p :: 0 <= p < position ==> prefixTrials[p] < UINT64_MAX
      {
        if prefixTrials[position] == UINT64_MAX {
          return false;
        }
      }
      return true;
    }

    method CountPrefixes(v: Verification)
      requires |prefixTrials| == |prefixSuccesses| == 4 && v.proposed <= 4
      modifies `prefixTrials, `prefixSuccesses
      ensures |prefixTrials| == |prefixSuccesses| == 4
      ensures forall p :: 0 <= p < 4 ==>
        prefixTrials[p] == old(prefixTrials[p]) + if p < v.proposed then 1 else 0
      ensures forall p :: 0 <= p < 4 ==>
        prefixSuccesses[p] == old(prefixSuccesses[p]) + if p < v.proposed && p < v.accepted then 1 else 0
    {
      for position := 0 to v.proposed
        invariant |prefixTrials| == |prefixSuccesses| == 4
        invariant forall p :: 0 <= p < 4 ==>
          prefixTrials[p] == old(prefixTrials[p]) + if p < position then 1 else 0
        invariant forall p :: 0 <= p < 4 ==>
          prefixSuccesses[p] == old(prefixSuccesses[p]) + if p < position && p < v.accepted then 1 else 0
      {
        prefixTrials := prefixTrials[position := prefixTrials[position] + 1];
        if v.accepted > position {
          prefixSuccesses := prefixSuccesses[position := prefixSuccesses[position] + 1];
        }
      }
    }

    /** The counting half of `Observe`, once the report has been accepted. */
    method Count(v: Verification)
      requires Valid(Abs()) && AcceptableReport(Abs(), v) && v.proposed != 0 && CountersFit(Abs(), v)
      modifies this
      ensures Abs() == Counted(old(Abs()), v)
    {
      var rung := RungIndex(v.proposed).value;
      CountPrefixes(v);
      costLoads := costLoads[rung := costLoads[rung] + v.payloadLoads];
      costAssignments := costAssignments[rung := costAssignments[rung] + v.assignments];
      observedLengths := observedLengths[rung := true];
      ghost var c := Counted(old(Abs()), v);
      assert prefixTrials == c.trials;
      assert prefixSuccesses == c.successes;
    }

    /** The adaptive half of `Observe`: back off after a rejection, climb after a clean acceptance. */
    method Adapt(v: Verification)
      requires Valid(Abs()) && AcceptableReport(Abs(), v) && v.proposed != 0
      modifies this
      ensures Abs() == Adapted(old(Abs()), v)
    {
      var rung := RungIndex(v.proposed).value;
      if v.accepted < v.proposed {
        rejectionCap := Some(if rung == 0 then 0 else LADDER[rung - 1]);
        stats := stats.(backoffs := stats.backoffs + 1);
        return;
      }
      rejectionCap := None;
      if && Survival(Abs(), v.proposed - 1) >= config.minimumPrefixSurvival
         && CostQualifies(Abs(), rung)
         && (largestQualifiedRung.None? || rung > largestQualifiedRung.value)
      {
        largestQualifiedRung := Some(rung);
        if rung + 1 < 3 {
          stats := stats.(growths := stats.growths + 1);
        }
      }
    }

    method Observe(v: Verification) returns (r: Result<bool>)
      requires Valid(Abs())
      modifies this
      ensures (Abs(), r) == Learn(old(Abs()), v)
    {
      if v.proposed == 0 {
        if v.accepted != 0 || v.payloadLoads != 0 || v.assignments != 0 || v.discarded > v.evaluated {
          return Failure("invalid_extent");
        }
        return Success(true);
      }
      var index := RungIndex(v.proposed);
      if || index.None?
         || v.proposed > config.maximumLength
         || v.accepted > v.proposed
         || v.discarded > v.evaluated
         || (v.payloadLoads != 0 && v.assignments == 0)
         || v.payloadLoads > v.assignments
      {
        return Failure("invalid_extent");
      }
      assert AcceptableReport(Abs(), v);
      var prefixesFit := PrefixCountersFit(v.proposed);
      var rung := index.value;
      if || !prefixesFit
         || v.payloadLoads + costLoads[rung] > UINT64_MAX
         || v.assignments + costAssignments[rung] > UINT64_MAX
      {
        return Failure("invalid_state");
      }
      Count(v);
      if config.policy == Fixed {
        return Success(true);
      }
      Adapt(v);
      return Success(true);
    }
  }
}
