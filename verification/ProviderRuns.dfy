/** Whole runs of the draft providers: the persistent one simulates the replay one. */
module ProviderRuns {
  import opened Wrappers
  import opened Engine
  import opened Scheduler
  import opened Providers

  datatype Event = Propose(request: Request) | Update(v: Verification)

  /** Every token in the event is one the decoder knows. */
  predicate Known(e: Engine, event: Event) {
    match event
    case Propose(r) => InVocabulary(e, r.generated)
    case Update(v) => InVocabulary(e, v.committed)
  }

  /** What a caller sees of an event: the answer to a proposal, nothing for an update. */
  type Answer = Option<Result<Proposal>>

  function ReplayStep(e: Engine, s: Life, event: Event): (r: (Life, Answer))
    requires Scheduler.Valid(s.scheduler) && s.prompt != []
    ensures Scheduler.Valid(r.0.scheduler) && r.0.prompt == s.prompt
  {
    match event
    case Propose(request) => var (t, answer) := ReplayPropose(e, s, request); (t, Some(answer))
    case Update(v) => (ReplayUpdate(s, v), None)
  }

  function PersistentStep(e: Engine, p: Persistent, event: Event): (r: (Persistent, Answer))
    requires PersistentValid(p)
    ensures PersistentValid(r.0)
  {
    match event
    case Propose(request) => var (t, answer) := PersistentPropose(e, p, request); (t, Some(answer))
    case Update(v) => (PersistentUpdate(e, p, v), None)
  }

  function ReplayRun(e: Engine, s: Life, events: seq<Event>): (r: (Life, seq<Answer>))
    requires Scheduler.Valid(s.scheduler) && s.prompt != []
    ensures Scheduler.Valid(r.0.scheduler) && r.0.prompt == s.prompt && |r.1| == |events|
    decreases |events|
  {
    if events == [] then (s, [])
    else
      var (t, answers) := ReplayRun(e, s, events[..|events| - 1]);
      var (u, answer) := ReplayStep(e, t, events[|events| - 1]);
      (u, answers + [answer])
  }

  function PersistentRun(e: Engine, p: Persistent, events: seq<Event>): (r: (Persistent, seq<Answer>))
    requires PersistentValid(p)
    ensures PersistentValid(r.0) && |r.1| == |events|
    decreases |events|
  {
    if events == [] then (p, [])
    else
      var (t, answers) := PersistentRun(e, p, events[..|events| - 1]);
      var (u, answer) := PersistentStep(e, t, events[|events| - 1]);
      (u, answers + [answer])
  }

  /**
   Same life cycle; and unless it is broken, a cursor stands for the prompt followed by every
   expected token, whether it was created early, late, or has lived through empty proposals.
   */
  ghost predicate Simulates(p: Persistent, s: Life) {
    && p.life == s
    && (s.lifecycleError ==> !s.pending)
    && (!s.lifecycleError ==>
          && (p.cursorPending <==> s.pending && p.cursor.Some?)
          && (p.cursor.Some? ==> s.initialized && p.cursor.value == s.prompt + s.expected))
  }

  lemma ProposeSimulates(e: Engine, p: Persistent, s: Life, r: Request)
    requires PersistentValid(p) && Simulates(p, s)
    requires InVocabulary(e, s.prompt) && InVocabulary(e, r.generated)
    ensures PersistentPropose(e, p, r).1 == ReplayPropose(e, s, r).1
    ensures Simulates(PersistentPropose(e, p, r).0, ReplayPropose(e, s, r).0)
  {
    if ProposeAllowed(s, r) {
      assert InVocabulary(e, s.prompt + r.generated) by {
        assert forall i :: |s.prompt| <= i < |s.prompt + r.generated| ==>
          (s.prompt + r.generated)[i] == r.generated[i - |s.prompt|];
      }
      var (scheduler, length) := Choose(s.scheduler, r.maxDraft);
      if p.cursor.Some? {
        assert p.cursor.value == s.prompt + r.generated;
      }
    }
  }

  lemma UpdateSimulates(e: Engine, p: Persistent, s: Life, v: Verification)
    requires PersistentValid(p) && Simulates(p, s)
    requires InVocabulary(e, v.committed)
    ensures Simulates(PersistentUpdate(e, p, v), ReplayUpdate(s, v))
  {
    if UpdateAllowed(s, v) && p.cursor.Some? {
      assert v.committed[v.accepted] < e.vocab;
      assert s.prompt + (s.expected + v.committed) == (s.prompt + s.expected) + v.committed;
    }
  }

  lemma StepSimulates(e: Engine, p: Persistent, s: Life, event: Event)
    requires PersistentValid(p) && Simulates(p, s)
    requires InVocabulary(e, s.prompt) && Known(e, event)
    ensures PersistentStep(e, p, event).1 == ReplayStep(e, s, event).1
    ensures Simulates(PersistentStep(e, p, event).0, ReplayStep(e, s, event).0)
  {
    match event
    case Propose(r) => ProposeSimulates(e, p, s, r);
    case Update(v) => UpdateSimulates(e, p, s, v);
  }

  lemma {:induction false} RunsSimulate(e: Engine, p: Persistent, s: Life, events: seq<Event>)
    requires PersistentValid(p) && Simulates(p, s) && InVocabulary(e, s.prompt)
    requires forall event :: event in events ==> Known(e, event)
    ensures PersistentRun(e, p, events).1 == ReplayRun(e, s, events).1
    ensures Simulates(PersistentRun(e, p, events).0, ReplayRun(e, s, events).0)
    decreases |events|
  {
    if events != [] {
      var before, last := events[..|events| - 1], events[|events| - 1];
      assert last in events;
      RunsSimulate(e, p, s, before);
      StepSimulates(e, PersistentRun(e, p, before).0, ReplayRun(e, s, before).0, last);
    }
  }

  /**
   Over every sequence of requests and verifications with known tokens, the persistent provider
   gives exactly the answers of the replay provider, and its cursor context never drifts from the
   prompt plus the expected tokens.
   */
  lemma PersistentSimulatesReplay(e: Engine, c: Config, prompt: seq<nat>, events: seq<Event>)
    requires ValidConfig(c) && prompt != [] && InVocabulary(e, prompt)
    requires forall event :: event in events ==> Known(e, event)
    ensures var replay := ReplayRun(e, FreshLife(c, prompt), events);
            var persistent := PersistentRun(e, Persistent(FreshLife(c, prompt), None, false), events);
      && persistent.1 == replay.1
      && Simulates(persistent.0, replay.0)
  {
    RunsSimulate(e, Persistent(FreshLife(c, prompt), None, false), FreshLife(c, prompt), events);
  }

  // ----- The life cycle itself -----

  /** The events that took effect. */
  datatype Done = Drafted(request: Request, candidates: seq<nat>) | Landed(v: Verification)

  function Effect(e: Engine, s: Life, event: Event): seq<Done>
    requires Scheduler.Valid(s.scheduler) && s.prompt != []
  {
    match event
    case Propose(r) =>
      var answer := ReplayPropose(e, s, r).1;
      if answer.Success? then [Drafted(r, answer.value.candidates)] else []
    case Update(v) =>
      if UpdateAllowed(s, v) && Learn(s.scheduler, v).1.Success? then [Landed(v)] else []
  }

  function Log(e: Engine, s: Life, events: seq<Event>): seq<Done>
    requires Scheduler.Valid(s.scheduler) && s.prompt != []
    decreases |events|
  {
    if events == [] then []
    else
      var before := events[..|events| - 1];
      Log(e, s, before) + Effect(e, ReplayRun(e, s, before).0, events[|events| - 1])
  }

  function CommittedTokens(log: seq<Done>): seq<nat> {
    if log == [] then []
    else CommittedTokens(log[..|log| - 1])
         + if log[|log| - 1].Landed? then log[|log| - 1].v.committed else []
  }

  /** An accepted update reports on the proposal just before it and extends its accepted prefix. */
  ghost predicate Answers(landed: Done, drafted: Done) {
    && landed.Landed? && drafted.Drafted?
    && landed.v.anchor == drafted.request.anchor
    && landed.v.proposed == |drafted.candidates|
    && landed.v.accepted <= |drafted.candidates|
    && |landed.v.committed| == landed.v.accepted + 1
    && landed.v.committed[..landed.v.accepted] == drafted.candidates[..landed.v.accepted]
  }

  ghost predicate Alternates(log: seq<Done>) {
    && (forall i :: 0 <= i < |log| && i % 2 == 0 ==> log[i].Drafted?)
    && (forall i :: 0 <= i < |log| && i % 2 == 1 ==> Answers(log[i], log[i - 1]))
  }

  ghost predicate LifeExplained(s: Life, log: seq<Done>) {
    && Alternates(log)
    && (s.initialized <==> log != [])
    && (log != [] ==> s.expected == log[0].request.generated + CommittedTokens(log))
    && (s.lifecycleError ==> !s.pending)
    && (!s.lifecycleError ==> (s.pending <==> |log| % 2 == 1))
    && (s.pending ==> s.pendingAnchor == log[|log| - 1].request.anchor
                      && s.pendingCandidates == log[|log| - 1].candidates)
  }

  lemma CommittedSnoc(log: seq<Done>, d: Done)
    ensures CommittedTokens(log + [d]) == CommittedTokens(log) + if d.Landed? then d.v.committed else []
  {
    assert (log + [d])[..|log|] == log;
  }

  lemma ProposeExplained(s: Life, r: Request, candidates: seq<nat>, log: seq<Done>)
    requires LifeExplained(s, log) && ProposeAllowed(s, r)
    ensures LifeExplained(Proposed(s, r, candidates), log + [Drafted(r, candidates)])
  {
    var longer := log + [Drafted(r, candidates)];
    CommittedSnoc(log, Drafted(r, candidates));
    assert CommittedTokens(longer) == CommittedTokens(log);
    assert Alternates(longer);
    assert log != [] ==> longer[0] == log[0];
    assert log == [] ==> r.generated + CommittedTokens(longer) == r.generated;
  }

  lemma UpdateExplained(s: Life, v: Verification, log: seq<Done>)
    requires LifeExplained(s, log) && UpdateAllowed(s, v)
    ensures LifeExplained(Committed(s, v), log + [Landed(v)])
  {
    var longer := log + [Landed(v)];
    assert longer[..|longer| - 1] == log;
    assert log[0].request.generated + (CommittedTokens(log) + v.committed)
        == (log[0].request.generated + CommittedTokens(log)) + v.committed;
    assert Answers(longer[|longer| - 1], longer[|longer| - 2]);
  }

  lemma StepExplained(e: Engine, s: Life, event: Event, log: seq<Done>)
    requires Scheduler.Valid(s.scheduler) && s.prompt != []
    requires LifeExplained(s, log)
    ensures LifeExplained(ReplayStep(e, s, event).0, log + Effect(e, s, event))
  {
    assert log + [] == log;
    match event
    case Propose(r) =>
      if ProposeAllowed(s, r) {
        var t := s.(scheduler := Choose(s.scheduler, r.maxDraft).0);
        var answer := ReplayPropose(e, s, r).1;
        if answer.Success? {
          ProposeExplained(t, r, answer.value.candidates, log);
        }
      }
    case Update(v) =>
      if UpdateAllowed(s, v) && Learn(s.scheduler, v).1.Success? {
        UpdateExplained(s.(scheduler := Learn(s.scheduler, v).0), v, log);
      }
  }

  /**
   On every run: proposals and accepted updates strictly alternate, each update reporting on the
   proposal before it, and the expected prefix is the first request's tokens followed by every
   committed token.
   */
  lemma {:induction false} LifeCycle(e: Engine, c: Config, prompt: seq<nat>, events: seq<Event>)
    requires ValidConfig(c) && prompt != []
    ensures LifeExplained(ReplayRun(e, FreshLife(c, prompt), events).0,
                          Log(e, FreshLife(c, prompt), events))
    decreases |events|
  {
    if events != [] {
      LifeCycle(e, c, prompt, events[..|events| - 1]);
      StepExplained(e, ReplayRun(e, FreshLife(c, prompt), events[..|events| - 1]).0,
                    events[|events| - 1], Log(e, FreshLife(c, prompt), events[..|events| - 1]));
    }
  }

  /** A lifecycle error is for ever: nothing takes effect after it and every proposal is refused. */
  lemma {:induction false} LifecycleErrorIsAbsorbing(e: Engine, s: Life, events: seq<Event>)
    requires Scheduler.Valid(s.scheduler) && s.prompt != []
    requires s.lifecycleError && !s.pending
    ensures var (t, answers) := ReplayRun(e, s, events);
      && t == s.(pendingCandidates := t.pendingCandidates)
      && forall i :: 0 <= i < |answers| && answers[i].Some? ==> answers[i] == Some(Failure("invalid_state"))
    decreases |events|
  {
    if events != [] {
      LifecycleErrorIsAbsorbing(e, s, events[..|events| - 1]);
    }
  }
}
