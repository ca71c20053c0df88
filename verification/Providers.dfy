/**
 The two AURORA draft providers. Both follow the same propose/update life cycle; the replay
 provider re-reads the whole committed prefix for every proposal, the persistent one keeps a cursor
 that is created lazily and rolled back after each verification.
 */
module Providers {
  import opened Wrappers
  import opened Engine
  import opened Scheduler
  import opened Cursor

  datatype Request = Request(anchor: nat, maxDraft: nat, position: nat, generated: seq<nat>)
  datatype Proposal = Proposal(anchor: nat, candidates: seq<nat>)

  /** The fields both providers have. */
  datatype Life = Life(
    scheduler: Scheduler.State,
    prompt: seq<nat>,
    expected: seq<nat>,
    initialized: bool,
    pending: bool,
    pendingAnchor: nat,
    pendingCandidates: seq<nat>,
    lifecycleError: bool)

  function FreshLife(c: Config, prompt: seq<nat>): Life {
    Life(Fresh(c), prompt, [], false, false, 0, [], false)
  }

  predicate ProposeAllowed(s: Life, r: Request) {
    && !s.lifecycleError && !s.pending
    && r.generated != []
    && r.position == |r.generated|
    && r.anchor == r.generated[|r.generated| - 1]
    && (s.initialized ==> r.generated == s.expected)
  }

  predicate UpdateAllowed(s: Life, v: Verification) {
    && s.pending
    && v.anchor == s.pendingAnchor
    && v.proposed == |s.pendingCandidates|
    && v.accepted <= v.proposed
    && |v.committed| == v.accepted + 1
    && v.allAccepted == (v.accepted == v.proposed)
    && v.committed[..v.accepted] == s.pendingCandidates[..v.accepted]
  }

  /** The life cycle after a successful proposal. */
  function Proposed(s: Life, r: Request, candidates: seq<nat>): Life {
    s.(expected := if s.initialized then s.expected else r.generated,
       initialized := true,
       pending := true,
       pendingAnchor := r.anchor,
       pendingCandidates := candidates)
  }

  function Broken(s: Life): Life {
    s.(lifecycleError := true, pending := false, pendingCandidates := [])
  }

  function Committed(s: Life, v: Verification): Life {
    s.(expected := s.expected + v.committed, pending := false, pendingCandidates := [])
  }

  // ----- Replay -----

  function ReplayPropose(e: Engine, s: Life, r: Request): (out: (Life, Result<Proposal>))
    requires Scheduler.Valid(s.scheduler) && s.prompt != []
    ensures Scheduler.Valid(out.0.scheduler) && out.0.prompt == s.prompt
  {
    if !ProposeAllowed(s, r) then (s, Failure("invalid_state"))
    else
      var (scheduler, length) := Choose(s.scheduler, r.maxDraft);
      var t := s.(scheduler := scheduler);
      if length != 0 && !InVocabulary(e, s.prompt + r.generated) then (t, Failure("invalid_extent"))
      else
        var candidates := Greedy(e, s.prompt + r.generated, length);
        (Proposed(t, r, candidates), Success(Proposal(r.anchor, candidates)))
  }

  function ReplayUpdate(s: Life, v: Verification): (t: Life)
    requires Scheduler.Valid(s.scheduler)
    ensures Scheduler.Valid(t.scheduler) && t.prompt == s.prompt
  {
    if !UpdateAllowed(s, v) then Broken(s) else Settled(s, v)
  }

  // ----- Persistent: the same life cycle, plus what the cursor stands for -----

  datatype Persistent = Persistent(life: Life, cursor: Option<seq<nat>>, cursorPending: bool)

  ghost predicate PersistentValid(p: Persistent) {
    && Scheduler.Valid(p.life.scheduler) && p.life.prompt != []
    && (p.cursor.Some? ==> p.cursor.value != [])
    && (p.cursorPending ==> p.cursor.Some?)
  }

  /** The proposal once the scheduler has picked `length`. */
  function PersistentDraft(e: Engine, p: Persistent, r: Request, length: nat): (out: (Persistent, Result<Proposal>))
    requires PersistentValid(p)
    ensures PersistentValid(out.0)
  {
    if p.cursor.None? && length != 0 && !InVocabulary(e, p.life.prompt + r.generated) then
      (p, Failure("invalid_extent"))
    else
      var cursor := if p.cursor.None? && length != 0 then Some(p.life.prompt + r.generated) else p.cursor;
      var candidates := if cursor.Some? then Greedy(e, cursor.value, length) else [];
      (Persistent(Proposed(p.life, r, candidates), cursor, p.cursorPending || cursor.Some?),
       Success(Proposal(r.anchor, candidates)))
  }

  function PersistentPropose(e: Engine, p: Persistent, r: Request): (out: (Persistent, Result<Proposal>))
    requires PersistentValid(p)
    ensures PersistentValid(out.0)
  {
    if !ProposeAllowed(p.life, r) then (p, Failure("invalid_state"))
    else
      var (scheduler, length) := Choose(p.life.scheduler, r.maxDraft);
      PersistentDraft(e, p.(life := p.life.(scheduler := scheduler)), r, length)
  }

  /** The life cycle after an accepted report: the scheduler may still refuse to count it. */
  function Settled(s: Life, v: Verification): (t: Life)
    requires Scheduler.Valid(s.scheduler)
    ensures Scheduler.Valid(t.scheduler) && t.prompt == s.prompt
  {
    var (scheduler, observed) := Learn(s.scheduler, v);
    var t := s.(scheduler := scheduler);
    if observed.Failure? then Broken(t) else Committed(t, v)
  }

  function PersistentUpdate(e: Engine, p: Persistent, v: Verification): (q: Persistent)
    requires PersistentValid(p)
    ensures PersistentValid(q)
  {
    if !UpdateAllowed(p.life, v) then p.(life := Broken(p.life))
    else if p.cursorPending && v.committed[v.accepted] >= e.vocab then
      Persistent(Broken(p.life), p.cursor, false)
    else
      Persistent(Settled(p.life, v),
                 if p.cursorPending then Some(p.cursor.value + v.committed) else p.cursor,
                 false)
  }

  // ----- The objects -----

  /** The validity test both providers share. */
  method CheckUpdate(v: Verification, s: Life) returns (valid: bool)
    ensures valid <==> UpdateAllowed(s, v)
  {
    valid := && s.pending && v.anchor == s.pendingAnchor
             && v.proposed == |s.pendingCandidates|
             && v.accepted <= v.proposed
             && |v.committed| == v.accepted + 1
             && v.allAccepted == (v.accepted == v.proposed);
    if valid {
      for index := 0 to v.accepted
        invariant v.committed[..index] == s.pendingCandidates[..index]
      {
        if v.committed[index] != s.pendingCandidates[index] {
          assert v.committed[..v.accepted][index] != s.pendingCandidates[..v.accepted][index];
          return false;
        }
      }
    }
  }

  class ReplayDraftProvider {
    const engine: Engine
    const prompt: seq<nat>
    const scheduler: AdaptiveDraftScheduler
    var expectedGenerated: seq<nat>
    var initialized: bool
    var pending: bool
    var pendingAnchor: nat
    var pendingCandidates: seq<nat>
    var lifecycleError: bool

    function Abs(): Life
      reads this, scheduler
    {
      Life(scheduler.Abs(), prompt, expectedGenerated, initialized, pending, pendingAnchor,
           pendingCandidates, lifecycleError)
    }

    ghost predicate Valid()
      reads this, scheduler
    {
      Scheduler.Valid(scheduler.Abs()) && prompt != []
    }

    constructor (e: Engine, tokens: seq<nat>, c: Config)
      requires tokens != [] && ValidConfig(c)
      ensures Valid() && fresh(scheduler) && engine == e && Abs() == FreshLife(c, tokens)
    {
      engine, prompt := e, tokens;
      scheduler := new AdaptiveDraftScheduler(c);
      expectedGenerated, pendingCandidates := [], [];
      initialized, pending, lifecycleError := false, false, false;
      pendingAnchor := 0;
    }

    method Propose(request: Request) returns (r: Result<Proposal>)
      requires Valid()
      modifies this, scheduler
      ensures Valid() && (Abs(), r) == ReplayPropose(engine, old(Abs()), request)
    {
      if || lifecycleError || pending || request.generated == []
         || request.position != |request.generated|
         || request.anchor != request.generated[|request.generated| - 1]
         || (initialized && request.generated != expectedGenerated)
      {
        return Failure("invalid_state");
      }
      var selected := scheduler.Select(request.maxDraft);
      var candidates: seq<nat> := [];
      if selected != 0 {
        candidates :- GenerateGreedy(engine, prompt + request.generated, selected, true);
      }
      if !initialized {
        expectedGenerated := request.generated;
        initialized := true;
      }
      pendingAnchor := request.anchor;
      pendingCandidates := candidates;
      pending := true;
      return Success(Proposal(request.anchor, candidates));
    }

    method Update(v: Verification)
      requires Valid()
      modifies this, scheduler
      ensures Valid() && Abs() == ReplayUpdate(old(Abs()), v)
    {
      var valid := CheckUpdate(v, Abs());
      var observed: Result<bool> := Failure("invalid_state");
      if valid {
        observed := scheduler.Observe(v);
      }
      if !valid || observed.Failure? {
        lifecycleError := true;
        pending := false;
        pendingCandidates := [];
        return;
      }
      expectedGenerated := expectedGenerated + v.committed;
      pending := false;
      pendingCandidates := [];
    }
  }

  class PersistentDraftProvider {
    const engine: Engine
    const prompt: seq<nat>
    const scheduler: AdaptiveDraftScheduler
    var expectedGenerated: seq<nat>
    var cursor: IncrementalDraftCursor?
    var initialized: bool
    var cursorPending: bool
    var pending: bool
    var pendingAnchor: nat
    var pendingCandidates: seq<nat>
    var lifecycleError: bool

    function LifeOf(): Life
      reads this, scheduler
    {
      Life(scheduler.Abs(), prompt, expectedGenerated, initialized, pending, pendingAnchor,
           pendingCandidates, lifecycleError)
    }

    ghost function Abs(): Persistent
      reads this, scheduler, cursor
    {
      Persistent(LifeOf(), if cursor == null then None else Some(cursor.context), cursorPending)
    }

    ghost predicate Valid()
      reads this, scheduler, cursor
    {
      && Scheduler.Valid(scheduler.Abs()) && prompt != []
      && (lifecycleError ==> !pending)
      && (cursorPending ==> cursor != null)
      && (cursor != null ==>
            && cursor.Valid() && cursor.engine == engine
            && (!lifecycleError ==>
                  && !cursor.failed
                  && cursor.pending == cursorPending == pending
                  && (pending ==> cursor.pendingCandidates == pendingCandidates)))
    }

    constructor (e: Engine, tokens: seq<nat>, c: Config)
      requires tokens != [] && ValidConfig(c)
      ensures Valid() && fresh(scheduler) && engine == e
      ensures Abs() == Persistent(FreshLife(c, tokens), None, false)
    {
      engine, prompt := e, tokens;
      scheduler := new AdaptiveDraftScheduler(c);
      expectedGenerated, pendingCandidates := [], [];
      cursor := null;
      initialized, cursorPending, pending, lifecycleError := false, false, false, false;
      pendingAnchor := 0;
    }

    /** Creates the cursor the first time a non-empty draft is wanted. */
    method EnsureCursor(generated: seq<nat>, selected: nat) returns (r: Result<bool>)
      requires Valid() && !lifecycleError && !pending
      modifies `cursor
      ensures Valid()
      ensures old(cursor) != null || selected == 0 ==> r.Success? && cursor == old(cursor)
      ensures old(cursor) == null && selected != 0 ==>
        if InVocabulary(engine, prompt + generated)
        then r.Success? && cursor != null && fresh(cursor) && cursor.context == prompt + generated
        else r == Failure("invalid_extent") && cursor == null
    {
      if cursor == null && selected != 0 {
        var created :- IncrementalDraftCursor.Create(engine, prompt + generated);
        cursor := created;
      }
      return Success(true);
    }

    /** Drafts from the cursor, when there is one. */
    method Draft(selected: nat) returns (candidates: seq<nat>)
      requires Valid() && !lifecycleError && !pending
      requires cursor == null ==> selected == 0
      modifies `cursorPending, cursor
      ensures cursor != null ==>
        && cursorPending && cursor.Valid() && !cursor.failed && cursor.pending
        && cursor.pendingCandidates == candidates
        && cursor.context == old(cursor.context) && candidates == Greedy(engine, cursor.context, selected)
      ensures cursor == null ==> candidates == [] && cursorPending == old(cursorPending)
    {
      candidates := [];
      if cursor != null {
        var drafted := cursor.Propose(selected);
        candidates := drafted.value;
        cursorPending := true;
      }
    }

    /** The proposal once the scheduler has picked `selected`. */
    method ProposeSelected(request: Request, selected: nat) returns (r: Result<Proposal>)
      requires Valid() && ProposeAllowed(LifeOf(), request)
      modifies this, cursor
      ensures Valid() && (cursor != old(cursor) ==> fresh(cursor))
      ensures (Abs(), r) == PersistentDraft(engine, old(Abs()), request, selected)
    {
      var ensured := EnsureCursor(request.generated, selected);
      if ensured.Failure? {
        return Failure(ensured.error);
      }
      var candidates := Draft(selected);
      Remember(request, candidates);
      return Success(Proposal(request.anchor, candidates));
    }

    /** Notes the proposal that is now pending, and the prefix the first one starts from. */
    method Remember(request: Request, candidates: seq<nat>)
      modifies `expectedGenerated, `initialized, `pendingAnchor, `pendingCandidates, `pending
      ensures LifeOf() == Proposed(old(LifeOf()), request, candidates)
    {
      if !initialized {
        expectedGenerated := request.generated;
        initialized := true;
      }
      pendingAnchor := request.anchor;
      pendingCandidates := candidates;
      pending := true;
    }

    method Propose(request: Request) returns (r: Result<Proposal>)
      requires Valid()
      modifies this, scheduler, cursor
      ensures Valid() && (cursor != old(cursor) ==> fresh(cursor))
      ensures (Abs(), r) == PersistentPropose(engine, old(Abs()), request)
    {
      if || lifecycleError || pending || request.generated == []
         || request.position != |request.generated|
         || request.anchor != request.generated[|request.generated| - 1]
         || (initialized && request.generated != expectedGenerated)
      {
        return Failure("invalid_state");
      }
      var selected := scheduler.Select(request.maxDraft);
      r := ProposeSelected(request, selected);
    }

    /** A failed update leaves the provider unusable for ever. */
    method Break()
      modifies this
      ensures LifeOf() == Broken(old(LifeOf()))
      ensures cursor == old(cursor) && cursorPending == old(cursorPending)
    {
      lifecycleError := true;
      pending := false;
      pendingCandidates := [];
    }

    /** Counts the report and extends the expected prefix, or breaks. */
    method Settle(v: Verification)
      requires Scheduler.Valid(scheduler.Abs())
      modifies this, scheduler
      ensures LifeOf() == Settled(old(LifeOf()), v)
      ensures cursor == old(cursor) && !cursorPending
    {
      var observed := scheduler.Observe(v);
      cursorPending := false;
      if observed.Failure? {
        Break();
        return;
      }
      expectedGenerated := expectedGenerated + v.committed;
      pending := false;
      pendingCandidates := [];
    }

    /** The cursor takes an allowed report unless the last token is unknown. */
    method CommitCursor(v: Verification) returns (ok: bool)
      requires Valid() && cursorPending && UpdateAllowed(LifeOf(), v)
      modifies cursor
      ensures cursor.Valid() && !cursor.pending && (ok ==> !cursor.failed)
      ensures ok <==> v.committed[v.accepted] < engine.vocab
      ensures cursor.context == if ok then old(cursor.context) + v.committed else old(cursor.context)
    {
      var committed := cursor.Commit(v.accepted, v.committed);
      return committed.Success?;
    }

    /** An allowed report: to the cursor, then to the counters. */
    method Take(v: Verification)
      requires Valid() && UpdateAllowed(LifeOf(), v)
      modifies this, scheduler, cursor
      ensures Valid() && cursor == old(cursor)
      ensures Abs() == PersistentUpdate(engine, old(Abs()), v)
    {
      if cursorPending {
        var committed := CommitCursor(v);
        if !committed {
          Break();
          cursorPending := false;
          return;
        }
      }
      Settle(v);
    }

    method Update(v: Verification)
      requires Valid()
      modifies this, scheduler, cursor
      ensures Valid() && cursor == old(cursor)
      ensures Abs() == PersistentUpdate(engine, old(Abs()), v)
    {
      var valid := CheckUpdate(v, LifeOf());
      if valid {
        Take(v);
      } else {
        Break();
      }
    }
  }
}
