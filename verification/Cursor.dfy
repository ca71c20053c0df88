/**
 The persistent draft cursor: it proposes greedily from its running state, then rolls the state
 back to the accepted prefix and reads the token the target committed. A checkpoint copies the KDA
 state and only remembers how long the MLA vectors were.
 */
module Cursor {
  import opened Wrappers
  import opened Engine

  datatype MlaMark = MlaMark(length: nat, keys: nat, values: nat, sharedKeys: nat)
  datatype Checkpoint = Checkpoint(kda: seq<Vec>, mla: MlaMark, logits: Vec)

  function Capture(s: ModelState, logits: Vec): Checkpoint {
    Checkpoint(s.kda,
               MlaMark(s.mla.length, |s.mla.keys|, |s.mla.values|, |s.mla.sharedKeys|),
               logits)
  }

  predicate CanRestore(s: ModelState, c: Checkpoint) {
    && c.mla.length <= s.mla.length
    && c.mla.keys <= |s.mla.keys|
    && c.mla.values <= |s.mla.values|
    && c.mla.sharedKeys <= |s.mla.sharedKeys|
  }

  function Restore(s: ModelState, c: Checkpoint): ModelState
    requires CanRestore(s, c)
  {
    ModelState(c.kda, MlaState(s.mla.keys[..c.mla.keys], s.mla.values[..c.mla.values],
                          s.mla.sharedKeys[..c.mla.sharedKeys], c.mla.length))
  }

  /** Reading more tokens only appends to the MLA vectors. */
  ghost predicate Extends(early: ModelState, late: ModelState) {
    && early.mla.length <= late.mla.length
    && early.mla.keys <= late.mla.keys
    && early.mla.values <= late.mla.values
    && early.mla.sharedKeys <= late.mla.sharedKeys
  }

  lemma {:induction false} ReadExtends(e: Engine, tokens: seq<nat>, prefix: nat)
    requires prefix <= |tokens|
    ensures Extends(Absorb(e, tokens[..prefix]).1, Absorb(e, tokens).1)
    decreases |tokens|
  {
    if prefix == |tokens| {
      assert tokens[..prefix] == tokens;
    } else {
      var shorter := tokens[..|tokens| - 1];
      ReadExtends(e, shorter, prefix);
      assert shorter[..prefix] == tokens[..prefix];
      assert tokens == shorter + [tokens[|tokens| - 1]];
      AbsorbMore(e, shorter, tokens[|tokens| - 1]);
    }
  }

  /** Rolling back to a checkpoint taken after a prefix gives exactly the state after that prefix. */
  lemma RestoreIsExact(e: Engine, tokens: seq<nat>, prefix: nat)
    requires prefix <= |tokens|
    ensures var early := Absorb(e, tokens[..prefix]);
            var late := Absorb(e, tokens).1;
      && CanRestore(late, Capture(early.1, early.0))
      && Restore(late, Capture(early.1, early.0)) == early.1
  {
    ReadExtends(e, tokens, prefix);
  }

  /** The candidates whose forward pass has already run when a proposal of `count` is returned. */
  function Processed(count: nat): nat {
    if count == 0 then 0 else count - 1
  }

  function CheckpointAfter(e: Engine, tokens: seq<nat>): Checkpoint {
    Capture(Absorb(e, tokens).1, Absorb(e, tokens).0)
  }

  /** The checkpoints taken after each of the first `count` candidates. */
  function CheckpointsAlong(e: Engine, context: seq<nat>, candidates: seq<nat>, count: nat): (c: seq<Checkpoint>)
    requires count <= |candidates|
    ensures |c| == count
  {
    if count == 0 then []
    else CheckpointsAlong(e, context, candidates, count - 1)
         + [CheckpointAfter(e, context + candidates[..count])]
  }

  lemma {:induction false} CheckpointsKept(e: Engine, context: seq<nat>, candidates: seq<nat>, token: nat, count: nat)
    requires count <= |candidates|
    ensures CheckpointsAlong(e, context, candidates + [token], count) ==
            CheckpointsAlong(e, context, candidates, count)
  {
    if count != 0 {
      CheckpointsKept(e, context, candidates, token, count - 1);
      assert (candidates + [token])[..count] == candidates[..count];
    }
  }

  lemma {:induction false} CheckpointAt(e: Engine, context: seq<nat>, candidates: seq<nat>, count: nat, index: nat)
    requires index < count <= |candidates|
    ensures CheckpointsAlong(e, context, candidates, count)[index] ==
            CheckpointAfter(e, context + candidates[..index + 1])
  {
    if index + 1 < count {
      CheckpointAt(e, context, candidates, count - 1, index);
    }
  }

  class IncrementalDraftCursor {
    const engine: Engine
    var state: ModelState
    var logits: Vec
    var pendingCandidates: seq<nat>
    var baseCheckpoint: Option<Checkpoint>
    var processedCheckpoints: seq<Checkpoint>
    var pending: bool
    var failed: bool
    /** Every token the cursor stands for: its creation context and all committed tokens. */
    ghost var context: seq<nat>

    /** The tokens the running state has read: the context, plus the processed candidates. */
    ghost function Seen(): seq<nat>
      reads this
    {
      if pending then context + pendingCandidates[..Processed(|pendingCandidates|)] else context
    }

    ghost predicate PendingValid()
      reads this
    {
      && context != []
      && pendingCandidates == Greedy(engine, context, |pendingCandidates|)
      && baseCheckpoint == Some(CheckpointAfter(engine, context))
      && processedCheckpoints == CheckpointsAlong(engine, context, pendingCandidates,
                                                  Processed(|pendingCandidates|))
    }

    ghost predicate Valid()
      reads this
    {
      && context != []
      && (!failed ==>
            && (logits, state) == Absorb(engine, Seen())
            && (pending ==> PendingValid()))
    }

    constructor Init(e: Engine, tokens: seq<nat>, logits: Vec, state: ModelState)
      requires tokens != [] && (logits, state) == Absorb(e, tokens)
      ensures Valid() && engine == e && context == tokens && !pending && !failed
    {
      engine := e;
      this.state, this.logits := state, logits;
      pendingCandidates, processedCheckpoints := [], [];
      baseCheckpoint := None;
      pending, failed := false, false;
      context := tokens;
    }

    /** Reads the context; fails on an empty one or on a token the decoder does not know. */
    static method Create(e: Engine, tokens: seq<nat>) returns (r: Result<IncrementalDraftCursor>)
      ensures tokens == [] ==> r == Failure("invalid_state")
      ensures tokens != [] && !InVocabulary(e, tokens) ==> r == Failure("invalid_extent")
      ensures tokens != [] && InVocabulary(e, tokens) ==>
        && r.Success? && fresh(r.value) && r.value.Valid() && r.value.engine == e
        && r.value.context == tokens && !r.value.pending && !r.value.failed
    {
      if tokens == [] {
        return Failure("invalid_state");
      }
      var prefilled := Prefill(e, tokens);
      if prefilled.Failure? {
        return Failure(prefilled.error);
      }
      var cursor := new IncrementalDraftCursor.Init(e, tokens, prefilled.value.0, prefilled.value.1);
      return Success(cursor);
    }

    method Advance(token: nat)
      modifies `logits, `state
      ensures (logits, state) == Forward(engine, token, old(state))
    {
      var (nextLogits, nextState) := Forward(engine, token, state);
      logits, state := nextLogits, nextState;
    }

    /** While drafting: `read` of the candidates have been read and have a checkpoint. */
    ghost predicate Drafting(candidates: seq<nat>, read: nat)
      reads this
    {
      && context != [] && read <= |candidates|
      && candidates == Greedy(engine, context, |candidates|)
      && processedCheckpoints == CheckpointsAlong(engine, context, candidates, read)
      && (logits, state) == Absorb(engine, context + candidates[..read])
    }

    /** The next candidate is the greedy choice; nothing has been read yet. */
    method DraftOne(candidates: seq<nat>) returns (longer: seq<nat>)
      requires Drafting(candidates, |candidates|)
      ensures |longer| == |candidates| + 1 && Drafting(longer, |candidates|)
    {
      assert candidates[..|candidates|] == candidates;
      var token := ArgMax(logits);
      longer := candidates + [token];
      CheckpointsKept(engine, context, candidates, token, |candidates|);
      assert longer[..|candidates|] == candidates;
      assert longer == Greedy(engine, context, |longer|);
    }

    /** Reads the last candidate and remembers the state after it. */
    method ReadOne(candidates: seq<nat>)
      requires candidates != [] && Drafting(candidates, |candidates| - 1)
      modifies `state, `logits, `processedCheckpoints
      ensures Drafting(candidates, |candidates|)
    {
      var last := |candidates| - 1;
      AbsorbMore(engine, context + candidates[..last], candidates[last]);
      assert (context + candidates[..last]) + [candidates[last]] == context + candidates[..|candidates|];
      Advance(candidates[last]);
      processedCheckpoints := processedCheckpoints + [Capture(state, logits)];
    }

    /** The drafting loop: a checkpoint before it, and one after every candidate it reads. */
    method DraftAll(count: nat) returns (candidates: seq<nat>)
      requires Valid() && !failed && !pending
      modifies `state, `logits, `processedCheckpoints, `baseCheckpoint
      ensures |candidates| == count && Drafting(candidates, Processed(count))
      ensures baseCheckpoint == Some(CheckpointAfter(engine, context))
    {
      candidates := [];
      processedCheckpoints := [];
      baseCheckpoint := Some(Capture(state, logits));
      assert context + candidates[..0] == context;
      for index := 0 to count
        invariant baseCheckpoint == Some(CheckpointAfter(engine, context))
        invariant |candidates| == index
        invariant Drafting(candidates, if index < count then index else Processed(count))
      {
        candidates := DraftOne(candidates);
        if index + 1 < count {
          ReadOne(candidates);
        }
      }
    }

    /** The greedy continuation of the context; the state runs ahead, checkpoints remember how to return. */
    method Propose(count: nat) returns (r: Result<seq<nat>>)
      requires Valid()
      modifies this
      ensures Valid() && context == old(context) && failed == old(failed)
      ensures r.Success? <==> !old(failed) && !old(pending)
      ensures r.Success? ==> pending && r.value == pendingCandidates == Greedy(engine, context, count)
      ensures r.Failure? ==> r.error == "invalid_state" && pending == old(pending)
                             && pendingCandidates == old(pendingCandidates)
    {
      if failed || pending || logits == [] {
        return Failure("invalid_state");
      }
      var candidates := DraftAll(count);
      pendingCandidates := candidates;
      pending := true;
      return Success(candidates);
    }

    predicate CommitAllowed(acceptedPrefix: nat, committed: seq<nat>)
      reads this
    {
      && !failed && pending && baseCheckpoint.Some?
      && acceptedPrefix <= |pendingCandidates|
      && |committed| == acceptedPrefix + 1
      && committed[..acceptedPrefix] == pendingCandidates[..acceptedPrefix]
    }

    /** The validity test at the head of a commit. */
    method CheckCommit(acceptedPrefix: nat, committed: seq<nat>) returns (valid: bool)
      ensures valid <==> CommitAllowed(acceptedPrefix, committed)
    {
      valid := && !failed && pending && baseCheckpoint.Some?
               && acceptedPrefix <= |pendingCandidates|
               && |committed| == acceptedPrefix + 1;
      if valid {
        for index := 0 to acceptedPrefix
          invariant committed[..index] == pendingCandidates[..index]
        {
          if committed[index] != pendingCandidates[index] {
            assert committed[..acceptedPrefix][index] != pendingCandidates[..acceptedPrefix][index];
            return false;
          }
        }
      }
    }

    /** Brings the running state back, or forward by one token, to the accepted prefix. */
    method RollTo(acceptedPrefix: nat)
      requires Valid() && !failed && pending && acceptedPrefix <= |pendingCandidates|
      modifies `state, `logits
      ensures (logits, state) == Absorb(engine, context + pendingCandidates[..acceptedPrefix])
    {
      var processed := if pendingCandidates == [] then 0 else |pendingCandidates| - 1;
      ghost var accepted := context + pendingCandidates[..acceptedPrefix];
      if acceptedPrefix < processed {
        var checkpoint := if acceptedPrefix == 0 then baseCheckpoint.value
                          else processedCheckpoints[acceptedPrefix - 1];
        if acceptedPrefix == 0 {
          assert accepted == context;
        } else {
          CheckpointAt(engine, context, pendingCandidates, processed, acceptedPrefix - 1);
        }
        assert Seen()[..|accepted|] == accepted;
        RestoreIsExact(engine, Seen(), |accepted|);
        state := Restore(state, checkpoint);
        logits := checkpoint.logits;
      }
      if acceptedPrefix == |pendingCandidates| && acceptedPrefix != 0 {
        assert accepted == Seen() + [pendingCandidates[processed]];
        AbsorbMore(engine, Seen(), pendingCandidates[processed]);
        Advance(pendingCandidates[|pendingCandidates| - 1]);
      }
    }

    /** Rolls back to the accepted prefix and reads on: the cursor then stands for context ++ committed. */
    method Commit(acceptedPrefix: nat, committed: seq<nat>) returns (r: Result<bool>)
      requires Valid()
      modifies this
      ensures Valid()
      ensures r.Success? <==>
        old(CommitAllowed(acceptedPrefix, committed)) && committed[acceptedPrefix] < engine.vocab
      ensures r.Success? ==> !failed && !pending && context == old(context) + committed
      ensures r.Failure? ==> failed && !pending && context == old(context)
    {
      var valid := CheckCommit(acceptedPrefix, committed);
      if !valid {
        failed, pending := true, false;
        return Failure("invalid_state");
      }
      RollTo(acceptedPrefix);
      if committed[acceptedPrefix] >= engine.vocab {
        failed, pending := true, false;
        return Failure("invalid_extent");
      }
      ghost var accepted := context + pendingCandidates[..acceptedPrefix];
      assert context + committed == accepted + [committed[acceptedPrefix]];
      Land(committed, committed[acceptedPrefix], accepted);
      return Success(true);
    }

    /** Reads the last committed token on top of the accepted ones; nothing is pending then. */
    method Land(committed: seq<nat>, last: nat, ghost accepted: seq<nat>)
      requires context != [] && context + committed == accepted + [last]
      requires (logits, state) == Absorb(engine, accepted)
      modifies this
      ensures Valid() && failed == old(failed) && !pending && context == old(context) + committed
    {
      AbsorbMore(engine, accepted, last);
      Advance(last);
      pending := false;
      pendingCandidates, processedCheckpoints, baseCheckpoint := [], [], None;
      context := context + committed;
    }
  }
}
