/** The packed cache with other threads' puts between the steps of a get. */
module PackedInterleaving {
  import opened Wrappers
  import opened Lru
  import opened PackedCache

  /**
   A get under way: first it has looked into the host layer, then it has its file, then its answer and,
   when it has made new pinned sections, those still to insert.
   */
  datatype Reading = Reading(path: Path, digest: Digest, nonBlocking: bool, file: Option<Sidecar>, fromHost: bool,
                             result: Option<seq<nat>>, toPin: bool)

  datatype Answer = Answer(path: Path, digest: Digest, payload: seq<nat>, nonBlocking: bool)

  datatype Shared = Shared(
    files: map<Path, Sidecar>, host: seq<Entry<Path, Sidecar>>, pinned: seq<Entry<Path, seq<nat>>>,
    flight: map<nat, Reading>, answers: seq<Answer>,
    recorded: set<(Path, Digest, seq<nat>)>)

  datatype Sizes = Sizes(host: nat, pinned: nat)

  datatype Action =
    | DoPut(path: Path, file: Sidecar)
    | Begin(id: nat, path: Path, digest: Digest, nonBlocking: bool)
    | Fetch(id: nat)
    | Decode(id: nat)
    | Pin(id: nat)
    | Finish(id: nat)

  function Recorded(path: Path, file: Sidecar): (Path, Digest, seq<nat>) {
    (path, file.digest, file.payload)
  }

  /** What the decode uses: its own payload, or the pinned sections when there are any of that layout. */
  function Decoded(r: Reading, pinned: seq<Entry<Path, seq<nat>>>, capacity: nat): Option<(seq<nat>, bool)>
    requires r.file.Some?
  {
    var file := r.file.value;
    if !file.intact then None
    else if !r.nonBlocking then Some((file.payload, false))
    else
      match Lookup(pinned, r.path)
      case Some(x) => if |x.value| == |file.payload| then Some((x.value, false)) else None
      case None => if |file.payload| <= capacity then Some((file.payload, true)) else None
  }

  function Replaced(s: Shared, path: Path, file: Sidecar): Shared {
    s.(files := s.files[path := file], host := Without(s.host, path), pinned := Without(s.pinned, path),
       recorded := s.recorded + {Recorded(path, file)})
  }

  /** The host lookup makes its entry the youngest; one of another digest ends the get. */
  function Begun(s: Shared, id: nat, path: Path, digest: Digest, nonBlocking: bool): Shared {
    if id in s.flight then s
    else
      match Lookup(s.host, path)
      case None => s.(flight := s.flight[id := Reading(path, digest, nonBlocking, None, false, None, false)])
      case Some(x) =>
        var touched := s.(host := Touched(s.host, path));
        if x.value.digest != digest then touched
        else touched.(flight := s.flight[id := Reading(path, digest, nonBlocking, Some(x.value), true, None, false)])
  }

  /** The read of the file, for a get that did not find it in the host layer. */
  function Fetched(s: Shared, id: nat): Shared {
    if id !in s.flight || s.flight[id].file.Some? then s
    else
      var r := s.flight[id];
      if r.path !in s.files || s.files[r.path].digest != r.digest then s.(flight := s.flight - {id})
      else s.(flight := s.flight[id := r.(file := Some(s.files[r.path]))])
  }

  function DecodedIn(s: Shared, id: nat, sizes: Sizes): Shared {
    if id !in s.flight || s.flight[id].file.None? || s.flight[id].result.Some? then s
    else
      var r := s.flight[id];
      var d := Decoded(r, s.pinned, sizes.pinned);
      if d.None? then s.(flight := s.flight - {id})
      else s.(pinned := if r.nonBlocking then Touched(s.pinned, r.path) else s.pinned,
              flight := s.flight[id := r.(result := Some(d.value.0), toPin := d.value.1)])
  }

  function Pinned(s: Shared, id: nat, sizes: Sizes): Shared {
    if id !in s.flight || s.flight[id].file.None? || !s.flight[id].toPin then s
    else
      var r := s.flight[id];
      s.(pinned := Stored(s.pinned, PinnedEntry(r.path, r.file.value.payload), sizes.pinned),
         flight := s.flight[id := r.(toPin := false)])
  }

  /** The insertion into the host layer, and the answer. */
  function Finished(s: Shared, id: nat, sizes: Sizes): Shared {
    if id !in s.flight || s.flight[id].file.None? || s.flight[id].result.None? || s.flight[id].toPin then s
    else
      var r := s.flight[id];
      s.(host := if r.fromHost || sizes.host == 0 then s.host
                 else Stored(s.host, HostEntry(r.path, r.file.value), sizes.host),
         flight := s.flight - {id},
         answers := s.answers + [Answer(r.path, r.digest, r.result.value, r.nonBlocking)])
  }

  function Act(s: Shared, a: Action, sizes: Sizes): Shared {
    match a
    case DoPut(path, file) => Replaced(s, path, file)
    case Begin(id, path, digest, nonBlocking) => Begun(s, id, path, digest, nonBlocking)
    case Fetch(id) => Fetched(s, id)
    case Decode(id) => DecodedIn(s, id, sizes)
    case Pin(id) => Pinned(s, id, sizes)
    case Finish(id) => Finished(s, id, sizes)
  }

  function Start(files: map<Path, Sidecar>): Shared {
    Shared(files, [], [], map[], [], set path | path in files :: Recorded(path, files[path]))
  }

  function Run(s: Shared, actions: seq<Action>, sizes: Sizes): Shared {
    if actions == [] then s else Act(Run(s, actions[..|actions| - 1], sizes), actions[|actions| - 1], sizes)
  }

  // ----- What every interleaving keeps -----

  ghost predicate ForPath(recorded: set<(Path, Digest, seq<nat>)>, path: Path, payload: seq<nat>) {
    exists d: Digest :: (path, d, payload) in recorded
  }

  ghost predicate HostOk(host: seq<Entry<Path, Sidecar>>, recorded: set<(Path, Digest, seq<nat>)>, capacity: nat) {
    Ok(host, capacity) && forall e :: e in host ==> Recorded(e.key, e.value) in recorded
  }

  ghost predicate PinnedOk(pinned: seq<Entry<Path, seq<nat>>>, recorded: set<(Path, Digest, seq<nat>)>, capacity: nat) {
    Ok(pinned, capacity) && forall e :: e in pinned ==> ForPath(recorded, e.key, e.value)
  }

  ghost predicate ReadingOk(recorded: set<(Path, Digest, seq<nat>)>, r: Reading) {
    && (r.file.Some? ==> r.file.value.digest == r.digest && Recorded(r.path, r.file.value) in recorded)
    && (r.result.Some? ==>
          && r.file.Some? && ForPath(recorded, r.path, r.result.value)
          && (!r.nonBlocking ==> r.result.value == r.file.value.payload))
  }

  /** A blocking answer was recorded under its digest, any other one at least for its path. */
  ghost predicate AnswerOk(recorded: set<(Path, Digest, seq<nat>)>, a: Answer) {
    && ForPath(recorded, a.path, a.payload)
    && (!a.nonBlocking ==> (a.path, a.digest, a.payload) in recorded)
  }

  ghost predicate FilesOk(files: map<Path, Sidecar>, recorded: set<(Path, Digest, seq<nat>)>) {
    forall path :: path in files ==> Recorded(path, files[path]) in recorded
  }

  ghost predicate FlightOk(flight: map<nat, Reading>, recorded: set<(Path, Digest, seq<nat>)>) {
    forall id :: id in flight ==> ReadingOk(recorded, flight[id])
  }

  ghost predicate AnswersOk(answers: seq<Answer>, recorded: set<(Path, Digest, seq<nat>)>) {
    forall a :: a in answers ==> AnswerOk(recorded, a)
  }

  ghost predicate Safe(s: Shared, sizes: Sizes) {
    && FilesOk(s.files, s.recorded) && HostOk(s.host, s.recorded, sizes.host)
    && PinnedOk(s.pinned, s.recorded, sizes.pinned)
    && FlightOk(s.flight, s.recorded) && AnswersOk(s.answers, s.recorded)
  }

  /** Recording more takes nothing away. */
  lemma MoreRecorded(s: Shared, sizes: Sizes, more: set<(Path, Digest, seq<nat>)>)
    requires Safe(s, sizes)
    ensures Safe(s.(recorded := s.recorded + more), sizes)
  {
    var all := s.recorded + more;
    forall path: Path, payload: seq<nat> | ForPath(s.recorded, path, payload)
      ensures ForPath(all, path, payload)
    {
      var d: Digest :| (path, d, payload) in s.recorded;
      assert (path, d, payload) in all;
    }
  }

  lemma PutIsSafe(s: Shared, path: Path, file: Sidecar, sizes: Sizes)
    requires Safe(s, sizes)
    ensures Safe(Act(s, DoPut(path, file), sizes), sizes)
  {
    MoreRecorded(s, sizes, {Recorded(path, file)});
    Dropped(s.host, path, sizes.host);
    Dropped(s.pinned, path, sizes.pinned);
  }

  lemma HostTouched(s: Shared, path: Path, sizes: Sizes)
    requires Safe(s, sizes)
    ensures HostOk(Touched(s.host, path), s.recorded, sizes.host)
  {
    var x := Lookup(s.host, path);
    if x.Some? {
      StaysOk(s.host, x.value, sizes.host);
      LayerMembers(s.host, x.value, sizes.host);
    }
  }

  lemma PinnedTouched(s: Shared, path: Path, sizes: Sizes)
    requires Safe(s, sizes)
    ensures PinnedOk(Touched(s.pinned, path), s.recorded, sizes.pinned)
  {
    var x := Lookup(s.pinned, path);
    if x.Some? {
      StaysOk(s.pinned, x.value, sizes.pinned);
      LayerMembers(s.pinned, x.value, sizes.pinned);
    }
  }

  lemma FlightGrows(flight: map<nat, Reading>, recorded: set<(Path, Digest, seq<nat>)>, id: nat, r: Reading)
    requires FlightOk(flight, recorded) && ReadingOk(recorded, r)
    ensures FlightOk(flight[id := r], recorded)
  {
  }

  lemma HeldIsRecorded(host: seq<Entry<Path, Sidecar>>, recorded: set<(Path, Digest, seq<nat>)>, capacity: nat,
                       path: Path)
    requires HostOk(host, recorded, capacity)
    ensures var x := Lookup(host, path); x.Some? ==> Recorded(path, x.value.value) in recorded
  {
  }

  lemma BeginIsSafe(s: Shared, id: nat, path: Path, digest: Digest, nonBlocking: bool, sizes: Sizes)
    requires Safe(s, sizes)
    ensures Safe(Begun(s, id, path, digest, nonBlocking), sizes)
  {
    var x := Lookup(s.host, path);
    HostTouched(s, path, sizes);
    HeldIsRecorded(s.host, s.recorded, sizes.host, path);
    FlightGrows(s.flight, s.recorded, id, Reading(path, digest, nonBlocking, None, false, None, false));
    if x.Some? && x.value.value.digest == digest {
      FlightGrows(s.flight, s.recorded, id, Reading(path, digest, nonBlocking, Some(x.value.value), true, None, false));
    }
  }

  lemma FetchIsSafe(s: Shared, id: nat, sizes: Sizes)
    requires Safe(s, sizes)
    ensures Safe(Fetched(s, id), sizes)
  {
  }

  lemma DecodeIsSafe(s: Shared, id: nat, sizes: Sizes)
    requires Safe(s, sizes)
    ensures Safe(DecodedIn(s, id, sizes), sizes)
  {
    if id in s.flight && s.flight[id].file.Some? {
      var r := s.flight[id];
      PinnedTouched(s, r.path, sizes);
      OwnIsRecorded(s.recorded, r);
    }
  }

  lemma PinIsSafe(s: Shared, id: nat, sizes: Sizes)
    requires Safe(s, sizes)
    ensures Safe(Pinned(s, id, sizes), sizes)
  {
    if id in s.flight && s.flight[id].file.Some? {
      OwnIsRecorded(s.recorded, s.flight[id]);
      PinnedStoreIsSafe(s, sizes, s.flight[id]);
    }
  }

  lemma OwnIsRecorded(recorded: set<(Path, Digest, seq<nat>)>, r: Reading)
    requires ReadingOk(recorded, r) && r.file.Some?
    ensures (r.path, r.digest, r.file.value.payload) in recorded && ForPath(recorded, r.path, r.file.value.payload)
  {
    assert Recorded(r.path, r.file.value) == (r.path, r.digest, r.file.value.payload);
  }

  lemma PinnedStoreIsSafe(s: Shared, sizes: Sizes, r: Reading)
    requires r.file.Some?
    requires PinnedOk(s.pinned, s.recorded, sizes.pinned) && ForPath(s.recorded, r.path, r.file.value.payload)
    ensures PinnedOk(Stored(s.pinned, PinnedEntry(r.path, r.file.value.payload), sizes.pinned), s.recorded, sizes.pinned)
  {
    StaysOk(s.pinned, PinnedEntry(r.path, r.file.value.payload), sizes.pinned);
    LayerMembers(s.pinned, PinnedEntry(r.path, r.file.value.payload), sizes.pinned);
  }

  lemma HostStoreIsSafe(s: Shared, sizes: Sizes, r: Reading)
    requires r.file.Some?
    requires HostOk(s.host, s.recorded, sizes.host) && Recorded(r.path, r.file.value) in s.recorded
    ensures HostOk(Stored(s.host, HostEntry(r.path, r.file.value), sizes.host), s.recorded, sizes.host)
  {
    StaysOk(s.host, HostEntry(r.path, r.file.value), sizes.host);
    LayerMembers(s.host, HostEntry(r.path, r.file.value), sizes.host);
  }

  lemma FinishIsSafe(s: Shared, id: nat, sizes: Sizes)
    requires Safe(s, sizes)
    ensures Safe(Finished(s, id, sizes), sizes)
  {
    if id in s.flight && s.flight[id].result.Some? {
      var r := s.flight[id];
      OwnIsRecorded(s.recorded, r);
      HostStoreIsSafe(s, sizes, r);
      assert AnswerOk(s.recorded, Answer(r.path, r.digest, r.result.value, r.nonBlocking));
    }
  }

  /**
   Whatever the interleaving: both layers stay within their budgets, every blocking answer is a payload
   recorded under the digest that was asked for, every other answer at least one recorded for its path.
   */
  lemma {:induction false} EveryRunIsSafe(files: map<Path, Sidecar>, actions: seq<Action>, sizes: Sizes)
    ensures Safe(Run(Start(files), actions, sizes), sizes)
  {
    if actions != [] {
      var front := actions[..|actions| - 1];
      EveryRunIsSafe(files, front, sizes);
      var s := Run(Start(files), front, sizes);
      match actions[|actions| - 1]
      case DoPut(path, file) => PutIsSafe(s, path, file, sizes);
      case Begin(id, path, digest, nonBlocking) => BeginIsSafe(s, id, path, digest, nonBlocking, sizes);
      case Fetch(id) => FetchIsSafe(s, id, sizes);
      case Decode(id) => DecodeIsSafe(s, id, sizes);
      case Pin(id) => PinIsSafe(s, id, sizes);
      case Finish(id) => FinishIsSafe(s, id, sizes);
    }
  }

  // ----- When non-blocking answers are right too -----

  /** No put on a path while a get of that path is under way. */
  predicate Quiet(s: Shared, a: Action) {
    a.DoPut? ==> forall id :: id in s.flight ==> s.flight[id].path != a.path
  }

  predicate QuietRun(s: Shared, actions: seq<Action>, sizes: Sizes) {
    actions != [] ==>
      && QuietRun(s, actions[..|actions| - 1], sizes)
      && Quiet(Run(s, actions[..|actions| - 1], sizes), actions[|actions| - 1])
  }

  ghost predicate ReadingCurrent(files: map<Path, Sidecar>, r: Reading) {
    && (r.file.Some? ==> r.path in files && r.file.value == files[r.path])
    && (r.result.Some? ==> r.file.Some? && r.result.value == r.file.value.payload)
  }

  ghost predicate FlightCurrent(files: map<Path, Sidecar>, flight: map<nat, Reading>) {
    forall id :: id in flight ==> ReadingCurrent(files, flight[id])
  }

  ghost predicate AnswersRight(answers: seq<Answer>, recorded: set<(Path, Digest, seq<nat>)>) {
    forall a :: a in answers ==> (a.path, a.digest, a.payload) in recorded
  }

  /** Layers and gets under way hold what the files hold, and all answers were right. */
  ghost predicate Current(s: Shared) {
    Agree(s.files, s.host, s.pinned) && FlightCurrent(s.files, s.flight) && AnswersRight(s.answers, s.recorded)
  }

  lemma QuietPut(s: Shared, path: Path, file: Sidecar, sizes: Sizes)
    requires Current(s) && Quiet(s, DoPut(path, file))
    ensures Current(Act(s, DoPut(path, file), sizes))
  {
  }

  lemma QuietBegin(s: Shared, id: nat, path: Path, digest: Digest, nonBlocking: bool, sizes: Sizes)
    requires Current(s)
    ensures Current(Begun(s, id, path, digest, nonBlocking))
  {
    var x := Lookup(s.host, path);
    if x.Some? {
      LayerMembers(s.host, x.value, sizes.host);
    }
  }

  lemma QuietFetch(s: Shared, id: nat)
    requires Current(s)
    ensures Current(Fetched(s, id))
  {
  }

  /** What a decode makes of a current reading. */
  lemma DecodedIsCurrent(s: Shared, r: Reading, sizes: Sizes)
    requires Current(s) && ReadingCurrent(s.files, r) && r.file.Some?
    ensures var d := Decoded(r, s.pinned, sizes.pinned);
      d.Some? ==> ReadingCurrent(s.files, r.(result := Some(d.value.0), toPin := d.value.1))
    ensures Agree(s.files, s.host, Touched(s.pinned, r.path))
  {
    var x := Lookup(s.pinned, r.path);
    if x.Some? {
      LayerMembers(s.pinned, x.value, sizes.pinned);
    }
  }

  lemma QuietDecode(s: Shared, id: nat, sizes: Sizes)
    requires Current(s)
    ensures Current(DecodedIn(s, id, sizes))
  {
    if id in s.flight && s.flight[id].file.Some? {
      assert ReadingCurrent(s.files, s.flight[id]);
      DecodedIsCurrent(s, s.flight[id], sizes);
    }
  }

  lemma InsertedIsCurrent(s: Shared, r: Reading, sizes: Sizes)
    requires Current(s) && ReadingCurrent(s.files, r) && r.file.Some?
    ensures Agree(s.files, s.host, Stored(s.pinned, PinnedEntry(r.path, r.file.value.payload), sizes.pinned))
    ensures Agree(s.files, Stored(s.host, HostEntry(r.path, r.file.value), sizes.host), s.pinned)
  {
    LayerMembers(s.pinned, PinnedEntry(r.path, r.file.value.payload), sizes.pinned);
    LayerMembers(s.host, HostEntry(r.path, r.file.value), sizes.host);
  }

  lemma QuietPin(s: Shared, id: nat, sizes: Sizes)
    requires Current(s)
    ensures Current(Pinned(s, id, sizes))
  {
    if id in s.flight && s.flight[id].file.Some? {
      assert ReadingCurrent(s.files, s.flight[id]);
      InsertedIsCurrent(s, s.flight[id], sizes);
    }
  }

  lemma QuietFinish(s: Shared, id: nat, sizes: Sizes)
    requires Current(s) && FlightOk(s.flight, s.recorded)
    ensures Current(Finished(s, id, sizes))
  {
    if id in s.flight && s.flight[id].result.Some? {
      var r := s.flight[id];
      assert ReadingCurrent(s.files, r);
      OwnIsRecorded(s.recorded, r);
      InsertedIsCurrent(s, r, sizes);
    }
  }

  lemma QuietStep(s: Shared, a: Action, sizes: Sizes)
    requires Current(s) && FlightOk(s.flight, s.recorded) && Quiet(s, a)
    ensures Current(Act(s, a, sizes))
  {
    match a
    case DoPut(path, file) => QuietPut(s, path, file, sizes);
    case Begin(id, path, digest, nonBlocking) => QuietBegin(s, id, path, digest, nonBlocking, sizes);
    case Fetch(id) => QuietFetch(s, id);
    case Decode(id) => QuietDecode(s, id, sizes);
    case Pin(id) => QuietPin(s, id, sizes);
    case Finish(id) => QuietFinish(s, id, sizes);
  }

  /** In a quiet run every answer, non-blocking or not, was recorded under the digest asked for. */
  lemma {:induction false} QuietRunsAreRight(files: map<Path, Sidecar>, actions: seq<Action>, sizes: Sizes)
    requires QuietRun(Start(files), actions, sizes)
    ensures Current(Run(Start(files), actions, sizes))
  {
    if actions != [] {
      var front := actions[..|actions| - 1];
      EveryRunIsSafe(files, front, sizes);
      QuietRunsAreRight(files, front, sizes);
      QuietStep(Run(Start(files), front, sizes), actions[|actions| - 1], sizes);
    }
  }

  // ----- And when they are not -----

  lemma RunSnoc(s: Shared, actions: seq<Action>, a: Action, sizes: Sizes)
    ensures Run(s, actions + [a], sizes) == Act(Run(s, actions, sizes), a, sizes)
  {
    assert (actions + [a])[..|actions|] == actions;
  }

  lemma RunJoin(s: Shared, a: seq<Action>, b: seq<Action>, sizes: Sizes)
    ensures Run(s, a + b, sizes) == Run(Run(s, a, sizes), b, sizes)
    decreases |b|
  {
    if b == [] {
      assert a + b == a;
    } else {
      var front, last := b[..|b| - 1], b[|b| - 1];
      assert b == front + [last] && a + b == (a + front) + [last];
      RunJoin(s, a, front, sizes);
      RunSnoc(s, a + front, last, sizes);
    }
  }

  lemma RunTwo(s: Shared, a: Action, b: Action, sizes: Sizes)
    ensures Run(s, [a, b], sizes) == Act(Act(s, a, sizes), b, sizes)
  {
    var none: seq<Action> := [];
    assert none + [a] == [a] && [a] + [b] == [a, b];
    RunSnoc(s, none, a, sizes);
    RunSnoc(s, [a], b, sizes);
  }

  const OLD_FILE := Sidecar(1, [7], true)
  const NEW_FILE := Sidecar(2, [8], true)
  const NO_HOST := Sizes(0, 8)

  /** Only the old file, only the new one after it, with these pinned sections and gets. */
  function WithOld(pinned: seq<Entry<Path, seq<nat>>>, flight: map<nat, Reading>, answers: seq<Answer>): Shared {
    Shared(map[0 := OLD_FILE], [], pinned, flight, answers, {Recorded(0, OLD_FILE)})
  }

  function WithNew(pinned: seq<Entry<Path, seq<nat>>>, flight: map<nat, Reading>, answers: seq<Answer>): Shared {
    Shared(map[0 := NEW_FILE], [], pinned, flight, answers, {Recorded(0, OLD_FILE), Recorded(0, NEW_FILE)})
  }

  const OLD_GET := Reading(0, 1, true, Some(OLD_FILE), false, None, false)
  const NEW_GET := Reading(0, 2, true, Some(NEW_FILE), false, None, false)

  /** The old file is put, and a get of it begins and reads it. */
  const READ_OLD: seq<Action> := [DoPut(0, OLD_FILE), Begin(0, 0, 1, true)] + [Fetch(0)]

  lemma OldIsRead()
    ensures Run(Start(map[]), READ_OLD, NO_HOST) == WithOld([], map[0 := OLD_GET], [])
  {
    var s0 := Start(map[]);
    RunTwo(s0, DoPut(0, OLD_FILE), Begin(0, 0, 1, true), NO_HOST);
    RunSnoc(s0, [DoPut(0, OLD_FILE), Begin(0, 0, 1, true)], Fetch(0), NO_HOST);
    var s1 := Act(s0, DoPut(0, OLD_FILE), NO_HOST);
    assert s1 == WithOld([], map[], []);
    var waiting := Reading(0, 1, true, None, false, None, false);
    assert Act(s1, Begin(0, 0, 1, true), NO_HOST) == WithOld([], map[0 := waiting], []);
    assert waiting.(file := Some(OLD_FILE)) == OLD_GET;
  }

  lemma NewIsPut(flight: map<nat, Reading>)
    ensures Act(WithOld([], flight, []), DoPut(0, NEW_FILE), NO_HOST) == WithNew([], flight, [])
  {
  }

  lemma OnlyPinned(payload: seq<nat>)
    ensures Lookup([PinnedEntry(0, payload)], 0) == Some(PinnedEntry(0, payload))
    ensures Touched([PinnedEntry(0, payload)], 0) == [PinnedEntry(0, payload)]
    ensures |payload| <= 8 ==> Stored([], PinnedEntry(0, payload), 8) == [PinnedEntry(0, payload)]
  {
    var one, none: seq<Entry<Path, seq<nat>>> := [PinnedEntry(0, payload)], [];
    assert one[..0] == none && one[|one| - 1] == PinnedEntry(0, payload);
    assert Without(one, 0) == none && Without(none, 0) == none;
    assert none + [PinnedEntry(0, payload)] == one;
  }

  // ----- Old sections under the new digest -----

  /** A put between the read and the insertion of a get. */
  const LEAVE_OLD: seq<Action> := [Decode(0), DoPut(0, NEW_FILE)] + [Pin(0), Finish(0)]

  /** Then a get of the new file. */
  const GET_NEW: seq<Action> := [Begin(1, 0, 2, true), Fetch(1)] + [Decode(1), Finish(1)]

  const STALE_RUN: seq<Action> := READ_OLD + LEAVE_OLD + GET_NEW

  lemma OldIsLeft()
    ensures Run(WithOld([], map[0 := OLD_GET], []), LEAVE_OLD, NO_HOST)
         == WithNew([PinnedEntry(0, [7])], map[], [Answer(0, 1, [7], true)])
  {
    var s := WithOld([], map[0 := OLD_GET], []);
    var decoded := OLD_GET.(result := Some([7]), toPin := true);
    assert Act(s, Decode(0), NO_HOST) == WithOld([], map[0 := decoded], []);
    NewIsPut(map[0 := decoded]);
    var s2 := WithNew([], map[0 := decoded], []);
    RunTwo(s, Decode(0), DoPut(0, NEW_FILE), NO_HOST);
    RunJoin(s, [Decode(0), DoPut(0, NEW_FILE)], [Pin(0), Finish(0)], NO_HOST);
    RunTwo(s2, Pin(0), Finish(0), NO_HOST);
    OnlyPinned([7]);
    var done := decoded.(toPin := false);
    assert Act(s2, Pin(0), NO_HOST) == WithNew([PinnedEntry(0, [7])], map[0 := done], []);
    assert map[0 := done] - {0} == map[];
  }

  lemma NewIsRead(flight: map<nat, Reading>, answers: seq<Answer>, pinned: seq<Entry<Path, seq<nat>>>)
    requires 1 !in flight
    ensures Run(WithNew(pinned, flight, answers), [Begin(1, 0, 2, true), Fetch(1)], NO_HOST)
         == WithNew(pinned, flight[1 := NEW_GET], answers)
  {
    var s := WithNew(pinned, flight, answers);
    RunTwo(s, Begin(1, 0, 2, true), Fetch(1), NO_HOST);
    var waiting := Reading(0, 2, true, None, false, None, false);
    assert Act(s, Begin(1, 0, 2, true), NO_HOST) == WithNew(pinned, flight[1 := waiting], answers);
    assert flight[1 := waiting][1 := NEW_GET] == flight[1 := NEW_GET];
  }

  /** The new digest is answered with the old payload. */
  lemma StaleSectionsAnswer()
    ensures var last := Run(Start(map[]), STALE_RUN, NO_HOST);
      && Answer(0, 2, [7], true) in last.answers
      && (0, 2, [7]) !in last.recorded
  {
    var s0, answers := Start(map[]), [Answer(0, 1, [7], true)];
    RunJoin(s0, READ_OLD, LEAVE_OLD, NO_HOST);
    RunJoin(s0, READ_OLD + LEAVE_OLD, GET_NEW, NO_HOST);
    OldIsRead();
    OldIsLeft();
    var s := WithNew([PinnedEntry(0, [7])], map[], answers);
    RunJoin(s, [Begin(1, 0, 2, true), Fetch(1)], [Decode(1), Finish(1)], NO_HOST);
    NewIsRead(map[], answers, s.pinned);
    var s2 := WithNew(s.pinned, map[1 := NEW_GET], answers);
    OnlyPinned([7]);
    RunTwo(s2, Decode(1), Finish(1), NO_HOST);
    assert Decoded(NEW_GET, s.pinned, 8) == Some(([7], false));
    assert Recorded(0, OLD_FILE) == (0, 1, [7]) && Recorded(0, NEW_FILE) == (0, 2, [8]);
    assert [7] != [8];
  }

  // ----- New sections under the old digest -----

  /** A whole get of the new file while the old one waits for its decode. */
  const PIN_NEW: seq<Action> :=
    [DoPut(0, NEW_FILE)] + [Begin(1, 0, 2, true), Fetch(1)] + [Decode(1), Pin(1)] + [Finish(1)]

  const EARLY_RUN: seq<Action> := READ_OLD + PIN_NEW + [Decode(0), Finish(0)]

  lemma DecodeAndPin(s: Shared, flight: map<nat, Reading>)
    requires s == WithNew([], flight, []) && 1 in flight && flight[1] == NEW_GET
    ensures Run(s, [Decode(1), Pin(1)], NO_HOST)
         == WithNew([PinnedEntry(0, [8])], flight[1 := NEW_GET.(result := Some([8]))], [])
  {
    var decoded := NEW_GET.(result := Some([8]), toPin := true);
    RunTwo(s, Decode(1), Pin(1), NO_HOST);
    assert Act(s, Decode(1), NO_HOST) == WithNew([], flight[1 := decoded], []);
    OnlyPinned([8]);
    assert flight[1 := decoded][1 := decoded.(toPin := false)] == flight[1 := NEW_GET.(result := Some([8]))];
  }

  lemma PutAndRead()
    ensures Run(WithOld([], map[0 := OLD_GET], []), [DoPut(0, NEW_FILE)] + [Begin(1, 0, 2, true), Fetch(1)], NO_HOST)
         == WithNew([], map[0 := OLD_GET, 1 := NEW_GET], [])
  {
    var s := WithOld([], map[0 := OLD_GET], []);
    var none: seq<Action> := [];
    assert none + [DoPut(0, NEW_FILE)] == [DoPut(0, NEW_FILE)];
    RunSnoc(s, none, DoPut(0, NEW_FILE), NO_HOST);
    NewIsPut(map[0 := OLD_GET]);
    RunJoin(s, [DoPut(0, NEW_FILE)], [Begin(1, 0, 2, true), Fetch(1)], NO_HOST);
    NewIsRead(map[0 := OLD_GET], [], []);
  }

  lemma NewIsPinned()
    ensures Run(WithOld([], map[0 := OLD_GET], []), PIN_NEW, NO_HOST)
         == WithNew([PinnedEntry(0, [8])], map[0 := OLD_GET], [Answer(0, 2, [8], true)])
  {
    var s, both := WithOld([], map[0 := OLD_GET], []), map[0 := OLD_GET, 1 := NEW_GET];
    var start := [DoPut(0, NEW_FILE)] + [Begin(1, 0, 2, true), Fetch(1)];
    PutAndRead();
    RunJoin(s, start, [Decode(1), Pin(1)], NO_HOST);
    DecodeAndPin(WithNew([], both, []), both);
    RunSnoc(s, start + [Decode(1), Pin(1)], Finish(1), NO_HOST);
    assert both[1 := NEW_GET.(result := Some([8]))] - {1} == map[0 := OLD_GET];
  }

  /** The old digest is answered with the new payload. */
  lemma EarlySectionsAnswer()
    ensures var last := Run(Start(map[]), EARLY_RUN, NO_HOST);
      && Answer(0, 1, [8], true) in last.answers
      && (0, 1, [8]) !in last.recorded
  {
    var s0 := Start(map[]);
    RunJoin(s0, READ_OLD, PIN_NEW, NO_HOST);
    RunJoin(s0, READ_OLD + PIN_NEW, [Decode(0), Finish(0)], NO_HOST);
    OldIsRead();
    NewIsPinned();
    var s := WithNew([PinnedEntry(0, [8])], map[0 := OLD_GET], [Answer(0, 2, [8], true)]);
    OnlyPinned([8]);
    RunTwo(s, Decode(0), Finish(0), NO_HOST);
    assert Decoded(OLD_GET, s.pinned, 8) == Some(([8], false));
    assert Recorded(0, OLD_FILE) == (0, 1, [7]) && Recorded(0, NEW_FILE) == (0, 2, [8]);
    assert [7] != [8];
  }

  // ----- A stale host entry -----

  const HOST_ONLY := Sizes(8, 0)

  /** A put between the read and the insertion of a get, which then fills the host layer. */
  const HIDING_RUN: seq<Action> :=
    [DoPut(0, OLD_FILE), Begin(0, 0, 1, false)] + [Fetch(0), DoPut(0, NEW_FILE)] + [Decode(0), Finish(0)]

  lemma OldIsKept()
    ensures var s := Run(Start(map[]), HIDING_RUN, HOST_ONLY);
      s.files == map[0 := NEW_FILE] && s.host == [HostEntry(0, OLD_FILE)] && s.flight == map[]
  {
    var s0 := Start(map[]);
    var waiting := Reading(0, 1, false, None, false, None, false);
    var reading := waiting.(file := Some(OLD_FILE));
    RunTwo(s0, DoPut(0, OLD_FILE), Begin(0, 0, 1, false), HOST_ONLY);
    var s2 := WithOld([], map[0 := waiting], []);
    assert Act(s0, DoPut(0, OLD_FILE), HOST_ONLY) == WithOld([], map[], []);
    assert Act(WithOld([], map[], []), Begin(0, 0, 1, false), HOST_ONLY) == s2;
    RunJoin(s0, [DoPut(0, OLD_FILE), Begin(0, 0, 1, false)], [Fetch(0), DoPut(0, NEW_FILE)], HOST_ONLY);
    RunTwo(s2, Fetch(0), DoPut(0, NEW_FILE), HOST_ONLY);
    assert Act(s2, Fetch(0), HOST_ONLY) == WithOld([], map[0 := reading], []);
    var s4 := WithNew([], map[0 := reading], []);
    assert Act(WithOld([], map[0 := reading], []), DoPut(0, NEW_FILE), HOST_ONLY) == s4;
    RunJoin(s0, [DoPut(0, OLD_FILE), Begin(0, 0, 1, false)] + [Fetch(0), DoPut(0, NEW_FILE)], [Decode(0), Finish(0)],
            HOST_ONLY);
    RunTwo(s4, Decode(0), Finish(0), HOST_ONLY);
    var done := reading.(result := Some([7]));
    assert Act(s4, Decode(0), HOST_ONLY) == WithNew([], map[0 := done], []);
    assert Stored([], HostEntry(0, OLD_FILE), 8) == [HostEntry(0, OLD_FILE)];
    assert map[0 := done] - {0} == map[];
  }

  /** The old file hides the new one: no get of the digest on disk can start, and nothing changes. */
  lemma StaleHostHides(id: nat, nonBlocking: bool)
    ensures var s := Run(Start(map[]), HIDING_RUN, HOST_ONLY);
      && s.files == map[0 := NEW_FILE] && s.host == [HostEntry(0, OLD_FILE)]
      && Act(s, Begin(id, 0, NEW_FILE.digest, nonBlocking), HOST_ONLY) == s
  {
    OldIsKept();
    var one, none: seq<Entry<Path, Sidecar>> := [HostEntry(0, OLD_FILE)], [];
    assert one[..0] == none && one[|one| - 1] == HostEntry(0, OLD_FILE);
    assert Lookup(one, 0) == Some(HostEntry(0, OLD_FILE)) && Without(one, 0) == none;
    assert Touched(one, 0) == none + one == one;
  }
}
