/**
 Where the contents of the packed cache come from. Every entry, every get under way and every answer is
 dated: the time at which its file was read from disk. That decides, for every run, which entries are
 stale, which digests can still be read, and which answers are right.
 */
module PackedHistory {
  import opened Wrappers
  import opened Lru
  import opened PackedCache
  import opened PackedInterleaving

  /** The files as they were before each action and after the last. */
  type History = seq<map<Path, Sidecar>>

  /** An entry of a layer: when the get that inserted it read its file, and when it inserted it. */
  datatype Mark = Mark(read: nat, stored: nat)

  /** A get: when the file it works on was read, and when the file was read whose payload it decoded. */
  datatype Dates = Dates(own: nat, used: nat)

  datatype Times = Times(reading: map<nat, Dates>, host: map<Path, Mark>, pinned: map<Path, Mark>, answers: seq<Dates>)

  function Disk(files: map<Path, Sidecar>, a: Action): map<Path, Sidecar> {
    if a.DoPut? then files[a.path := a.file] else files
  }

  function HistoryOf(files: map<Path, Sidecar>, actions: seq<Action>): (h: History)
    ensures |h| == |actions| + 1
  {
    if actions == [] then [files]
    else
      var before := HistoryOf(files, actions[..|actions| - 1]);
      before + [Disk(before[|before| - 1], actions[|actions| - 1])]
  }

  /** A get that finds its file in the host layer works on a file as old as the entry. */
  function BegunAt(t: Times, s: Shared, id: nat, path: Path, digest: Digest): Times {
    match Lookup(s.host, path)
    case None => t
    case Some(x) =>
      if id in s.flight || x.value.digest != digest || path !in t.host then t
      else t.(reading := t.reading[id := Dates(t.host[path].read, t.host[path].read)])
  }

  /** One that has to read it does so now. */
  function FetchedAt(t: Times, s: Shared, id: nat, now: nat): Times {
    if id !in s.flight || s.flight[id].file.Some? then t else t.(reading := t.reading[id := Dates(now, now)])
  }

  /** A decode that finds pinned sections uses a file as old as they are. */
  function DecodedAt(t: Times, s: Shared, id: nat): Times {
    if id !in s.flight || id !in t.reading || s.flight[id].file.None? || s.flight[id].result.Some? then t
    else
      var r := s.flight[id];
      if r.nonBlocking && Lookup(s.pinned, r.path).Some? && r.path in t.pinned then
        t.(reading := t.reading[id := t.reading[id].(used := t.pinned[r.path].read)])
      else t
  }

  function PinnedAt(t: Times, s: Shared, id: nat, now: nat, sizes: Sizes): Times {
    if id !in s.flight || id !in t.reading || s.flight[id].file.None? || !s.flight[id].toPin
       || |s.flight[id].file.value.payload| > sizes.pinned
    then t
    else t.(pinned := t.pinned[s.flight[id].path := Mark(t.reading[id].own, now + 1)])
  }

  predicate StoresHost(r: Reading, sizes: Sizes) {
    r.file.Some? && !r.fromHost && sizes.host != 0 && |r.file.value.payload| <= sizes.host
  }

  function FinishedAt(t: Times, s: Shared, id: nat, now: nat, sizes: Sizes): Times {
    if id !in s.flight || id !in t.reading || s.flight[id].file.None? || s.flight[id].result.None? || s.flight[id].toPin
    then t
    else
      var r, dates := s.flight[id], t.reading[id];
      t.(host := if StoresHost(r, sizes) then t.host[r.path := Mark(dates.own, now + 1)] else t.host,
         answers := t.answers + [dates])
  }

  function Dated(t: Times, s: Shared, a: Action, now: nat, sizes: Sizes): Times {
    match a
    case DoPut(_, _) => t
    case Begin(id, path, digest, _) => BegunAt(t, s, id, path, digest)
    case Fetch(id) => FetchedAt(t, s, id, now)
    case Decode(id) => DecodedAt(t, s, id)
    case Pin(id) => PinnedAt(t, s, id, now, sizes)
    case Finish(id) => FinishedAt(t, s, id, now, sizes)
  }

  function TimesOf(files: map<Path, Sidecar>, actions: seq<Action>, sizes: Sizes): Times {
    if actions == [] then Times(map[], map[], map[], [])
    else
      var front := actions[..|actions| - 1];
      Dated(TimesOf(files, front, sizes), Run(Start(files), front, sizes), actions[|actions| - 1], |front|, sizes)
  }

  // ----- What the dates mean, in every run -----

  ghost predicate At(h: History, time: nat, path: Path, file: Sidecar) {
    time < |h| && path in h[time] && h[time][path] == file
  }

  /** Nothing was put on the path since then. */
  ghost predicate Steady(h: History, path: Path, since: nat) {
    && since < |h| && path in h[since]
    && forall time :: since <= time < |h| ==> path in h[time] && h[time][path] == h[since][path]
  }

  ghost predicate MarkOk(h: History, path: Path, m: Mark) {
    m.read < m.stored && Steady(h, path, m.stored) && path in h[m.read]
  }

  ghost predicate HostDated(h: History, host: seq<Entry<Path, Sidecar>>, marks: map<Path, Mark>) {
    forall e :: e in host ==>
      e.key in marks && MarkOk(h, e.key, marks[e.key]) && At(h, marks[e.key].read, e.key, e.value)
  }

  ghost predicate PinnedDated(h: History, pinned: seq<Entry<Path, seq<nat>>>, marks: map<Path, Mark>) {
    forall e :: e in pinned ==>
      e.key in marks && MarkOk(h, e.key, marks[e.key]) && h[marks[e.key].read][e.key].payload == e.value
  }

  ghost predicate ReadingDated(h: History, r: Reading, d: Dates) {
    && r.file.Some? && At(h, d.own, r.path, r.file.value) && r.file.value.digest == r.digest
    && d.used < |h| && r.path in h[d.used] && r.path in h[|h| - 1]
    && (r.result.None? || !r.nonBlocking ==> d.used == d.own)
    && (r.result.Some? ==> r.result.value == h[d.used][r.path].payload)
  }

  ghost predicate FlightDated(h: History, flight: map<nat, Reading>, dates: map<nat, Dates>) {
    forall id :: id in flight ==>
      if flight[id].file.Some? then id in dates && ReadingDated(h, flight[id], dates[id]) else flight[id].result.None?
  }

  /** An answer: the digest of the file its get read, the payload of the file whose sections it decoded. */
  ghost predicate AnswerDated(h: History, a: Answer, d: Dates) {
    && d.own < |h| && a.path in h[d.own] && h[d.own][a.path].digest == a.digest
    && d.used < |h| && a.path in h[d.used] && h[d.used][a.path].payload == a.payload
    && (!a.nonBlocking ==> d.used == d.own)
  }

  ghost predicate AnswersDated(h: History, answers: seq<Answer>, dates: seq<Dates>) {
    |dates| == |answers| && forall i :: 0 <= i < |answers| ==> AnswerDated(h, answers[i], dates[i])
  }

  ghost predicate Traced(h: History, s: Shared, t: Times) {
    && h != [] && s.files == h[|h| - 1]
    && HostDated(h, s.host, t.host) && PinnedDated(h, s.pinned, t.pinned)
    && FlightDated(h, s.flight, t.reading) && AnswersDated(h, s.answers, t.answers)
  }

  /** Time goes on and no file changes. */
  lemma LaterIsTraced(h: History, s: Shared, t: Times)
    requires Traced(h, s, t)
    ensures Traced(h + [s.files], s, t)
  {
    var later := h + [s.files];
    forall path: Path, since: nat | Steady(h, path, since)
      ensures Steady(later, path, since)
    {
      assert h[|h| - 1][path] == h[since][path];
    }
  }

  lemma PutIsTraced(h: History, s: Shared, t: Times, path: Path, file: Sidecar, sizes: Sizes)
    requires Traced(h, s, t)
    ensures Traced(h + [s.files[path := file]], Act(s, DoPut(path, file), sizes), t)
  {
    var files := s.files[path := file];
    var later := h + [files];
    forall other: Path, since: nat | other != path && Steady(h, other, since)
      ensures Steady(later, other, since)
    {
      assert h[|h| - 1][other] == h[since][other];
    }
  }

  lemma BeginIsTraced(h: History, s: Shared, t: Times, a: Action, sizes: Sizes)
    requires Traced(h, s, t) && a.Begin?
    ensures Traced(h + [s.files], Act(s, a, sizes), BegunAt(t, s, a.id, a.path, a.digest))
  {
    LaterIsTraced(h, s, t);
    var x := Lookup(s.host, a.path);
    if x.Some? {
      LayerMembers(s.host, x.value, sizes.host);
    }
  }

  lemma FetchIsTraced(h: History, s: Shared, t: Times, id: nat, sizes: Sizes)
    requires Traced(h, s, t)
    ensures Traced(h + [s.files], Fetched(s, id), FetchedAt(t, s, id, |h| - 1))
  {
    LaterIsTraced(h, s, t);
  }

  lemma DecodeIsTraced(h: History, s: Shared, t: Times, id: nat, sizes: Sizes)
    requires Traced(h, s, t)
    ensures Traced(h + [s.files], DecodedIn(s, id, sizes), DecodedAt(t, s, id))
  {
    LaterIsTraced(h, s, t);
    if id in s.flight && s.flight[id].file.Some? {
      var x := Lookup(s.pinned, s.flight[id].path);
      if x.Some? {
        LayerMembers(s.pinned, x.value, sizes.pinned);
      }
    }
  }

  lemma HostStoreIsTraced(h: History, s: Shared, t: Times, path: Path, file: Sidecar, m: Mark, sizes: Sizes)
    requires HostDated(h, s.host, t.host) && MarkOk(h, path, m) && At(h, m.read, path, file)
    ensures HostDated(h, Stored(s.host, HostEntry(path, file), sizes.host),
                      if |file.payload| <= sizes.host then t.host[path := m] else t.host)
  {
    LayerMembers(s.host, HostEntry(path, file), sizes.host);
    if |file.payload| <= sizes.host {
      OthersStay(s.host, HostEntry(path, file), sizes.host);
    }
  }

  lemma PinnedStoreIsTraced(h: History, s: Shared, t: Times, path: Path, file: Sidecar, m: Mark, sizes: Sizes)
    requires PinnedDated(h, s.pinned, t.pinned) && MarkOk(h, path, m) && At(h, m.read, path, file)
    ensures PinnedDated(h, Stored(s.pinned, PinnedEntry(path, file.payload), sizes.pinned),
                        if |file.payload| <= sizes.pinned then t.pinned[path := m] else t.pinned)
  {
    LayerMembers(s.pinned, PinnedEntry(path, file.payload), sizes.pinned);
    if |file.payload| <= sizes.pinned {
      OthersStay(s.pinned, PinnedEntry(path, file.payload), sizes.pinned);
    }
  }

  /** What is left of the path after storing it is the entry stored. */
  lemma OthersStay<V(!new)>(e: seq<Entry<Path, V>>, x: Entry<Path, V>, capacity: nat)
    requires x.size <= capacity
    ensures forall y :: y in Stored(e, x, capacity) && y.key == x.key ==> y == x
  {
    EvictedMembers(Without(e, x.key), x.size, capacity);
  }

  /** The insertion happens now. */
  lemma JustStored(h: History, r: Reading, d: Dates, m: Mark)
    requires h != [] && ReadingDated(h, r, d) && m == Mark(d.own, |h|)
    ensures MarkOk(h + [h[|h| - 1]], r.path, m) && At(h + [h[|h| - 1]], m.read, r.path, r.file.value)
  {
  }

  lemma PinIsTraced(h: History, s: Shared, t: Times, id: nat, sizes: Sizes)
    requires Traced(h, s, t)
    ensures Traced(h + [s.files], Pinned(s, id, sizes), PinnedAt(t, s, id, |h| - 1, sizes))
  {
    LaterIsTraced(h, s, t);
    if id in s.flight && s.flight[id].file.Some? && s.flight[id].toPin {
      var r, d := s.flight[id], t.reading[id];
      JustStored(h, r, d, Mark(d.own, |h|));
      PinnedStoreIsTraced(h + [s.files], s, t, r.path, r.file.value, Mark(d.own, |h|), sizes);
    }
  }

  lemma FinishIsTraced(h: History, s: Shared, t: Times, id: nat, sizes: Sizes)
    requires Traced(h, s, t)
    ensures Traced(h + [s.files], Finished(s, id, sizes), FinishedAt(t, s, id, |h| - 1, sizes))
  {
    LaterIsTraced(h, s, t);
    if id in s.flight && s.flight[id].result.Some? {
      var r, d, later := s.flight[id], t.reading[id], h + [s.files];
      JustStored(h, r, d, Mark(d.own, |h|));
      HostStoreIsTraced(later, s, t, r.path, r.file.value, Mark(d.own, |h|), sizes);
      assert AnswerDated(later, Answer(r.path, r.digest, r.result.value, r.nonBlocking), d);
    }
  }

  lemma StepIsTraced(h: History, s: Shared, t: Times, a: Action, sizes: Sizes)
    requires Traced(h, s, t)
    ensures Traced(h + [Disk(s.files, a)], Act(s, a, sizes), Dated(t, s, a, |h| - 1, sizes))
  {
    match a
    case DoPut(path, file) => PutIsTraced(h, s, t, path, file, sizes);
    case Begin(id, path, digest, nonBlocking) => BeginIsTraced(h, s, t, a, sizes);
    case Fetch(id) => FetchIsTraced(h, s, t, id, sizes);
    case Decode(id) => DecodeIsTraced(h, s, t, id, sizes);
    case Pin(id) => PinIsTraced(h, s, t, id, sizes);
    case Finish(id) => FinishIsTraced(h, s, t, id, sizes);
  }

  /**
   In every run: a host entry is the file that was on disk when the get that inserted it read it, and no
   put came since the insertion; the same for pinned payloads; every answer carries the digest of the
   file that its get read and the payload of the file whose sections it decoded.
   */
  lemma {:induction false} EveryRunIsTraced(files: map<Path, Sidecar>, actions: seq<Action>, sizes: Sizes)
    ensures Traced(HistoryOf(files, actions), Run(Start(files), actions, sizes), TimesOf(files, actions, sizes))
  {
    if actions != [] {
      var front := actions[..|actions| - 1];
      EveryRunIsTraced(files, front, sizes);
      StepIsTraced(HistoryOf(files, front), Run(Start(files), front, sizes), TimesOf(files, front, sizes),
                   actions[|actions| - 1], sizes);
    }
  }

  // ----- The dates are actions of the run -----

  /** The get of that number was begun for the path. */
  ghost predicate Asked(actions: seq<Action>, id: nat, path: Path, before: nat) {
    exists b :: 0 <= b < before <= |actions| && actions[b].Begin? && actions[b].id == id && actions[b].path == path
  }

  /** At that time a get of the path reads its file. */
  ghost predicate Reads(actions: seq<Action>, time: nat, path: Path) {
    time < |actions| && actions[time].Fetch? && Asked(actions, actions[time].id, path, time)
  }

  ghost predicate Inserts(actions: seq<Action>, m: Mark, path: Path) {
    && Reads(actions, m.read, path) && m.read < m.stored <= |actions|
    && (actions[m.stored - 1].Pin? || actions[m.stored - 1].Finish?)
  }

  ghost predicate MarksAnchored(actions: seq<Action>, marks: map<Path, Mark>) {
    forall path :: path in marks ==> Inserts(actions, marks[path], path)
  }

  ghost predicate DatesAnchored(actions: seq<Action>, d: Dates, path: Path) {
    Reads(actions, d.own, path) && Reads(actions, d.used, path)
  }

  ghost predicate FlightAnchored(actions: seq<Action>, flight: map<nat, Reading>, reading: map<nat, Dates>) {
    forall id :: id in flight ==>
      && Asked(actions, id, flight[id].path, |actions|)
      && (flight[id].file.Some? && id in reading ==> DatesAnchored(actions, reading[id], flight[id].path))
  }

  ghost predicate Anchored(actions: seq<Action>, s: Shared, t: Times) {
    && MarksAnchored(actions, t.host) && MarksAnchored(actions, t.pinned)
    && FlightAnchored(actions, s.flight, t.reading)
    && |t.answers| <= |s.answers|
    && forall i :: 0 <= i < |t.answers| ==> DatesAnchored(actions, t.answers[i], s.answers[i].path)
  }

  lemma LaterAsked(actions: seq<Action>, a: Action, id: nat, path: Path, before: nat)
    requires Asked(actions, id, path, before)
    ensures Asked(actions + [a], id, path, before) && Asked(actions + [a], id, path, |actions| + 1)
  {
    var b :| 0 <= b < before <= |actions| && actions[b].Begin? && actions[b].id == id && actions[b].path == path;
    assert (actions + [a])[b] == actions[b];
  }

  lemma LaterReads(actions: seq<Action>, a: Action, time: nat, path: Path)
    requires Reads(actions, time, path)
    ensures Reads(actions + [a], time, path)
  {
    LaterAsked(actions, a, actions[time].id, path, time);
  }

  lemma LaterIsAnchored(actions: seq<Action>, a: Action, s: Shared, t: Times)
    requires Anchored(actions, s, t)
    ensures Anchored(actions + [a], s, t)
  {
    forall time, path | Reads(actions, time, path)
      ensures Reads(actions + [a], time, path)
    {
      LaterReads(actions, a, time, path);
    }
    forall id, path | Asked(actions, id, path, |actions|)
      ensures Asked(actions + [a], id, path, |actions| + 1)
    {
      LaterAsked(actions, a, id, path, |actions|);
    }
  }

  lemma BeginIsAnchored(actions: seq<Action>, s: Shared, t: Times, a: Action, sizes: Sizes)
    requires Anchored(actions, s, t) && a.Begin? && HostKnown(s, t)
    ensures Anchored(actions + [a], Act(s, a, sizes), BegunAt(t, s, a.id, a.path, a.digest))
  {
    LaterIsAnchored(actions, a, s, t);
    assert (actions + [a])[|actions|] == a;
    assert Asked(actions + [a], a.id, a.path, |actions| + 1);
  }

  lemma FetchIsAnchored(actions: seq<Action>, s: Shared, t: Times, id: nat, sizes: Sizes)
    requires Anchored(actions, s, t)
    ensures Anchored(actions + [Fetch(id)], Fetched(s, id), FetchedAt(t, s, id, |actions|))
  {
    LaterIsAnchored(actions, Fetch(id), s, t);
    if id in s.flight {
      LaterAsked(actions, Fetch(id), id, s.flight[id].path, |actions|);
      assert (actions + [Fetch(id)])[|actions|] == Fetch(id);
      assert Reads(actions + [Fetch(id)], |actions|, s.flight[id].path);
    }
  }

  lemma DecodeIsAnchored(actions: seq<Action>, s: Shared, t: Times, id: nat, sizes: Sizes)
    requires Anchored(actions, s, t)
    ensures Anchored(actions + [Decode(id)], DecodedIn(s, id, sizes), DecodedAt(t, s, id))
  {
    LaterIsAnchored(actions, Decode(id), s, t);
  }

  lemma PinIsAnchored(actions: seq<Action>, s: Shared, t: Times, id: nat, sizes: Sizes)
    requires Anchored(actions, s, t)
    ensures Anchored(actions + [Pin(id)], Pinned(s, id, sizes), PinnedAt(t, s, id, |actions|, sizes))
  {
    LaterIsAnchored(actions, Pin(id), s, t);
  }

  lemma FinishIsAnchored(actions: seq<Action>, s: Shared, t: Times, id: nat, sizes: Sizes)
    requires Anchored(actions, s, t) && FlightKnown(s, t) && |t.answers| == |s.answers|
    ensures Anchored(actions + [Finish(id)], Finished(s, id, sizes), FinishedAt(t, s, id, |actions|, sizes))
  {
    LaterIsAnchored(actions, Finish(id), s, t);
  }

  ghost predicate FlightKnown(s: Shared, t: Times) {
    forall id :: id in s.flight && s.flight[id].file.Some? ==> id in t.reading
  }

  ghost predicate HostKnown(s: Shared, t: Times) {
    forall e :: e in s.host ==> e.key in t.host
  }

  lemma StepIsAnchored(actions: seq<Action>, s: Shared, t: Times, a: Action, sizes: Sizes)
    requires Anchored(actions, s, t) && FlightKnown(s, t) && HostKnown(s, t) && |t.answers| == |s.answers|
    ensures Anchored(actions + [a], Act(s, a, sizes), Dated(t, s, a, |actions|, sizes))
  {
    match a
    case DoPut(path, file) => LaterIsAnchored(actions, a, s, t);
    case Begin(id, path, digest, nonBlocking) => BeginIsAnchored(actions, s, t, a, sizes);
    case Fetch(id) => FetchIsAnchored(actions, s, t, id, sizes);
    case Decode(id) => DecodeIsAnchored(actions, s, t, id, sizes);
    case Pin(id) => PinIsAnchored(actions, s, t, id, sizes);
    case Finish(id) => FinishIsAnchored(actions, s, t, id, sizes);
  }

  lemma TracedKnows(h: History, s: Shared, t: Times)
    requires Traced(h, s, t)
    ensures FlightKnown(s, t) && HostKnown(s, t) && |t.answers| == |s.answers|
  {
  }

  /** Files are read by gets begun for their path, entries inserted by their pins and finishes. */
  lemma {:induction false} EveryRunIsAnchored(files: map<Path, Sidecar>, actions: seq<Action>, sizes: Sizes)
    ensures Anchored(actions, Run(Start(files), actions, sizes), TimesOf(files, actions, sizes))
  {
    if actions != [] {
      var front, a := actions[..|actions| - 1], actions[|actions| - 1];
      EveryRunIsAnchored(files, front, sizes);
      var s, t := Run(Start(files), front, sizes), TimesOf(files, front, sizes);
      assert FlightKnown(s, t) && HostKnown(s, t) && |t.answers| == |s.answers| by {
        EveryRunIsTraced(files, front, sizes);
        TracedKnows(HistoryOf(files, front), s, t);
      }
      StepIsAnchored(front, s, t, a, sizes);
      assert actions == front + [a];
    }
  }

  // ----- What happened between two times -----

  /** The last put on the path at or after `low` and before `high`, and it changed what matters about the file. */
  ghost predicate LastPut(actions: seq<Action>, path: Path, k: nat, high: nat) {
    && k < high <= |actions| && actions[k].DoPut? && actions[k].path == path
    && forall j :: k < j < high ==> !(actions[j].DoPut? && actions[j].path == path)
  }

  /** Between the two times somebody put a file with another payload, and it stayed. */
  ghost predicate PayloadReplaced(actions: seq<Action>, path: Path, payload: seq<nat>, low: nat, high: nat) {
    exists k :: low <= k && LastPut(actions, path, k, high) && actions[k].file.payload != payload
  }

  ghost predicate FileReplaced(actions: seq<Action>, path: Path, file: Sidecar, low: nat, high: nat) {
    exists k :: low <= k && LastPut(actions, path, k, high) && actions[k].file != file
  }

  ghost predicate DigestReplaced(actions: seq<Action>, path: Path, digest: Digest, low: nat, high: nat) {
    exists k :: low <= k && LastPut(actions, path, k, high) && actions[k].file.digest != digest
  }

  lemma {:induction false} HistoryPrefix(files: map<Path, Sidecar>, actions: seq<Action>, time: nat)
    requires time < |actions|
    ensures HistoryOf(files, actions)[time + 1] == Disk(HistoryOf(files, actions)[time], actions[time])
  {
    if time < |actions| - 1 {
      var front := actions[..|actions| - 1];
      HistoryPrefix(files, front, time);
      assert HistoryOf(files, actions)[..|actions|] == HistoryOf(files, front);
    }
  }

  /** The file at a later time: the one the last put in between left, or the one from before. */
  lemma {:induction false} FileLater(files: map<Path, Sidecar>, actions: seq<Action>, path: Path, low: nat, high: nat)
      returns (last: Option<nat>)
    requires low <= high <= |actions| && path in HistoryOf(files, actions)[low]
    ensures var h := HistoryOf(files, actions);
      && path in h[high]
      && (last.Some? ==>
            low <= last.value && LastPut(actions, path, last.value, high) && h[high][path] == actions[last.value].file)
      && (last.None? ==> h[high][path] == h[low][path] && forall k :: low <= k ==> !LastPut(actions, path, k, high))
    decreases high
  {
    if low == high {
      last := None;
    } else {
      HistoryPrefix(files, actions, high - 1);
      var a := actions[high - 1];
      if a.DoPut? && a.path == path {
        last := Some(high - 1);
      } else {
        last := FileLater(files, actions, path, low, high - 1);
        if last.None? {
          forall k | low <= k
            ensures !LastPut(actions, path, k, high)
          {
            assert !LastPut(actions, path, k, high - 1);
          }
        }
      }
    }
  }

  /** Replaced means different, when the earlier file had that payload. */
  lemma ReplacedExactly(files: map<Path, Sidecar>, actions: seq<Action>, path: Path, low: nat, high: nat)
    requires low <= high <= |actions| && path in HistoryOf(files, actions)[low]
    ensures var h := HistoryOf(files, actions);
      && path in h[high]
      && (h[high][path] != h[low][path] <==> FileReplaced(actions, path, h[low][path], low, high))
      && (h[high][path].payload != h[low][path].payload <==>
            PayloadReplaced(actions, path, h[low][path].payload, low, high))
      && (h[high][path].digest != h[low][path].digest <==>
            DigestReplaced(actions, path, h[low][path].digest, low, high))
  {
    var last := FileLater(files, actions, path, low, high);
    if last.Some? {
      assert forall k :: low <= k && LastPut(actions, path, k, high) ==> k == last.value;
    }
  }

  // ----- Which entries are stale -----

  /**
   A host entry differs from the file exactly when a put replaced the file between the read and the
   insertion of the get that brought it.
   */
  lemma HostStaleExactly(files: map<Path, Sidecar>, actions: seq<Action>, sizes: Sizes, e: Entry<Path, Sidecar>)
    requires e in Run(Start(files), actions, sizes).host
    ensures var s, marks := Run(Start(files), actions, sizes), TimesOf(files, actions, sizes).host;
      && e.key in s.files && e.key in marks && Inserts(actions, marks[e.key], e.key)
      && (e.value != s.files[e.key] <==>
            FileReplaced(actions, e.key, e.value, marks[e.key].read, marks[e.key].stored))
  {
    EveryRunIsTraced(files, actions, sizes);
    EveryRunIsAnchored(files, actions, sizes);
    var m := TimesOf(files, actions, sizes).host[e.key];
    ReplacedExactly(files, actions, e.key, m.read, m.stored);
    assert HistoryOf(files, actions)[|actions|][e.key] == HistoryOf(files, actions)[m.stored][e.key];
  }

  /** The same for pinned payloads. */
  lemma PinnedStaleExactly(files: map<Path, Sidecar>, actions: seq<Action>, sizes: Sizes, e: Entry<Path, seq<nat>>)
    requires e in Run(Start(files), actions, sizes).pinned
    ensures var s, marks := Run(Start(files), actions, sizes), TimesOf(files, actions, sizes).pinned;
      && e.key in s.files && e.key in marks && Inserts(actions, marks[e.key], e.key)
      && (e.value != s.files[e.key].payload <==>
            PayloadReplaced(actions, e.key, e.value, marks[e.key].read, marks[e.key].stored))
  {
    EveryRunIsTraced(files, actions, sizes);
    EveryRunIsAnchored(files, actions, sizes);
    var m := TimesOf(files, actions, sizes).pinned[e.key];
    ReplacedExactly(files, actions, e.key, m.read, m.stored);
    assert HistoryOf(files, actions)[|actions|][e.key] == HistoryOf(files, actions)[m.stored][e.key];
  }

  /**
   A get of the digest that is on disk passes the host lookup exactly when there is no entry of the path,
   or one whose digest no put replaced between the read and the insertion of the get that brought it.
   */
  lemma CurrentDigestStarts(files: map<Path, Sidecar>, actions: seq<Action>, sizes: Sizes, id: nat, path: Path,
                            nonBlocking: bool)
    requires var s := Run(Start(files), actions, sizes); path in s.files && id !in s.flight
    ensures var s, marks := Run(Start(files), actions, sizes), TimesOf(files, actions, sizes).host;
            var host := Lookup(s.host, path);
      id in Act(s, Begin(id, path, s.files[path].digest, nonBlocking), sizes).flight <==>
        (host.Some? ==>
           path in marks && !DigestReplaced(actions, path, host.value.value.digest, marks[path].read, marks[path].stored))
  {
    EveryRunIsTraced(files, actions, sizes);
    var s := Run(Start(files), actions, sizes);
    var host := Lookup(s.host, path);
    if host.Some? {
      var m := TimesOf(files, actions, sizes).host[path];
      ReplacedExactly(files, actions, path, m.read, m.stored);
      assert HistoryOf(files, actions)[|actions|][path] == HistoryOf(files, actions)[m.stored][path];
    }
  }

  // ----- Which answers are right -----

  /** The payload of the file that the get read, which was the one on disk under the digest asked for. */
  ghost predicate AnswerRight(h: History, a: Answer, own: nat) {
    own < |h| && a.path in h[own] && h[own][a.path].digest == a.digest && h[own][a.path].payload == a.payload
  }

  /**
   In every run an answer is right exactly when no put replaced the payload between the time its file was
   read and the time the file was read whose sections it decoded. For a blocking get they are the same.
   */
  lemma AnswersExactly(files: map<Path, Sidecar>, actions: seq<Action>, sizes: Sizes, i: nat)
    requires i < |Run(Start(files), actions, sizes).answers|
    ensures var h, dates := HistoryOf(files, actions), TimesOf(files, actions, sizes).answers;
            var a := Run(Start(files), actions, sizes).answers[i];
      && i < |dates| && DatesAnchored(actions, dates[i], a.path)
      && var low, high := Min(dates[i].own, dates[i].used), Max(dates[i].own, dates[i].used);
      && a.path in h[low]
      && (AnswerRight(h, a, dates[i].own) <==> !PayloadReplaced(actions, a.path, h[low][a.path].payload, low, high))
      && (!a.nonBlocking ==> low == high)
  {
    EveryRunIsTraced(files, actions, sizes);
    EveryRunIsAnchored(files, actions, sizes);
    var a, d := Run(Start(files), actions, sizes).answers[i], TimesOf(files, actions, sizes).answers[i];
    assert AnswerDated(HistoryOf(files, actions), a, d);
    ReplacedExactly(files, actions, a.path, Min(d.own, d.used), Max(d.own, d.used));
  }

  function Min(a: nat, b: nat): nat {
    if a <= b then a else b
  }

  function Max(a: nat, b: nat): nat {
    if a <= b then b else a
  }
}
