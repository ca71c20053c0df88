/**
 The plan of an expert-major block: the assignments of all tokens grouped by expert, experts in the
 order of their first use, and the expert outputs put back where each token's router slot wants them.
 */
module ExpertPlan {
  import opened Wrappers

  datatype Slot = Slot(expert: nat, contribution: real)

  /** Where an expert output goes: a token and one of its router slots. */
  datatype Assignment = Assignment(token: nat, slot: nat)

  datatype Group = Group(expert: nat, assignments: seq<Assignment>)

  datatype Plan = Plan(groups: seq<Group>, count: nat)

  /** No expert twice, and at least one. */
  predicate GoodRoute(route: seq<Slot>) {
    route != [] && forall i, j :: 0 <= i < j < |route| ==> route[i].expert != route[j].expert
  }

  predicate GoodRoutes(routes: seq<seq<Slot>>) {
    routes != [] && forall t :: 0 <= t < |routes| ==> GoodRoute(routes[t])
  }

  // ----- Grouping -----

  /** Every group holds assignments of its expert, and no two groups share an expert. */
  ghost predicate Grouped(groups: seq<Group>, routes: seq<seq<Slot>>) {
    && (forall g, h :: 0 <= g < h < |groups| ==> groups[g].expert != groups[h].expert)
    && (forall g :: 0 <= g < |groups| ==> Belongs(groups[g], routes) && groups[g].assignments != [])
  }

  ghost predicate Fits(a: Assignment, expert: nat, routes: seq<seq<Slot>>) {
    IsSlot(routes, a) && routes[a.token][a.slot].expert == expert
  }

  ghost predicate Before(a: Assignment, b: Assignment) {
    a.token < b.token || (a.token == b.token && a.slot < b.slot)
  }

  ghost predicate Belongs(g: Group, routes: seq<seq<Slot>>) {
    && (forall i :: 0 <= i < |g.assignments| ==> Fits(g.assignments[i], g.expert, routes))
    && (forall i, j :: 0 <= i < j < |g.assignments| ==> Before(g.assignments[i], g.assignments[j]))
  }

  /** Some group holds the assignment. */
  ghost predicate Held(groups: seq<Group>, a: Assignment) {
    exists g :: 0 <= g < |groups| && a in groups[g].assignments
  }

  ghost predicate AllBefore(groups: seq<Group>, a: Assignment) {
    forall g, i :: 0 <= g < |groups| && 0 <= i < |groups[g].assignments| ==> Before(groups[g].assignments[i], a)
  }

  ghost predicate IsSlot(routes: seq<seq<Slot>>, a: Assignment) {
    a.token < |routes| && a.slot < |routes[a.token]|
  }

  /** What comes before an assignment is held. */
  ghost predicate HeldUpTo(groups: seq<Group>, routes: seq<seq<Slot>>, next: Assignment) {
    forall a :: IsSlot(routes, a) && Before(a, next) ==> Held(groups, a)
  }

  function Size(groups: seq<Group>): nat {
    if groups == [] then 0 else Size(groups[..|groups| - 1]) + |groups[|groups| - 1].assignments|
  }

  /** How many slots the routes have together. */
  function SlotsOf(routes: seq<seq<Slot>>): nat {
    if routes == [] then 0 else SlotsOf(routes[..|routes| - 1]) + |routes[|routes| - 1]|
  }

  /** The index of the expert's group, by the table that finds it. */
  ghost predicate Indexed(groups: seq<Group>, index: map<nat, nat>) {
    && (forall e :: e in index ==> index[e] < |groups| && groups[index[e]].expert == e)
    && (forall g :: 0 <= g < |groups| ==> groups[g].expert in index)
  }

  /** One assignment more, in its expert's group or in a new one. */
  function Added(groups: seq<Group>, index: map<nat, nat>, expert: nat, a: Assignment): (r: (seq<Group>, map<nat, nat>))
    requires expert in index ==> index[expert] < |groups|
  {
    if expert in index then
      var g := groups[index[expert]];
      (groups[index[expert] := g.(assignments := g.assignments + [a])], index)
    else (groups + [Group(expert, [a])], index[expert := |groups|])
  }

  lemma {:induction false} SizeOfUpdate(groups: seq<Group>, k: nat, g: Group)
    requires k < |groups|
    ensures Size(groups[k := g]) == Size(groups) - |groups[k].assignments| + |g.assignments|
  {
    var front, changed := groups[..|groups| - 1], groups[k := g];
    if k == |groups| - 1 {
      assert changed[..|changed| - 1] == front;
    } else {
      SizeOfUpdate(front, k, g);
      assert changed[..|changed| - 1] == front[k := g];
    }
  }

  lemma SizeOfSnoc(groups: seq<Group>, g: Group)
    ensures Size(groups + [g]) == Size(groups) + |g.assignments|
  {
    assert (groups + [g])[..|groups|] == groups;
  }

  lemma AddedCounts(groups: seq<Group>, index: map<nat, nat>, expert: nat, a: Assignment)
    requires Indexed(groups, index)
    ensures var (more, table) := Added(groups, index, expert, a);
      Indexed(more, table) && Size(more) == Size(groups) + 1
  {
    if expert in index {
      var g := groups[index[expert]];
      SizeOfUpdate(groups, index[expert], g.(assignments := g.assignments + [a]));
    } else {
      SizeOfSnoc(groups, Group(expert, [a]));
    }
  }

  lemma AddedHolds(groups: seq<Group>, index: map<nat, nat>, expert: nat, a: Assignment, b: Assignment)
    requires Indexed(groups, index)
    ensures Held(Added(groups, index, expert, a).0, b) <==> b == a || Held(groups, b)
  {
    var more := Added(groups, index, expert, a).0;
    var k := if expert in index then index[expert] else |groups|;
    assert a in more[k].assignments;
    assert forall g :: 0 <= g < |groups| && b in groups[g].assignments ==> b in more[g].assignments;
    assert forall g :: 0 <= g < |more| && b in more[g].assignments && b != a ==>
        g < |groups| && b in groups[g].assignments;
  }

  lemma LongerGroup(g: Group, routes: seq<seq<Slot>>, a: Assignment)
    requires Belongs(g, routes) && Fits(a, g.expert, routes)
    requires forall i :: 0 <= i < |g.assignments| ==> Before(g.assignments[i], a)
    ensures Belongs(g.(assignments := g.assignments + [a]), routes)
  {
  }

  lemma AddedIsGrouped(groups: seq<Group>, index: map<nat, nat>, routes: seq<seq<Slot>>, expert: nat, a: Assignment)
    requires Indexed(groups, index) && Grouped(groups, routes) && AllBefore(groups, a) && Fits(a, expert, routes)
    ensures Grouped(Added(groups, index, expert, a).0, routes)
  {
    if expert in index {
      LongerGroup(groups[index[expert]], routes, a);
    } else {
      LongerGroup(Group(expert, []), routes, a);
      assert [] + [a] == [a];
    }
  }

  lemma AddedIsBefore(groups: seq<Group>, index: map<nat, nat>, expert: nat, a: Assignment, b: Assignment)
    requires Indexed(groups, index) && AllBefore(groups, a) && Before(a, b)
    ensures AllBefore(Added(groups, index, expert, a).0, b)
  {
  }

  /** A plan in the making. */
  datatype Draft = Draft(groups: seq<Group>, index: map<nat, nat>, count: nat)

  /** The draft when an assignment is next. */
  ghost predicate Planned(d: Draft, routes: seq<seq<Slot>>, next: Assignment) {
    && Indexed(d.groups, d.index) && Grouped(d.groups, routes) && d.count == Size(d.groups)
    && AllBefore(d.groups, next) && HeldUpTo(d.groups, routes, next)
    && next.token <= |routes| && d.count == SlotsOf(routes[..next.token]) + next.slot
  }

  function Next(d: Draft, expert: nat, a: Assignment): Draft
    requires expert in d.index ==> d.index[expert] < |d.groups|
  {
    var (groups, index) := Added(d.groups, d.index, expert, a);
    Draft(groups, index, d.count + 1)
  }

  lemma NextIsHeld(d: Draft, routes: seq<seq<Slot>>, expert: nat, a: Assignment, next: Assignment)
    requires Indexed(d.groups, d.index) && HeldUpTo(d.groups, routes, a)
    requires next.token == a.token && next.slot == a.slot + 1
    ensures HeldUpTo(Added(d.groups, d.index, expert, a).0, routes, next)
  {
    forall b | IsSlot(routes, b) && Before(b, next)
      ensures Held(Added(d.groups, d.index, expert, a).0, b)
    {
      AddedHolds(d.groups, d.index, expert, a, b);
    }
  }

  lemma NextSlot(d: Draft, routes: seq<seq<Slot>>, a: Assignment, next: Assignment)
    requires Planned(d, routes, a) && IsSlot(routes, a) && next == Assignment(a.token, a.slot + 1)
    ensures Planned(Next(d, routes[a.token][a.slot].expert, a), routes, next)
  {
    var expert := routes[a.token][a.slot].expert;
    AddedCounts(d.groups, d.index, expert, a);
    AddedIsGrouped(d.groups, d.index, routes, expert, a);
    AddedIsBefore(d.groups, d.index, expert, a, next);
    NextIsHeld(d, routes, expert, a, next);
  }

  lemma NextToken(d: Draft, routes: seq<seq<Slot>>, a: Assignment, next: Assignment)
    requires a.token < |routes| && a.slot == |routes[a.token]| && next == Assignment(a.token + 1, 0)
    requires Planned(d, routes, a)
    ensures Planned(d, routes, next)
  {
    assert routes[..next.token][..a.token] == routes[..a.token];
    forall b | IsSlot(routes, b) && Before(b, next)
      ensures Held(d.groups, b)
    {
      assert Before(b, a);
    }
  }

  /** What a plan promises: the assignments of each expert in order, every slot of every token in one of them. */
  ghost predicate PlanOf(p: Plan, routes: seq<seq<Slot>>) {
    && Grouped(p.groups, routes) && p.count == Size(p.groups) == SlotsOf(routes)
    && forall a :: IsSlot(routes, a) ==> Held(p.groups, a)
  }

  lemma PlanIsComplete(d: Draft, routes: seq<seq<Slot>>, end: Assignment)
    requires Planned(d, routes, end) && end == Assignment(|routes|, 0)
    ensures PlanOf(Plan(d.groups, d.count), routes)
  {
    assert routes[..|routes|] == routes;
    forall a | IsSlot(routes, a)
      ensures Held(d.groups, a)
    {
      assert Before(a, end);
    }
  }

  /** The experts of the first slots, all different. */
  ghost predicate NewSoFar(route: seq<Slot>, slot: nat, seen: set<nat>)
    requires slot <= |route|
  {
    && (forall e :: e in seen <==> exists i :: 0 <= i < slot && route[i].expert == e)
    && forall i, j :: 0 <= i < j < slot ==> route[i].expert != route[j].expert
  }

  lemma OneMoreSeen(route: seq<Slot>, slot: nat, seen: set<nat>)
    requires slot < |route| && NewSoFar(route, slot, seen)
    ensures route[slot].expert in seen <==> exists i :: 0 <= i < slot && route[i].expert == route[slot].expert
    ensures route[slot].expert !in seen ==> NewSoFar(route, slot + 1, seen + {route[slot].expert})
  {
  }

  /** The slots of one token; an expert that comes twice stops it. */
  method PlanToken(d: Draft, routes: seq<seq<Slot>>, token: nat) returns (r: Result<Draft>)
    requires token < |routes| && routes[token] != [] && Planned(d, routes, Assignment(token, 0))
    ensures r.Success? <==> GoodRoute(routes[token])
    ensures r.Success? ==> Planned(r.value, routes, Assignment(token + 1, 0))
  {
    var route, draft, seen: set<nat> := routes[token], d, {};
    ghost var at := Assignment(token, 0);
    for slot := 0 to |route|
      invariant at == Assignment(token, slot) && Planned(draft, routes, at)
      invariant NewSoFar(route, slot, seen)
    {
      var expert := route[slot].expert;
      OneMoreSeen(route, slot, seen);
      if expert in seen {
        return Failure("invalid_state");
      }
      seen := seen + {expert};
      ghost var next := Assignment(token, slot + 1);
      NextSlot(draft, routes, at, next);
      draft := Next(draft, expert, Assignment(token, slot));
      at := next;
    }
    NextToken(draft, routes, at, Assignment(token + 1, 0));
    return Success(draft);
  }

  lemma NothingPlanned(routes: seq<seq<Slot>>)
    ensures Planned(Draft([], map[], 0), routes, Assignment(0, 0))
  {
  }

  /** The routes of the first tokens. */
  ghost predicate GoodSoFar(routes: seq<seq<Slot>>, token: nat) {
    forall t :: 0 <= t < token && t < |routes| ==> GoodRoute(routes[t])
  }

  /** One token more of the plan, or its refusal. */
  method PlanNext(d: Draft, routes: seq<seq<Slot>>, token: nat, ghost at: Assignment, ghost next: Assignment)
      returns (r: Result<Draft>)
    requires token < |routes| && at == Assignment(token, 0) && next == Assignment(token + 1, 0)
    requires Planned(d, routes, at) && GoodSoFar(routes, token)
    ensures r.Success? ==> Planned(r.value, routes, next) && GoodSoFar(routes, token + 1)
    ensures r.Failure? ==> !GoodRoutes(routes)
  {
    if routes[token] == [] {
      return Failure("invalid_extent");
    }
    r := PlanToken(d, routes, token);
  }

  /** `build_expert_major_plan`. */
  method BuildPlan(routes: seq<seq<Slot>>) returns (r: Result<Plan>)
    ensures r.Success? <==> GoodRoutes(routes)
    ensures r.Success? ==> PlanOf(r.value, routes)
  {
    if routes == [] {
      return Failure("invalid_extent");
    }
    NothingPlanned(routes);
    var draft := Draft([], map[], 0);
    ghost var at := Assignment(0, 0);
    for token := 0 to |routes|
      invariant at == Assignment(token, 0) && Planned(draft, routes, at) && GoodSoFar(routes, token)
    {
      ghost var next := Assignment(token + 1, 0);
      draft :- PlanNext(draft, routes, token, at, next);
      at := next;
    }
    PlanIsComplete(draft, routes, at);
    return Success(Plan(draft.groups, draft.count));
  }

  /** Every expert of the plan is loaded once, and has at least one assignment. */
  lemma {:induction false} LoadsBelowAssignments(groups: seq<Group>)
    requires forall g :: 0 <= g < |groups| ==> groups[g].assignments != []
    ensures |groups| <= Size(groups)
  {
    if groups != [] {
      LoadsBelowAssignments(groups[..|groups| - 1]);
    }
  }

  function RouteExperts(route: seq<Slot>): set<nat> {
    if route == [] then {} else RouteExperts(route[..|route| - 1]) + {route[|route| - 1].expert}
  }

  /** The experts that any token uses. */
  function ExpertSet(routes: seq<seq<Slot>>): set<nat> {
    if routes == [] then {} else ExpertSet(routes[..|routes| - 1]) + RouteExperts(routes[|routes| - 1])
  }

  lemma {:induction false} RouteMembers(route: seq<Slot>, e: nat)
    ensures e in RouteExperts(route) <==> exists s :: 0 <= s < |route| && route[s].expert == e
  {
    if route != [] {
      RouteMembers(route[..|route| - 1], e);
    }
  }

  lemma {:induction false} SetMembers(routes: seq<seq<Slot>>, e: nat)
    ensures e in ExpertSet(routes) <==> exists a :: Fits(a, e, routes)
  {
    if routes != [] {
      var front, last := routes[..|routes| - 1], routes[|routes| - 1];
      SetMembers(front, e);
      RouteMembers(last, e);
      assert forall a :: Fits(a, e, routes) && a.token < |front| ==> Fits(a, e, front);
      if e in ExpertSet(front) {
        var a :| Fits(a, e, front);
        assert Fits(a, e, routes);
      } else if e in RouteExperts(last) {
        var s :| 0 <= s < |last| && last[s].expert == e;
        assert Fits(Assignment(|front|, s), e, routes);
      }
    }
  }

  function GroupExperts(groups: seq<Group>): set<nat> {
    if groups == [] then {} else GroupExperts(groups[..|groups| - 1]) + {groups[|groups| - 1].expert}
  }

  lemma {:induction false} GroupsByExpert(groups: seq<Group>)
    ensures forall e :: e in GroupExperts(groups) <==> exists g :: 0 <= g < |groups| && groups[g].expert == e
    ensures (forall g, h :: 0 <= g < h < |groups| ==> groups[g].expert != groups[h].expert) ==>
      |GroupExperts(groups)| == |groups|
  {
    if groups != [] {
      GroupsByExpert(groups[..|groups| - 1]);
    }
  }

  /** A plan has one group, and so one load, for every expert that is used. */
  lemma GroupsAreExperts(p: Plan, routes: seq<seq<Slot>>)
    requires PlanOf(p, routes)
    ensures |p.groups| == |ExpertSet(routes)|
  {
    GroupsByExpert(p.groups);
    forall e: nat
      ensures e in ExpertSet(routes) <==> e in GroupExperts(p.groups)
    {
      SetMembers(routes, e);
      if e in ExpertSet(routes) {
        var a :| Fits(a, e, routes);
        assert Held(p.groups, a);
        var g :| 0 <= g < |p.groups| && a in p.groups[g].assignments;
        assert Belongs(p.groups[g], routes);
      }
      if e in GroupExperts(p.groups) {
        var g :| 0 <= g < |p.groups| && p.groups[g].expert == e;
        assert Belongs(p.groups[g], routes) && Fits(p.groups[g].assignments[0], e, routes);
      }
    }
    assert GroupExperts(p.groups) == ExpertSet(routes);
  }

  lemma {:induction false} RouteCount(route: seq<Slot>)
    ensures |RouteExperts(route)| <= |route|
  {
    if route != [] {
      RouteCount(route[..|route| - 1]);
    }
  }

  function Times(n: nat, most: nat): nat {
    if n == 0 then 0 else Times(n - 1, most) + most
  }

  /** No more experts than slots, and no more slots than the tokens have together. */
  lemma {:induction false} ExpertsBelowSlots(routes: seq<seq<Slot>>, most: nat)
    requires forall t :: 0 <= t < |routes| ==> |routes[t]| <= most
    ensures |ExpertSet(routes)| <= SlotsOf(routes) <= Times(|routes|, most)
  {
    if routes != [] {
      var front, last := routes[..|routes| - 1], routes[|routes| - 1];
      ExpertsBelowSlots(front, most);
      RouteCount(last);
      UnionCount(ExpertSet(front), RouteExperts(last));
    }
  }

  lemma UnionCount(a: set<nat>, b: set<nat>)
    ensures |a + b| <= |a| + |b|
  {
    assert a + b == a + (b - a) && b == (b - a) + (a * b);
  }

  // ----- The outputs -----

  /** What the router slots of the tokens want: their expert's output for their token. */
  function Wanted<V>(routes: seq<seq<Slot>>, inputs: seq<V>, expert: (nat, V) -> V): (outputs: seq<seq<V>>)
    requires |inputs| == |routes|
    ensures |outputs| == |routes|
    ensures forall t :: 0 <= t < |routes| ==> outputs[t] == WantedBy(routes[t], inputs[t], expert)
  {
    seq(|routes|, t requires 0 <= t < |routes| => WantedBy(routes[t], inputs[t], expert))
  }

  function WantedBy<V>(route: seq<Slot>, input: V, expert: (nat, V) -> V): (outputs: seq<V>)
    ensures |outputs| == |route| && forall s :: 0 <= s < |route| ==> outputs[s] == expert(route[s].expert, input)
  {
    seq(|route|, s requires 0 <= s < |route| => expert(route[s].expert, input))
  }

  ghost predicate Shaped<V>(outputs: seq<seq<V>>, routes: seq<seq<Slot>>) {
    |outputs| == |routes| && forall t :: 0 <= t < |routes| ==> |outputs[t]| == |routes[t]|
  }

  ghost predicate Right<V>(outputs: seq<seq<V>>, routes: seq<seq<Slot>>, inputs: seq<V>, expert: (nat, V) -> V, a: Assignment)
    requires Shaped(outputs, routes) && |inputs| == |routes|
  {
    IsSlot(routes, a) ==> outputs[a.token][a.slot] == expert(routes[a.token][a.slot].expert, inputs[a.token])
  }

  ghost predicate AllRight<V>(outputs: seq<seq<V>>, routes: seq<seq<Slot>>, inputs: seq<V>, expert: (nat, V) -> V,
                              done: seq<Assignment>)
    requires Shaped(outputs, routes) && |inputs| == |routes|
  {
    forall a :: a in done ==> Right(outputs, routes, inputs, expert, a)
  }

  function Put<V>(outputs: seq<seq<V>>, a: Assignment, v: V): seq<seq<V>>
    requires a.token < |outputs| && a.slot < |outputs[a.token]|
  {
    outputs[a.token := outputs[a.token][a.slot := v]]
  }

  /** Writing a right value spoils no other. */
  lemma PutIsRight<V>(outputs: seq<seq<V>>, routes: seq<seq<Slot>>, inputs: seq<V>, expert: (nat, V) -> V,
                      done: seq<Assignment>, a: Assignment, id: nat)
    requires Shaped(outputs, routes) && |inputs| == |routes| && Fits(a, id, routes)
    requires AllRight(outputs, routes, inputs, expert, done)
    ensures var after := Put(outputs, a, expert(id, inputs[a.token]));
      Shaped(after, routes) && AllRight(after, routes, inputs, expert, done + [a])
  {
    var after := Put(outputs, a, expert(id, inputs[a.token]));
    forall b | b in done + [a]
      ensures Right(after, routes, inputs, expert, b)
    {
      assert b == a || Right(outputs, routes, inputs, expert, b);
    }
  }

  /** One expert over its assignments. */
  method RunGroup<V>(group: Group, routes: seq<seq<Slot>>, inputs: seq<V>, expert: (nat, V) -> V, before: seq<seq<V>>,
                     ghost done: seq<Assignment>)
      returns (outputs: seq<seq<V>>)
    requires |inputs| == |routes| && Belongs(group, routes)
    requires Shaped(before, routes) && AllRight(before, routes, inputs, expert, done)
    ensures Shaped(outputs, routes) && AllRight(outputs, routes, inputs, expert, done + group.assignments)
  {
    outputs := before;
    assert done + group.assignments[..0] == done;
    for i := 0 to |group.assignments|
      invariant Shaped(outputs, routes)
      invariant AllRight(outputs, routes, inputs, expert, done + group.assignments[..i])
    {
      var a := group.assignments[i];
      PutIsRight(outputs, routes, inputs, expert, done + group.assignments[..i], a, group.expert);
      assert done + group.assignments[..i + 1] == done + group.assignments[..i] + [a];
      outputs := Put(outputs, a, expert(group.expert, inputs[a.token]));
    }
    assert group.assignments[..|group.assignments|] == group.assignments;
  }

  function Assignments(groups: seq<Group>): seq<Assignment> {
    if groups == [] then [] else Assignments(groups[..|groups| - 1]) + groups[|groups| - 1].assignments
  }

  lemma {:induction false} HeldIsListed(groups: seq<Group>, a: Assignment)
    requires Held(groups, a)
    ensures a in Assignments(groups)
  {
    var g :| 0 <= g < |groups| && a in groups[g].assignments;
    if g < |groups| - 1 {
      assert a in groups[..|groups| - 1][g].assignments;
      HeldIsListed(groups[..|groups| - 1], a);
    }
  }

  lemma AllWanted<V>(outputs: seq<seq<V>>, p: Plan, routes: seq<seq<Slot>>, inputs: seq<V>, expert: (nat, V) -> V)
    requires |inputs| == |routes| && PlanOf(p, routes)
    requires Shaped(outputs, routes) && AllRight(outputs, routes, inputs, expert, Assignments(p.groups))
    ensures outputs == Wanted(routes, inputs, expert)
  {
    forall t | 0 <= t < |routes|
      ensures outputs[t] == WantedBy(routes[t], inputs[t], expert)
    {
      forall s | 0 <= s < |routes[t]|
        ensures outputs[t][s] == expert(routes[t][s].expert, inputs[t])
      {
        var a := Assignment(t, s);
        assert IsSlot(routes, a);
        HeldIsListed(p.groups, a);
        assert Right(outputs, routes, inputs, expert, a);
      }
    }
  }

  /** Expert by expert, each over all its assignments: every slot of every token gets its output. */
  method RunPlan<V>(p: Plan, routes: seq<seq<Slot>>, inputs: seq<V>, expert: (nat, V) -> V, blank: V)
      returns (outputs: seq<seq<V>>)
    requires |inputs| == |routes| && PlanOf(p, routes)
    ensures outputs == Wanted(routes, inputs, expert)
  {
    outputs := seq(|routes|, t requires 0 <= t < |routes| => seq(|routes[t]|, s => blank));
    for g := 0 to |p.groups|
      invariant Shaped(outputs, routes)
      invariant AllRight(outputs, routes, inputs, expert, Assignments(p.groups[..g]))
    {
      outputs := RunGroup(p.groups[g], routes, inputs, expert, outputs, Assignments(p.groups[..g]));
      assert p.groups[..g + 1][..g] == p.groups[..g];
    }
    assert p.groups[..|p.groups|] == p.groups;
    AllWanted(outputs, p, routes, inputs, expert);
  }
}
