/**
 The analysis loop: phases, findings, and reachability refreshed on demand,
 computed in place and proved against the simulation it stands for.
 */
module ExplorerRun {
  import opened Sequences
  import opened Orders
  import opened Model
  import opened Steps
  import opened Diff
  import opened Authority
  import opened Simulation
  import opened Analysis
  import opened Explorer
  import opened OptionPlans
  import PlanOrder
  import opened PlanAuthority

  // ---- Pure parts computed by loops ----

  method GroupPhases(changes: seq<Change>) returns (groups: seq<(Phase, seq<Change>)>)
    ensures groups == GroupedPhases(changes)
  {
    groups := [];
    for i := 0 to |changes|
      invariant groups == GroupedPhases(changes[..i])
    {
      assert changes[..i + 1][..i] == changes[..i];
      var last := |groups| - 1;
      if groups != [] && groups[last].0 == PhaseFor(changes[i]) {
        groups := groups[..last] + [(groups[last].0, groups[last].1 + [changes[i]])];
      } else {
        groups := groups + [(PhaseFor(changes[i]), [changes[i]])];
      }
    }
    assert changes[..|changes|] == changes;
  }

  method AdminOptionOf(x: Context, usageReach: map<string, Status>, admin: EdgeFacts, role: string)
    returns (best: Status)
    ensures best == AdminOption(x, usageReach, admin, role)
  {
    var edges := SortPairs(set p | p in admin && p.0 == role);
    assert edges == Sorted(AdminEdges(admin, role), PairLe);
    best := Unseen(x);
    ghost var f := AdminFn(x, usageReach, admin);
    for i := 0 to |edges|
      invariant best == Fold(AdminStep, Unseen(x), FlatMap(edges[..i], f))
    {
      assert edges[i] in edges;
      var edge := (Seen(x, usageReach, edges[i].1), admin[edges[i]]);
      FlatMapSnoc(edges, i, f);
      assert f(edges[i]) == [edge];
      FoldPush(AdminStep, Unseen(x), FlatMap(edges[..i], f), edge);
      best := AdminStep(best, edge);
    }
    assert edges[..|edges|] == edges;
  }

  method MembershipAuthorityOf(x: Context, usageReach: map<string, Status>, admin: EdgeFacts, createrole: Capability,
                               role: string)
    returns (status: Status)
    ensures status == MembershipAuthority(x, usageReach, admin, createrole, role)
  {
    status := AdminOptionOf(x, usageReach, admin, role);
    if x.version < 16 {
      if createrole.Allowed? {
        status := Reachable;
      } else if createrole.Unknown? && !status.Reachable? {
        status := Unproven;
      }
    }
  }

  method RequiredRoleFindings(x: Context, w: World, setReach: map<string, Status>, usageReach: map<string, Status>,
                              phase: Phase, index: nat, change: Change) returns (found: seq<Finding>)
    ensures found == RoleFindings(x, w, setReach, usageReach, phase, index, change)
  {
    found := [];
    var required := RequiredRole(change);
    if !w.attributes.superuser && required.Some? {
      var role := required.value.0;
      var status := Seen(x, if required.value.1 then setReach else usageReach, role);
      found := Shortfall(status, phase, index, role);
    }
  }

  method RequiredMembershipFindings(x: Context, w: World, usageReach: map<string, Status>,
                                    phase: Phase, index: nat, change: Change) returns (found: seq<Finding>)
    ensures found == MembershipFindings(x, w, usageReach, phase, index, change)
  {
    found := [];
    if !w.attributes.superuser && ChangesMembership(change) {
      if change.role in w.graph.roles && w.graph.roles[change.role].superuser {
        found := [Finding(SuperuserRequired, Error, phase, Some(index), Some(change.role), [])];
      } else if !(change.RemoveMember? && change.grantor.Some?) {
        var status := MembershipAuthorityOf(x, usageReach, w.facts.admin, w.attributes.createrole, change.role);
        found := Shortfall(status, phase, index, change.role);
      }
    }
  }

  method CompareRole(x: Context, phase: Phase, before: map<string, Status>, after: map<string, Status>,
                     dropped: set<string>, role: string)
    returns (found: seq<Finding>)
    ensures found == CompareFn(x, phase, before, after, dropped)(role)
  {
    found := [];
    if !(role in dropped && role !in after) {
      var verdict := Compared(Seen(x, before, role), Seen(x, after, role));
      if verdict.Some? {
        found := [Finding(verdict.value.0, verdict.value.1, phase, None, Some(role), [])];
      }
    }
  }

  method CompareStatuses(x: Context, phase: Phase, before: map<string, Status>, after: map<string, Status>,
                         dropped: set<string>)
    returns (found: seq<Finding>)
    ensures found == CompareReachability(x, phase, before, after, dropped)
  {
    found := [];
    var roles := SortStrings(before.Keys + after.Keys);
    ghost var f := CompareFn(x, phase, before, after, dropped);
    for i := 0 to |roles|
      invariant found == FlatMap(roles[..i], f)
    {
      FlatMapSnoc(roles, i, f);
      var more := CompareRole(x, phase, before, after, dropped, roles[i]);
      found := found + more;
    }
    assert roles[..|roles|] == roles;
  }

  // ---- The analysis ----

  lemma StepAssembled(x: Context, recompute: Recompute, phase: Phase, s: Sim, change: Change, t: Sim)
    requires t.world == WorldStep(x)(s.world, change)
    requires t.log == LogChange(x, s.world, s.setReach, s.usageReach, phase, s.index, change, s.log)
    requires t.index == s.index + 1 && t.phases == s.phases
    requires if Recomputes(recompute, change)
      then t.setReach == SetReach(x, t.world) && t.usageReach == UsageReach(x, t.world)
        && t.computations == s.computations + 2
      else t.setReach == s.setReach && t.usageReach == s.usageReach && t.computations == s.computations
    ensures t == SimStep(x, recompute, phase, s, change)
  {
  }

  class Analyzer {
    const sim: Simulator
    const recompute: Recompute
    var setReach: map<string, Status>
    var usageReach: map<string, Status>
    var phases: seq<PhaseAnalysis>
    var log: Log
    var index: nat
    var computations: nat

    ghost function Snapshot(): Sim
      reads this, sim
    {
      Sim(sim.State(), setReach, usageReach, phases, log, index, computations)
    }

    constructor (x: Context, w: World, recompute: Recompute)
      ensures fresh(sim) && sim.context == x && this.recompute == recompute
      ensures Snapshot() == StartSim(x, w)
    {
      sim := new Simulator(x, w);
      this.recompute := recompute;
      phases, log, index := [], Log([], map[]), 0;
      setReach, usageReach, computations := map[], map[], 0;
      new;
      Refresh();
    }

    method Refresh()
      modifies this`setReach, this`usageReach, this`computations
      ensures setReach == SetReach(sim.context, sim.State()) && usageReach == UsageReach(sim.context, sim.State())
      ensures computations == old(computations) + 2
    {
      var x, g := sim.context, sim.graph;
      setReach := ComputeReachability(g.roles.Keys, sim.setRole, x.executor.role, sim.attributes.superuser,
          x.graphComplete);
      usageReach := ComputeReachability(g.roles.Keys, sim.usage, x.executor.role, sim.attributes.superuser,
          x.graphComplete);
      computations := computations + 2;
    }

    /** Report what the change needs, in the state before it. */
    method Report(phase: Phase, change: Change)
      modifies this`log
      ensures log == LogChange(sim.context, sim.State(), setReach, usageReach, phase, index, change, old(log))
    {
      var w := World(sim.graph, Facts(sim.setRole, sim.usage, sim.admin), sim.attributes);
      var roles := RequiredRoleFindings(sim.context, w, setReach, usageReach, phase, index, change);
      var memberships := RequiredMembershipFindings(sim.context, w, usageReach, phase, index, change);
      log := log.(findings := log.findings + roles + memberships + OwnershipFindings(phase, index, change));
      log := LogPreflight(log, phase, index, change);
    }

    method Visit(phase: Phase, change: Change)
      modifies this, sim
      ensures Snapshot() == SimStep(sim.context, recompute, phase, old(Snapshot()), change)
    {
      ghost var s := Snapshot();
      Report(phase, change);
      Follow(change);
      index := index + 1;
      StepAssembled(sim.context, recompute, phase, s, change, Snapshot());
    }

    /** Apply the change, and refresh the reachability tables when asked to. */
    method Follow(change: Change)
      modifies this`setReach, this`usageReach, this`computations, sim
      ensures sim.State() == WorldStep(sim.context)(old(sim.State()), change)
      ensures if Recomputes(recompute, change)
        then setReach == SetReach(sim.context, sim.State()) && usageReach == UsageReach(sim.context, sim.State())
          && computations == old(computations) + 2
        else unchanged(this)
    {
      sim.Advance(change);
      if Recomputes(recompute, change) {
        Refresh();
      }
    }

    method VisitAll(phase: Phase, changes: seq<Change>)
      modifies this, sim
      ensures Snapshot() == SimChanges(sim.context, recompute, phase, old(Snapshot()), changes)
    {
      ghost var start := Snapshot();
      for i := 0 to |changes|
        invariant Snapshot() == SimChanges(sim.context, recompute, phase, start, changes[..i])
      {
        SimChangesNext(sim.context, recompute, phase, start, changes, i);
        Visit(phase, changes[i]);
      }
      assert changes[..|changes|] == changes;
    }

    method VisitPhase(group: (Phase, seq<Change>))
      modifies this, sim
      ensures Snapshot() == SimPhase(sim.context, recompute, old(Snapshot()), group)
    {
      var before := usageReach;
      VisitAll(group.0, group.1);
      var found := CompareStatuses(sim.context, group.0, before, usageReach, DroppedNames(group.1));
      log := log.(findings := log.findings + found);
      phases := phases + [PhaseAnalysis(group.0, group.1, setReach, usageReach)];
    }

    method VisitPhases(groups: seq<(Phase, seq<Change>)>)
      modifies this, sim
      ensures Snapshot() == SimGroups(sim.context, recompute, old(Snapshot()), groups)
    {
      ghost var start := Snapshot();
      for i := 0 to |groups|
        invariant Snapshot() == SimGroups(sim.context, recompute, start, groups[..i])
      {
        SimGroupsNext(sim.context, recompute, start, groups, i);
        VisitPhase(groups[i]);
      }
      assert groups[..|groups|] == groups;
    }
  }

  /** The analysis of a plan: its phases, its findings, and how often reachability was computed. */
  method SimulatePlan(x: Context, w: World, changes: seq<Change>, recompute: Recompute)
    returns (phases: seq<PhaseAnalysis>, findings: seq<Finding>, computations: nat)
    ensures var s := Simulate(x, recompute, w, changes);
      phases == s.phases && findings == s.log.findings && computations == s.computations
  {
    var analyzer := new Analyzer(x, w, recompute);
    var groups := GroupPhases(changes);
    analyzer.VisitPhases(groups);
    return analyzer.phases, analyzer.log.findings, analyzer.computations;
  }

  // ---- Initial facts ----

  /** The edges of `edges` marked by whether they satisfy `marks`. */
  ghost function Marked(edges: set<MembershipEdge>, marks: Pair -> bool): EdgeFacts {
    map p | p in Pairs(edges) :: CapabilityOf(marks(p))
  }

  ghost function InheritsBy(edges: set<MembershipEdge>): Pair -> bool {
    p => exists e :: e in edges && (e.role, e.member) == p && e.inherit
  }

  ghost function AdministersBy(edges: set<MembershipEdge>): Pair -> bool {
    p => exists e :: e in edges && (e.role, e.member) == p && e.admin
  }

  function InspectedSet(g: RoleGraph, version: nat, p: Pair): Capability {
    if g.CompleteOptions(p).Some? then CapabilityOf(AnySet(g.edgeOptions[p])) else SetRoleDefault(version)
  }

  ghost function InspectedSets(g: RoleGraph, version: nat, edges: set<MembershipEdge>): EdgeFacts {
    map p | p in Pairs(edges) :: InspectedSet(g, version, p)
  }

  /** Facts a snapshot proves about the given edges. */
  ghost function SnapshotFacts(g: RoleGraph, version: nat, edges: set<MembershipEdge>): Facts {
    Facts(InspectedSets(g, version, edges), Marked(edges, InheritsBy(edges)), Marked(edges, AdministersBy(edges)))
  }

  /** An explicit fact overrides; an omitted one never erases what is known. */
  function MergeFact(f: EdgeFacts, p: Pair, value: Capability): EdgeFacts {
    if value.Unknown? && p in f then f else f[p := value]
  }

  function Layer(version: nat, f: Facts, fact: MembershipFact): Facts {
    var p := (fact.role, fact.member);
    Facts(
      MergeFact(f.setRole, p, SetOf(version, fact)),
      MergeFact(f.usage, p, fact.inherit),
      MergeFact(f.admin, p, fact.adminOption))
  }

  ghost function InitialFacts(g: RoleGraph, e: ExecutorFacts, version: nat): Facts {
    Fold((f: Facts, fact: MembershipFact) => Layer(version, f, fact),
         SnapshotFacts(g, version, g.memberships), e.memberships)
  }

  function PairOf(fact: MembershipFact): Pair {
    (fact.role, fact.member)
  }

  /** A known INHERIT fact that no later fact about the same pair replaces. */
  ghost predicate InheritStands(facts: seq<MembershipFact>, i: nat) {
    && i < |facts| && !facts[i].inherit.Unknown?
    && forall j :: i < j < |facts| ==> PairOf(facts[j]) != PairOf(facts[i]) || facts[j].inherit.Unknown?
  }

  ghost predicate AdminStands(facts: seq<MembershipFact>, i: nat) {
    && i < |facts| && !facts[i].adminOption.Unknown?
    && forall j :: i < j < |facts| ==> PairOf(facts[j]) != PairOf(facts[i]) || facts[j].adminOption.Unknown?
  }

  /** A SET option left open on a fact resolves to what a membership proves on this version. */
  function SetOf(version: nat, fact: MembershipFact): Capability {
    if fact.setRole.Unknown? then SetRoleDefault(version) else fact.setRole
  }

  ghost predicate SetStands(facts: seq<MembershipFact>, version: nat, i: nat) {
    && i < |facts| && !SetOf(version, facts[i]).Unknown?
    && forall j :: i < j < |facts| ==> PairOf(facts[j]) != PairOf(facts[i]) || SetOf(version, facts[j]).Unknown?
  }

  /** Each known fact about a pair stands until a later known fact about the same pair. */
  lemma {:induction false} ExplicitFactsWin(g: RoleGraph, e: ExecutorFacts, version: nat, i: nat)
    requires i < |e.memberships|
    ensures var f, fact := InitialFacts(g, e, version), e.memberships[i];
      && (SetStands(e.memberships, version, i) ==> Get(f.setRole, PairOf(fact)) == Some(SetOf(version, fact)))
      && (InheritStands(e.memberships, i) ==> Get(f.usage, PairOf(fact)) == Some(fact.inherit))
      && (AdminStands(e.memberships, i) ==> Get(f.admin, PairOf(fact)) == Some(fact.adminOption))
    decreases |e.memberships|
  {
    var init := e.(memberships := e.memberships[..|e.memberships| - 1]);
    if i < |init.memberships| {
      ExplicitFactsWin(g, init, version, i);
    }
  }

  function RaiseFact(f: EdgeFacts, p: Pair, value: bool): EdgeFacts {
    if value then f[p := Allowed] else if p in f then f else f[p := Denied]
  }

  lemma PairsPush(done: set<MembershipEdge>, e: MembershipEdge)
    ensures Pairs(done + {e}) == Pairs(done) + {(e.role, e.member)}
  {
    forall p | p in Pairs(done) + {(e.role, e.member)} ensures p in Pairs(done + {e}) {
      if p in Pairs(done) {
        var d :| d in done && p == (d.role, d.member);
        assert d in done + {e};
      } else {
        assert e in done + {e};
      }
    }
  }

  lemma ByPush(done: set<MembershipEdge>, e: MembershipEdge, p: Pair)
    ensures InheritsBy(done + {e})(p) <==> (InheritsBy(done)(p) || ((e.role, e.member) == p && e.inherit))
    ensures AdministersBy(done + {e})(p) <==> (AdministersBy(done)(p) || ((e.role, e.member) == p && e.admin))
    ensures p !in Pairs(done) ==> !InheritsBy(done)(p) && !AdministersBy(done)(p)
  {
    assert e in done + {e};
    assert forall d :: d in done ==> d in done + {e};
  }

  lemma MarkOne(done: set<MembershipEdge>, e: MembershipEdge, marks: Pair -> bool, marks': Pair -> bool, value: bool)
    requires forall p :: marks'(p) <==> (marks(p) || ((e.role, e.member) == p && value))
    requires (e.role, e.member) !in Pairs(done) ==> !marks((e.role, e.member))
    ensures Marked(done + {e}, marks') == RaiseFact(Marked(done, marks), (e.role, e.member), value)
  {
    PairsPush(done, e);
  }

  lemma InspectOne(g: RoleGraph, version: nat, done: set<MembershipEdge>, e: MembershipEdge)
    ensures var p := (e.role, e.member);
      InspectedSets(g, version, done + {e}) == InspectedSets(g, version, done)[p := InspectedSet(g, version, p)]
  {
    PairsPush(done, e);
  }

  lemma GatherOne(g: RoleGraph, version: nat, done: set<MembershipEdge>, f: Facts, e: MembershipEdge)
    requires f == SnapshotFacts(g, version, done)
    ensures var p := (e.role, e.member);
      SnapshotFacts(g, version, done + {e})
        == Facts(f.setRole[p := InspectedSet(g, version, p)],
                 RaiseFact(f.usage, p, e.inherit), RaiseFact(f.admin, p, e.admin))
  {
    var more := done + {e};
    forall p
      ensures InheritsBy(more)(p) <==> (InheritsBy(done)(p) || ((e.role, e.member) == p && e.inherit))
      ensures AdministersBy(more)(p) <==> (AdministersBy(done)(p) || ((e.role, e.member) == p && e.admin))
    {
      ByPush(done, e, p);
    }
    ByPush(done, e, (e.role, e.member));
    InspectOne(g, version, done, e);
    MarkOne(done, e, InheritsBy(done), InheritsBy(more), e.inherit);
    MarkOne(done, e, AdministersBy(done), AdministersBy(more), e.admin);
  }

  method InitialEdgeFacts(g: RoleGraph, e: ExecutorFacts, version: nat) returns (f: Facts)
    ensures f == InitialFacts(g, e, version)
  {
    f := Facts(map[], map[], map[]);
    var rest := g.memberships;
    while rest != {}
      invariant rest <= g.memberships && f == SnapshotFacts(g, version, g.memberships - rest)
      decreases |rest|
    {
      var edge :| edge in rest;
      var p := (edge.role, edge.member);
      GatherOne(g, version, g.memberships - rest, f, edge);
      assert g.memberships - (rest - {edge}) == g.memberships - rest + {edge};
      f := Facts(f.setRole[p := InspectedSet(g, version, p)],
                 RaiseFact(f.usage, p, edge.inherit), RaiseFact(f.admin, p, edge.admin));
      rest := rest - {edge};
    }
    assert g.memberships - rest == g.memberships;
    ghost var step := (f: Facts, fact: MembershipFact) => Layer(version, f, fact);
    for i := 0 to |e.memberships|
      invariant f == Fold(step, SnapshotFacts(g, version, g.memberships), e.memberships[..i])
    {
      FoldSnoc(step, SnapshotFacts(g, version, g.memberships), e.memberships, i);
      f := Layer(version, f, e.memberships[i]);
    }
    assert e.memberships[..|e.memberships|] == e.memberships;
  }

  // ---- Usable grantors ----

  ghost predicate GrantsRole(edges: set<MembershipEdge>, role: string) {
    exists e :: e in edges && e.role == role
  }

  /**
   Holders of ADMIN on `role` whose privileges the executor has, dropped ones aside; a superuser
   also acts as the bootstrap role.
   */
  ghost predicate UsableFor(x: Context, g: RoleGraph, changes: seq<Change>, projected: World, role: string,
                            holder: string) {
    var a := InitialAttributes(projected.graph, x.executor);
    var reach := Reachability(projected.graph.roles.Keys, projected.facts.usage, x.executor.role, a.superuser,
        x.graphComplete);
    || (&& (role, holder) in projected.facts.admin && projected.facts.admin[(role, holder)].Allowed?
        && holder !in DroppedNames(changes) && holder in reach && reach[holder].Reachable?)
    || (a.superuser && x.executor.bootstrapRole == Some(holder) && GrantsRole(g.memberships, role))
  }

  /** Project the statements before the first membership addition. */
  method ProjectPlan(x: Context, w: World, changes: seq<Change>) returns (projected: World)
    ensures projected == Projected(x, w, changes)
  {
    var sim := new Simulator(x, w);
    ghost var early := BeforeAddsFn();
    for i := 0 to |changes|
      invariant sim.context == x
      invariant sim.State() == Fold(WorldStep(x), w, Filter(changes[..i], early))
    {
      FilterSnoc(changes, i, early);
      if BeforeAdds(changes[i]) {
        FoldPush(WorldStep(x), w, Filter(changes[..i], early), changes[i]);
        sim.Advance(changes[i]);
      } else {
        assert Filter(changes[..i], early) + [] == Filter(changes[..i], early);
      }
    }
    assert changes[..|changes|] == changes;
    projected := World(sim.graph, Facts(sim.setRole, sim.usage, sim.admin), sim.attributes);
  }

  function AddGrantor(usable: map<string, set<string>>, role: string, holder: string): map<string, set<string>> {
    usable[role := (if role in usable then usable[role] else {}) + {holder}]
  }

  predicate IsUsable(usable: map<string, set<string>>, role: string, holder: string) {
    role in usable && holder in usable[role]
  }

  lemma AddGrantorAdds(usable: map<string, set<string>>, role: string, holder: string, r: string, h: string)
    ensures IsUsable(AddGrantor(usable, role, holder), r, h) <==> (IsUsable(usable, r, h) || (r == role && h == holder))
  {
  }

  /** The grantors through which a plan may raise membership options. */
  method UsableGrantors(x: Context, g: RoleGraph, changes: seq<Change>, w: World) returns (a: OptionPlans.Authority)
    requires w.graph == g
    ensures a.executor == x.executor.role
    ensures AuthorityOf(x, w, changes, a)
  {
    var projected := ProjectPlan(x, w, changes);
    var attributes := InitialAttributes(projected.graph, x.executor);
    var reach := ComputeReachability(projected.graph.roles.Keys, projected.facts.usage, x.executor.role,
        attributes.superuser, x.graphComplete);
    var dropped := DroppedNames(changes);
    var usable: map<string, set<string>> := map[];
    var rest := projected.facts.admin.Keys;
    while rest != {}
      invariant rest <= projected.facts.admin.Keys
      invariant forall role, holder :: IsUsable(usable, role, holder) <==>
        ((role, holder) in projected.facts.admin.Keys - rest && projected.facts.admin[(role, holder)].Allowed?
         && holder !in dropped && holder in reach && reach[holder].Reachable?)
      decreases |rest|
    {
      var p :| p in rest;
      if projected.facts.admin[p].Allowed? && p.1 !in dropped && p.1 in reach && reach[p.1].Reachable? {
        forall r, h
          ensures IsUsable(AddGrantor(usable, p.0, p.1), r, h) <==> (IsUsable(usable, r, h) || (r == p.0 && h == p.1))
        {
          AddGrantorAdds(usable, p.0, p.1, r, h);
        }
        usable := AddGrantor(usable, p.0, p.1);
      }
      rest := rest - {p};
    }
    if attributes.superuser && x.executor.bootstrapRole.Some? {
      usable := AddBootstrap(usable, g.memberships, x.executor.bootstrapRole.value);
    }
    a := OptionPlans.Authority.Authority(x.executor.role, usable);
  }

  method AddBootstrap(before: map<string, set<string>>, edges: set<MembershipEdge>, bootstrap: string)
    returns (usable: map<string, set<string>>)
    ensures forall role, holder :: IsUsable(usable, role, holder) <==>
      (IsUsable(before, role, holder) || (holder == bootstrap && GrantsRole(edges, role)))
  {
    usable := before;
    var rest := edges;
    while rest != {}
      invariant rest <= edges
      invariant forall role, holder :: IsUsable(usable, role, holder) <==>
        (IsUsable(before, role, holder) || (holder == bootstrap && GrantsRole(edges - rest, role)))
      decreases |rest|
    {
      var e :| e in rest;
      forall r, h
        ensures IsUsable(AddGrantor(usable, e.role, bootstrap), r, h) <==>
          (IsUsable(usable, r, h) || (r == e.role && h == bootstrap))
      {
        AddGrantorAdds(usable, e.role, bootstrap, r, h);
      }
      usable := AddGrantor(usable, e.role, bootstrap);
      assert e in edges - (rest - {e});
      assert forall f :: f in edges - rest ==> f in edges - (rest - {e});
      assert forall f :: f in edges - (rest - {e}) ==> f in edges - rest || f == e;
      rest := rest - {e};
    }
    assert edges - rest == edges;
  }

  /** The authority found for a plan: its usable grantors are those of the projected state. */
  ghost predicate AuthorityOf(x: Context, w: World, plan: seq<Change>, a: OptionPlans.Authority) {
    forall role, holder ::
      IsUsable(a.usable, role, holder) <==> UsableFor(x, w.graph, plan, Projected(x, w, plan), role, holder)
  }

  lemma ChosenIsUsable(a: OptionPlans.Authority, role: string, options: map<string, MembershipOptions>)
    requires role in a.usable && a.usable[role] != {}
    ensures IsUsable(a.usable, role, ChooseGrantor(a, role, options))
  {
  }

  /**
   The grantor chosen for an increase holds ADMIN on the role, and a
   non-superuser executor inherits from it, when the simulation of the resolved
   plan reaches its membership additions.
   */
  lemma ChosenGrantorHolds(x: Context, w: World, plan: seq<Change>, a: OptionPlans.Authority, r: seq<Change>,
                           boundary: nat,
                           role: string, options: map<string, MembershipOptions>)
    requires SplitsAt(plan, boundary) && PlanOrder.AllOneWay(plan)
    requires AuthorityOf(x, w, plan, a) && ResolveAll(w.graph, a, plan) == Some(r)
    requires role in a.usable && a.usable[role] != {}
    requires !InitialAttributes(Projected(x, w, plan).graph, x.executor).superuser
    ensures boundary <= |r|
    ensures var g, at := ChooseGrantor(a, role, options), Fold(WorldStep(x), w, r[..boundary]);
      && (role, g) in at.facts.admin && at.facts.admin[(role, g)].Allowed?
      && CanReach(at.facts.usage, OnlyAllowed, x.executor.role, g)
  {
    var g := ChooseGrantor(a, role, options);
    ChosenIsUsable(a, role, options);
    assert UsableFor(x, w.graph, plan, Projected(x, w, plan), role, g);
    ProjectionEqualsResolved(x, w, a, plan, r, boundary);
  }
}
