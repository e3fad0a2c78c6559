/**
 What the order of a plan guarantees about the executor's authority while the
 plan runs.
 */
module PlanAuthority {
  import opened Sequences
  import opened Model
  import opened Manifest
  import opened Authority
  import opened Simulation
  import opened Analysis
  import opened Plan
  import opened PlanOrder
  import opened OptionPlans

  // ---- Object revokes run while every SET ROLE path is still there ----

  /** The edge fact a role creation may overwrite. */
  ghost predicate Replaced(x: Context, changes: seq<Change>, p: Pair) {
    p.1 == x.executor.role && CreatesRole(changes, p.0)
  }

  lemma EarlyStep(x: Context, m: Memberships, f: EdgeFacts, change: Change, p: Pair)
    requires Rank(change) <= 6 && p in f
    requires !(change.CreateRole? && p == (change.name, x.executor.role))
    ensures p in SetRoleAfter(x, m, f, change) && SetRoleAfter(x, m, f, change)[p] == f[p]
  {
  }

  lemma {:induction false} EarlyRun(x: Context, w: World, changes: seq<Change>, p: Pair)
    requires forall change :: change in changes ==> Rank(change) <= 6
    requires p in w.facts.setRole && !Replaced(x, changes, p)
    ensures var after := Fold(WorldStep(x), w, changes).facts.setRole;
      p in after && after[p] == w.facts.setRole[p]
  {
    if changes != [] {
      var init, last := changes[..|changes| - 1], changes[|changes| - 1];
      assert changes == init + [last] && last in changes;
      assert forall change :: change in init ==> change in changes;
      EarlyRun(x, w, init, p);
      var v := Fold(WorldStep(x), w, init);
      EarlyStep(x, MembershipsOf(v.graph), v.facts.setRole, last, p);
    }
  }

  /**
   When a plan reaches an object revoke, every SET ROLE fact it started from
   still stands, save those about the executor's edge to a role the plan creates.
   */
  lemma SetRoleIntact(x: Context, w: World, plan: seq<Change>, i: nat, p: Pair)
    requires Ranked(plan) && i < |plan| && plan[i].Revoke?
    requires p in w.facts.setRole && !Replaced(x, plan, p)
    ensures var now := Fold(WorldStep(x), w, plan[..i]).facts.setRole;
      p in now && now[p] == w.facts.setRole[p]
  {
    forall change | change in plan[..i] ensures Rank(change) <= 6 && change in plan {
      var j :| 0 <= j < i && plan[j] == change;
      assert Rank(plan[j]) <= Rank(plan[i]);
    }
    EarlyRun(x, w, plan[..i], p);
  }

  /** Hence a grantor that could be assumed before the plan can be assumed when its revoke runs. */
  lemma GrantorStillAssumable(x: Context, w: World, plan: seq<Change>, i: nat)
    requires Ranked(plan) && i < |plan| && plan[i].Revoke? && plan[i].grantor.Some?
    requires forall p :: p in w.facts.setRole ==> !Replaced(x, plan, p)
    requires CanReach(w.facts.setRole, OnlyAllowed, x.executor.role, plan[i].grantor.value)
    ensures CanReach(Fold(WorldStep(x), w, plan[..i]).facts.setRole, OnlyAllowed, x.executor.role,
        plan[i].grantor.value)
  {
    var now := Fold(WorldStep(x), w, plan[..i]).facts.setRole;
    forall a, b | Edge(w.facts.setRole, OnlyAllowed, a, b) ensures Edge(now, OnlyAllowed, a, b) {
      SetRoleIntact(x, w, plan, i, (b, a));
    }
    SamePaths(w.facts.setRole, OnlyAllowed, now, OnlyAllowed, x.executor.role, plan[i].grantor.value);
  }

  /** For the canonical plan of any two graphs, under any mode and filters. */
  lemma PlannedRevokesAreAssumable(x: Context, w: World, d: RoleGraph, e: Expanded,
                                   retirements: seq<Retirement>, mode: Mode, i: nat)
    requires var plan := PlanChanges(w.graph, d, e, retirements, mode);
      && i < |plan| && plan[i].Revoke? && plan[i].grantor.Some?
      && (forall p :: p in w.facts.setRole ==> !Replaced(x, plan, p))
      && CanReach(w.facts.setRole, OnlyAllowed, x.executor.role, plan[i].grantor.value)
    ensures var plan := PlanChanges(w.graph, d, e, retirements, mode);
      CanReach(Fold(WorldStep(x), w, plan[..i]).facts.setRole, OnlyAllowed, x.executor.role, plan[i].grantor.value)
  {
    PlanIsRanked(w.graph, d, e, retirements, mode);
    GrantorStillAssumable(x, w, PlanChanges(w.graph, d, e, retirements, mode), i);
  }

  // ---- The projection that chooses option grantors ----

  /** Phases before memberships are added; object revokes are numbered after them. */
  predicate BeforeAdds(change: Change) {
    var phase := PhaseFor(change);
    phase.CreatePhase? || phase.AlterPhase? || phase.GrantPhase? || phase.RemovePhase?
  }

  ghost function BeforeAddsFn(): Change -> bool {
    change => BeforeAdds(change)
  }

  /** The world in which usable grantors are looked up. */
  ghost function Projected(x: Context, w: World, plan: seq<Change>): World {
    Fold(WorldStep(x), w, Filter(plan, BeforeAddsFn()))
  }

  /** Roles, memberships, facts and executor attributes agree. */
  ghost predicate SameAuthority(v: World, w: World) {
    && v.graph.roles == w.graph.roles
    && MembershipsOf(v.graph) == MembershipsOf(w.graph)
    && v.facts == w.facts && v.attributes == w.attributes
  }

  lemma SameStep(x: Context, v: World, w: World, change: Change)
    requires SameAuthority(v, w)
    ensures SameAuthority(WorldStep(x)(v, change), WorldStep(x)(w, change))
  {
  }

  lemma RevokeStep(x: Context, v: World, change: Change)
    requires change.Revoke?
    ensures SameAuthority(WorldStep(x)(v, change), v)
  {
  }

  lemma {:induction false} SkipRevokes(x: Context, w: World, changes: seq<Change>)
    requires forall change :: change in changes ==> Rank(change) <= 7
    ensures SameAuthority(Fold(WorldStep(x), w, Filter(changes, BeforeAddsFn())), Fold(WorldStep(x), w, changes))
  {
    if changes != [] {
      var init, last := changes[..|changes| - 1], changes[|changes| - 1];
      assert changes == init + [last] && last in changes;
      assert forall change :: change in init ==> change in changes;
      SkipRevokes(x, w, init);
      var kept := Filter(init, BeforeAddsFn());
      if last.Revoke? {
        assert kept + [] == kept;
        RevokeStep(x, Fold(WorldStep(x), w, init), last);
      } else {
        FoldPush(WorldStep(x), w, kept, last);
        SameStep(x, Fold(WorldStep(x), w, kept), Fold(WorldStep(x), w, init), last);
      }
    }
  }

  lemma {:induction false} NoneBeforeAdds(changes: seq<Change>)
    requires forall change :: change in changes ==> Rank(change) >= 8
    ensures Filter(changes, BeforeAddsFn()) == []
  {
    if changes != [] {
      assert changes[|changes| - 1] in changes;
      assert forall change :: change in changes[..|changes| - 1] ==> change in changes;
      NoneBeforeAdds(changes[..|changes| - 1]);
    }
  }

  /**
   The projection that picks grantors for option increases holds the same
   roles, memberships and facts as the full simulation on reaching the first
   membership addition.
   */
  lemma ProjectionEqualsSimulation(x: Context, w: World, plan: seq<Change>, boundary: nat)
    requires boundary <= |plan|
    requires forall i :: 0 <= i < |plan| ==> (i < boundary <==> Rank(plan[i]) <= 7)
    ensures SameAuthority(Projected(x, w, plan), Fold(WorldStep(x), w, plan[..boundary]))
  {
    var early, late := plan[..boundary], plan[boundary..];
    assert plan == early + late;
    FilterConcat(early, late, BeforeAddsFn());
    forall change | change in late ensures Rank(change) >= 8 {
      var i :| 0 <= i < |late| && late[i] == change;
      assert late[i] == plan[boundary + i];
    }
    NoneBeforeAdds(late);
    assert Filter(early, BeforeAddsFn()) + [] == Filter(early, BeforeAddsFn());
    forall change | change in early ensures Rank(change) <= 7 {
      var i :| 0 <= i < |early| && early[i] == change;
      assert early[i] == plan[i];
    }
    SkipRevokes(x, w, early);
  }

  // ---- The plan that is simulated is the resolved one ----

  /** Resolving binds a reduction to the tuple it names, which is there: its effect is the intent's. */
  lemma ResolvedSameStep(x: Context, c: RoleGraph, a: OptionPlans.Authority, v: World, change: Change)
    requires ResolveOne(c, a, change).Some? && !Raises(change)
    ensures WorldStep(x)(v, ResolveOne(c, a, change).value)
         == WorldStep(x)(v, if change.UpdateMemberOptions? then change.(binding := None) else change)
  {
  }

  lemma ResolvedKeepsRank(c: RoleGraph, a: OptionPlans.Authority, change: Change)
    requires ResolveOne(c, a, change).Some?
    ensures Rank(ResolveOne(c, a, change).value) == Rank(change)
  {
  }

  lemma EarlyIsNoRaise(change: Change)
    requires Rank(change) <= 7 && OneWay(change)
    ensures !Raises(change)
  {
  }

  lemma {:induction false} ResolvedPrefix(x: Context, w: World, a: OptionPlans.Authority, plan: seq<Change>,
                                          r: seq<Change>, n: nat)
    requires ResolveAll(w.graph, a, plan) == Some(r) && n <= |plan| && |r| == |plan|
    requires AllOneWay(plan) && forall i :: 0 <= i < n ==> Rank(plan[i]) <= 7
    ensures Fold(WorldStep(x), w, r[..n]) == Fold(WorldStep(x), w, plan[..n])
  {
    if n > 0 {
      ResolvedPrefix(x, w, a, plan, r, n - 1);
      ResolvedAt(w.graph, a, plan, n - 1);
      FoldSnoc(WorldStep(x), w, r, n - 1);
      FoldSnoc(WorldStep(x), w, plan, n - 1);
      var change := plan[n - 1];
      assert change in plan;
      EarlyIsNoRaise(change);
      ResolvedSameStep(x, w.graph, a, Fold(WorldStep(x), w, plan[..n - 1]), change);
      assert change.UpdateMemberOptions? ==> change.(binding := None) == change;
    }
  }

  /** The plan splits into what runs before the first membership addition and the rest. */
  ghost predicate SplitsAt(plan: seq<Change>, boundary: nat) {
    boundary <= |plan| && forall i :: 0 <= i < |plan| ==> (i < boundary <==> Rank(plan[i]) <= 7)
  }

  /**
   The projection is made from the plan with its intents, the simulation runs
   the plan with its intents resolved: at the boundary they agree.
   */
  lemma ProjectionEqualsResolved(x: Context, w: World, a: OptionPlans.Authority, plan: seq<Change>, r: seq<Change>,
                                 boundary: nat)
    requires SplitsAt(plan, boundary) && AllOneWay(plan) && ResolveAll(w.graph, a, plan) == Some(r)
    ensures SplitsAt(r, boundary)
    ensures SameAuthority(Projected(x, w, plan), Fold(WorldStep(x), w, r[..boundary]))
  {
    ProjectionEqualsSimulation(x, w, plan, boundary);
    SameLength(w.graph, a, plan);
    ResolvedPrefix(x, w, a, plan, r, boundary);
    forall i | 0 <= i < |plan| ensures Rank(r[i]) == Rank(plan[i]) {
      ResolvedAt(w.graph, a, plan, i);
      ResolvedKeepsRank(w.graph, a, plan[i]);
    }
  }

  /** Every canonical plan has such a boundary. */
  lemma {:induction false} PlanHasBoundary(plan: seq<Change>) returns (boundary: nat)
    requires Ranked(plan)
    ensures boundary <= |plan|
    ensures forall i :: 0 <= i < |plan| ==> (i < boundary <==> Rank(plan[i]) <= 7)
  {
    boundary := 0;
    while boundary < |plan| && Rank(plan[boundary]) <= 7
      invariant boundary <= |plan|
      invariant forall i :: 0 <= i < boundary ==> Rank(plan[i]) <= 7
    {
      boundary := boundary + 1;
    }
  }

  /** For every canonical plan, as planned and as resolved against any authority. */
  lemma PlannedProjection(x: Context, w: World, d: RoleGraph, e: Expanded, retirements: seq<Retirement>, mode: Mode,
                          a: OptionPlans.Authority)
    returns (boundary: nat)
    ensures var plan := PlanChanges(w.graph, d, e, retirements, mode);
      var r := ResolveAll(w.graph, a, plan);
      && SplitsAt(plan, boundary) && SameAuthority(Projected(x, w, plan), Fold(WorldStep(x), w, plan[..boundary]))
      && (r.Some? ==>
            SplitsAt(r.value, boundary) && SameAuthority(Projected(x, w, plan),
                Fold(WorldStep(x), w, r.value[..boundary])))
  {
    var plan := PlanChanges(w.graph, d, e, retirements, mode);
    PlanIsRanked(w.graph, d, e, retirements, mode);
    PlanIsOneWay(w.graph, d, e, retirements, mode);
    boundary := PlanHasBoundary(plan);
    ProjectionEqualsSimulation(x, w, plan, boundary);
    if ResolveAll(w.graph, a, plan).Some? {
      ProjectionEqualsResolved(x, w, a, plan, ResolveAll(w.graph, a, plan).value, boundary);
    }
  }
}
