/**
 Additive reconciliation only adds: nothing the current graph grants is lost,
 and no pre-existing role is altered.
 */
module AdditiveMode {
  import opened Sequences
  import opened Orders
  import opened Model
  import opened Manifest
  import opened Diff
  import opened Steps
  import opened Sections
  import opened Plan
  import opened PlanOrder
  import OptionPlans

  // ---- At least as large ----

  ghost predicate EdgeInherits(edges: set<MembershipEdge>, p: Pair) {
    exists e :: e in edges && e.role == p.0 && e.member == p.1 && e.inherit
  }

  ghost predicate EdgeAdministers(edges: set<MembershipEdge>, p: Pair) {
    exists e :: e in edges && e.role == p.0 && e.member == p.1 && e.admin
  }

  ghost predicate Includes<K(!new)>(small: map<K, Privileges>, large: map<K, Privileges>) {
    forall k :: k in small ==> k in large && small[k] <= large[k]
  }

  ghost predicate RolesKept(c: RoleGraph, g: RoleGraph) {
    forall n :: n in c.roles ==> n in g.roles && g.roles[n] == c.roles[n]
  }

  ghost predicate SchemasKept(c: RoleGraph, g: RoleGraph) {
    forall n :: n in c.schemas ==>
      n in g.schemas && g.schemas[n].owner == c.schemas[n].owner
      && c.schemas[n].ownerPrivileges <= g.schemas[n].ownerPrivileges
  }

  ghost predicate MembersKept(c: Memberships, g: Memberships) {
    forall p :: (p in Pairs(c.edges) ==> p in Pairs(g.edges))
      && (EdgeInherits(c.edges, p) ==> EdgeInherits(g.edges, p))
      && (EdgeAdministers(c.edges, p) ==> EdgeAdministers(g.edges, p))
  }

  /** Roles untouched, and everything granted in `c` granted in `g`. */
  ghost predicate AtLeast(c: RoleGraph, g: RoleGraph) {
    && RolesKept(c, g) && SchemasKept(c, g)
    && Includes(c.grants, g.grants) && Includes(c.defaults, g.defaults)
    && MembersKept(MembershipsOf(c), MembershipsOf(g))
  }

  // ---- Coherent options ----

  /** Where all tuples of a pair are recorded, its effective edges claim no more than they supply. */
  ghost predicate CoherentOptions(m: Memberships) {
    forall p :: m.Complete(p) ==>
      && p in Pairs(m.edges)
      && (EdgeInherits(m.edges, p) ==> AnyInherit(m.options[p]))
      && (EdgeAdministers(m.edges, p) ==> AnyAdmin(m.options[p]))
  }

  /** The same pairs have all their tuples recorded, and the options still cohere. */
  ghost predicate StaysCoherent(c: Memberships, m: Memberships) {
    (forall p :: m.Complete(p) <==> c.Complete(p)) && CoherentOptions(m)
  }

  // ---- The changes additive mode lets through ----

  predicate Raising(o: Option<bool>) {
    o != Some(false)
  }

  /** A change that can only add to `c`. */
  predicate Adding(c: RoleGraph, change: Change) {
    match change
    case CreateRole(n, _) => n !in c.roles
    case AlterRole(n, _) => n !in c.roles
    case CreateSchema(n, _) => n !in c.schemas
    case EnsureSchemaOwnerPrivileges(_, _, _) => true
    case Grant(_, _) => true
    case SetDefault(_, _) => true
    case AddMember(role, member, _, _) => !MembershipsOf(c).Complete((role, member))
    case UpdateMemberOptions(_, _, _, inherit, admin, _) => Raising(inherit) && Raising(admin)
    case _ => false
  }

  // ---- Each such change keeps what there was ----

  lemma AddingRoles(c: RoleGraph, g: RoleGraph, change: Change)
    requires Adding(c, change) && RolesKept(c, g)
    ensures RolesKept(c, Apply(g, change))
  {
    var after := RolesAfter(g.roles, change);
    forall n | n in c.roles ensures n in after && after[n] == c.roles[n] {}
  }

  lemma AddingSchemas(c: RoleGraph, g: RoleGraph, change: Change)
    requires Adding(c, change) && SchemasKept(c, g)
    ensures SchemasKept(c, Apply(g, change))
  {
    var after := SchemasAfter(g.schemas, change);
    forall n | n in c.schemas
      ensures n in after && after[n].owner == c.schemas[n].owner
      ensures c.schemas[n].ownerPrivileges <= after[n].ownerPrivileges
    {}
  }

  lemma AddingGrants(c: RoleGraph, g: RoleGraph, change: Change)
    requires Adding(c, change) && Includes(c.grants, g.grants) && Includes(c.defaults, g.defaults)
    ensures Includes(c.grants, GrantsAfter(g, change)) && Includes(c.defaults, DefaultsAfter(g.defaults, change))
  {
  }

  lemma AddingEdge(m: Memberships, p: Pair, inherit: bool, admin: bool)
    ensures var r := m.(edges := m.edges + {MembershipEdge(p.0, p.1, inherit, admin)});
      MembersKept(m, r) && forall q :: q != p ==>
        && (EdgeInherits(r.edges, q) ==> EdgeInherits(m.edges, q))
        && (EdgeAdministers(r.edges, q) ==> EdgeAdministers(m.edges, q))
  {
    var e := MembershipEdge(p.0, p.1, inherit, admin);
    var r := m.(edges := m.edges + {e});
    forall f | f in m.edges ensures f in r.edges {}
  }

  lemma AddKeeps(c: Memberships, m: Memberships, p: Pair, inherit: bool, admin: bool)
    requires StaysCoherent(c, m) && !c.Complete(p)
    ensures var r := m.(edges := m.edges + {MembershipEdge(p.0, p.1, inherit, admin)});
      StaysCoherent(c, r) && MembersKept(m, r)
  {
    var r := m.(edges := m.edges + {MembershipEdge(p.0, p.1, inherit, admin)});
    AddingEdge(m, p, inherit, admin);
    assert !m.Complete(p);
    forall q | r.Complete(q)
      ensures q in Pairs(r.edges)
      ensures EdgeInherits(r.edges, q) ==> AnyInherit(r.options[q])
      ensures EdgeAdministers(r.edges, q) ==> AnyAdmin(r.options[q])
    {
      assert m.Complete(q) && q != p;
    }
  }

  /** Raising options on one tuple supplies at least what was supplied before. */
  lemma RaiseTuple(options: map<string, MembershipOptions>, g: string, inherit: Option<bool>, admin: Option<bool>)
    requires g in options && Raising(inherit) && Raising(admin)
    ensures var r := options[g := Overwrite(options[g], inherit, admin)];
      (AnyInherit(options) ==> AnyInherit(r)) && (AnyAdmin(options) ==> AnyAdmin(r))
  {
    var r := options[g := Overwrite(options[g], inherit, admin)];
    forall h | h in options
      ensures h in r && (options[h].inherit ==> r[h].inherit) && (options[h].admin ==> r[h].admin)
    {}
  }

  lemma EffectiveEdge(edges: set<MembershipEdge>, p: Pair, options: map<string, MembershipOptions>, q: Pair)
    ensures var r := WithEdge(edges, p, options);
      && (p == q ==> q in Pairs(r) && (EdgeInherits(r, q) <==> AnyInherit(options))
                     && (EdgeAdministers(r, q) <==> AnyAdmin(options)))
      && (p != q ==> (q in Pairs(r) <==> q in Pairs(edges))
                     && (EdgeInherits(r, q) <==> EdgeInherits(edges, q))
                     && (EdgeAdministers(r, q) <==> EdgeAdministers(edges, q)))
  {
    var r := WithEdge(edges, p, options);
    var e := MembershipEdge(p.0, p.1, AnyInherit(options), AnyAdmin(options));
    assert e in r;
    assert forall f :: f in r <==> f == e || (f in edges && (f.role != p.0 || f.member != p.1));
  }

  /** Binding a new tuple, with every option off, supplies nothing. */
  lemma BindKeeps(m: Memberships, p: Pair, via: string, binding: Option<OptionBinding>)
    requires CoherentOptions(m)
    ensures StaysCoherent(m, BindTuple(m, p, via, binding)) && BindTuple(m, p, via, binding).edges == m.edges
  {
    var bound := BindTuple(m, p, via, binding);
    if CreatesTuple(m, p, via, binding) {
      var options := bound.options[p];
      assert options.Keys == m.options[p].Keys + {via};
      forall q | bound.Complete(q)
        ensures q in Pairs(m.edges)
        ensures EdgeInherits(m.edges, q) ==> AnyInherit(bound.options[q])
        ensures EdgeAdministers(m.edges, q) ==> AnyAdmin(bound.options[q])
      {
        assert m.Complete(q);
        assert forall g :: g in m.options[q] ==> g in bound.options[q] && bound.options[q][g] == m.options[q][g];
      }
    }
  }

  /** Raising a recorded tuple of a complete pair. */
  lemma OverwriteKeeps(m: Memberships, p: Pair, via: string, inherit: Option<bool>, admin: Option<bool>)
    requires CoherentOptions(m) && m.Complete(p) && via in m.options[p] && Raising(inherit) && Raising(admin)
    ensures var r := Overwritten(m, p, via, inherit, admin); StaysCoherent(m, r) && MembersKept(m, r)
  {
    var r := Overwritten(m, p, via, inherit, admin);
    var options := m.options[p][via := Overwrite(m.options[p][via], inherit, admin)];
    RaiseTuple(m.options[p], via, inherit, admin);
    assert options.Keys == m.options[p].Keys;
    forall q
      ensures q in Pairs(m.edges) ==> q in Pairs(r.edges)
      ensures EdgeInherits(m.edges, q) ==> EdgeInherits(r.edges, q)
      ensures EdgeAdministers(m.edges, q) ==> EdgeAdministers(r.edges, q)
      ensures r.Complete(q) <==> m.Complete(q)
      ensures r.Complete(q) ==> q in Pairs(r.edges)
      ensures r.Complete(q) && EdgeInherits(r.edges, q) ==> AnyInherit(r.options[q])
      ensures r.Complete(q) && EdgeAdministers(r.edges, q) ==> AnyAdmin(r.options[q])
    {
      EffectiveEdge(m.edges, p, options, q);
    }
  }

  lemma IncompleteKeeps(m: Memberships, p: Pair, via: string, inherit: Option<bool>, admin: Option<bool>)
    requires CoherentOptions(m) && !m.Complete(p)
    ensures var r := Overwritten(m, p, via, inherit, admin); StaysCoherent(m, r) && MembersKept(m, r)
  {
    var r := Overwritten(m, p, via, inherit, admin);
    assert r.edges == m.edges;
    forall q ensures r.Complete(q) <==> m.Complete(q) {
      if q == p && p in m.options && via in m.options[p] {
        assert r.options[p].Keys == m.options[p].Keys;
      }
    }
    assert forall q :: r.Complete(q) ==> r.options[q] == m.options[q];
  }

  lemma RaiseKeeps(c: Memberships, m: Memberships, p: Pair, via: string, inherit: Option<bool>, admin: Option<bool>,
                   binding: Option<OptionBinding>)
    requires StaysCoherent(c, m) && Raising(inherit) && Raising(admin)
    ensures var r := Updated(m, p, via, inherit, admin, binding); StaysCoherent(c, r) && MembersKept(m, r)
  {
    var bound := BindTuple(m, p, via, binding);
    BindKeeps(m, p, via, binding);
    if !bound.Complete(p) {
      IncompleteKeeps(bound, p, via, inherit, admin);
    } else if via in bound.options[p] {
      OverwriteKeeps(bound, p, via, inherit, admin);
    }
  }

  lemma MembersTransitive(a: Memberships, b: Memberships, c: Memberships)
    requires MembersKept(a, b) && MembersKept(b, c)
    ensures MembersKept(a, c)
  {
  }

  lemma AddingMembers(c: RoleGraph, g: RoleGraph, change: Change)
    requires Adding(c, change) && StaysCoherent(MembershipsOf(c), MembershipsOf(g))
    ensures StaysCoherent(MembershipsOf(c), MembershipsAfter(MembershipsOf(g), change))
    ensures MembersKept(MembershipsOf(g), MembershipsAfter(MembershipsOf(g), change))
  {
    match change
    case AddMember(role, member, inherit, admin) =>
      AddKeeps(MembershipsOf(c), MembershipsOf(g), (role, member), inherit, admin);
    case UpdateMemberOptions(role, member, via, inherit, admin, binding) =>
      RaiseKeeps(MembershipsOf(c), MembershipsOf(g), (role, member), via, inherit, admin, binding);
    case _ =>
  }

  lemma {:induction false} AddingRun(c: RoleGraph, changes: seq<Change>)
    requires CoherentOptions(MembershipsOf(c))
    requires forall change :: change in changes ==> Adding(c, change)
    ensures AtLeast(c, Run(c, changes)) && StaysCoherent(MembershipsOf(c), MembershipsOf(Run(c, changes)))
  {
    if changes != [] {
      var init, last := changes[..|changes| - 1], changes[|changes| - 1];
      assert changes == init + [last] && last in changes;
      assert forall change :: change in init ==> change in changes;
      AddingRun(c, init);
      var g := Run(c, init);
      AddingRoles(c, g, last);
      AddingSchemas(c, g, last);
      AddingGrants(c, g, last);
      AddingMembers(c, g, last);
      MembersTransitive(MembershipsOf(c), MembershipsOf(g), MembershipsAfter(MembershipsOf(g), last));
    }
  }

  // ---- The additive plan consists of such changes ----

  /** Each change of a plan lies in one of its sections. */
  lemma InSection(c: RoleGraph, d: RoleGraph, change: Change)
    requires change in PlanFor(c, d)
    ensures change in Creates(c, d) || change in Alters(c, d) || change in SchemaChanges(c, d)
      || change in OwnerGrants(c, d) || change in Grants(c, d) || change in SetDefaults(c, d)
      || change in Revokes(c, d) || change in Removes(c, d)
      || change in Adds(c, d) || change in RevokeDefaults(c, d) || change in Drops(c, d)
  {
    InFour(Prepare(c, d), Widen(c, d), Narrow(c, d), Finish(c, d), change);
    if change in Prepare(c, d) {
      InThree(Creates(c, d), Alters(c, d), SchemaChanges(c, d), change);
    } else if change in Widen(c, d) {
      InThree(OwnerGrants(c, d), Grants(c, d), SetDefaults(c, d), change);
    } else if change in Finish(c, d) {
      InThree(Adds(c, d), RevokeDefaults(c, d), Drops(c, d), change);
    }
  }

  lemma InThree(x: seq<Change>, y: seq<Change>, z: seq<Change>, change: Change)
    ensures change in x + y + z <==> change in x || change in y || change in z
  {
  }

  lemma InFour(w: seq<Change>, x: seq<Change>, y: seq<Change>, z: seq<Change>, change: Change)
    ensures change in w + x + y + z <==> change in w || change in x || change in y || change in z
  {
  }

  /** What a plan of `c` promises of each of its changes. */
  predicate Planned(c: RoleGraph, change: Change) {
    && (change.CreateRole? ==> change.name !in c.roles)
    && (change.CreateSchema? ==> change.name !in c.schemas)
    && (change.AddMember? ==> !MembershipsOf(c).Complete((change.role, change.member)))
    && !change.SetPassword?
  }

  lemma PlannedSchema(c: RoleGraph, d: RoleGraph, change: Change)
    requires change in SchemaChanges(c, d)
    ensures Planned(c, change)
  {
    InFlatMap(Sorted(d.schemas.Keys, StringLe), SchemaFn(c, d), change);
  }

  lemma PlannedRemove(c: RoleGraph, d: RoleGraph, change: Change)
    requires change in Removes(c, d)
    ensures Planned(c, change)
  {
    InRemoves(c, d, change);
  }

  lemma PlannedAdd(c: RoleGraph, d: RoleGraph, change: Change)
    requires change in Adds(c, d) && CoherentOptions(MembershipsOf(c))
    ensures Planned(c, change)
  {
    var pairs := Sorted(Pairs(d.memberships), PairLe);
    InFlatMap(pairs, AddPairFn(c, d), change);
    var p :| p in pairs && change in AddPairFn(c, d)(p);
    InAddPair(c, d, p, change);
    if change.AddMember? {
      NotAddedWhenComplete(c, d, p, change);
    }
  }

  lemma PlannedOther(c: RoleGraph, change: Change)
    requires KindOf(change) !in {Creation, SchemaKind, MemberKind, RetireKind}
    ensures Planned(c, change)
  {
  }

  lemma PlannedChange(c: RoleGraph, d: RoleGraph, change: Change)
    requires change in PlanFor(c, d) && CoherentOptions(MembershipsOf(c))
    ensures Planned(c, change)
  {
    InSection(c, d, change);
    SectionKinds(c, d);
    if change in Creates(c, d) {
      InCreates(c, d, change);
    } else if change in SchemaChanges(c, d) {
      PlannedSchema(c, d, change);
    } else if change in Removes(c, d) {
      PlannedRemove(c, d, change);
    } else if change in Adds(c, d) {
      PlannedAdd(c, d, change);
    } else {
      PlannedOther(c, change);
    }
  }

  lemma NotAddedWhenComplete(c: RoleGraph, d: RoleGraph, p: Pair, change: Change)
    requires change in AddPairFn(c, d)(p) && change.AddMember? && CoherentOptions(MembershipsOf(c))
    ensures !MembershipsOf(c).Complete(p)
  {
    if MembershipsOf(c).Complete(p) {
      assert p in Pairs(c.memberships) && IsAttributed(c, p);
    }
  }

  lemma AdditiveAdds(c: RoleGraph, all: seq<Change>, x: Change, y: Change)
    requires Planned(c, x) && y in AdditiveFn(all)(x)
    requires forall z :: z in all && z.CreateRole? ==> Planned(c, z)
    ensures Adding(c, y)
  {
    match x
    case AlterRole(n, _) =>
      var z :| z in all && z.CreateRole? && z.name == n;
      assert Planned(c, z);
    case UpdateMemberOptions(_, _, _, inherit, admin, _) =>
      KeptRaise(inherit);
      KeptRaise(admin);
    case _ =>
  }

  /** A change of an additive plan is what additive mode makes of one planned change. */
  lemma AdditiveSource(changes: seq<Change>, e: Expanded, retirements: seq<Retirement>, d: RoleGraph, y: Change)
    returns (x: Change)
    requires y in Filtered(changes, e, retirements, Additive, d)
    ensures x in changes && y in AdditiveFn(WithRetirements(changes, retirements))(x)
  {
    var all := WithRetirements(changes, retirements);
    var inMode := FilterMode(all, Additive);
    var managed := FilterExternal(inMode, e);
    InFlatMap(managed, PreserveFn(e.roles, d), y);
    var z :| z in managed && y in PreserveFn(e.roles, d)(z);
    InFlatMap(inMode, ExternalFn(e.roles, e.memberships), z);
    var w :| w in inMode && z in ExternalFn(e.roles, e.memberships)(w);
    InFlatMap(all, AdditiveFn(all), z);
    x :| x in all && z in AdditiveFn(all)(x);
    NotRevoke(all, x, z);
    RetiredSource(changes, retirements, all, x, z);
  }

  lemma AdditivePlanAdds(c: RoleGraph, changes: seq<Change>, e: Expanded, retirements: seq<Retirement>, d: RoleGraph,
                         y: Change)
    requires forall x :: x in changes ==> Planned(c, x)
    requires y in Filtered(changes, e, retirements, Additive, d)
    ensures Adding(c, y)
  {
    var x := AdditiveSource(changes, e, retirements, d, y);
    var all := WithRetirements(changes, retirements);
    forall u | u in all && u.CreateRole? ensures Planned(c, u) {
      RetiredMember(changes, retirements, u);
    }
    AdditiveAdds(c, all, x, y);
  }

  lemma NotRevoke(all: seq<Change>, x: Change, z: Change)
    requires z in AdditiveFn(all)(x)
    ensures !z.Revoke?
  {
  }

  lemma RetiredSource(changes: seq<Change>, retirements: seq<Retirement>, all: seq<Change>, x: Change, z: Change)
    requires x in WithRetirements(changes, retirements) && z in AdditiveFn(all)(x)
    ensures x in changes
  {
    InFlatMap(changes, RetireFn(retirements), x);
    var u :| u in changes && x in RetireFn(retirements)(u);
    if u.DropRole? {
      BlockDestroyed(retirements, all, u, x);
    }
  }

  /** Resolving an increase changes who grants it, not what it adds. */
  lemma ResolvedAdds(c: RoleGraph, a: OptionPlans.Authority, change: Change, r: Change)
    requires Adding(c, change) && OptionPlans.ResolveOne(c, a, change) == Some(r)
    ensures Adding(c, r)
  {
  }

  lemma ResolvedPlanAdds(c: RoleGraph, a: OptionPlans.Authority, plan: seq<Change>, r: seq<Change>)
    requires OptionPlans.ResolveAll(c, a, plan) == Some(r) && forall change :: change in plan ==> Adding(c, change)
    ensures forall change :: change in r ==> Adding(c, change)
  {
    OptionPlans.SameLength(c, a, plan);
    forall i | 0 <= i < |r| ensures Adding(c, r[i]) {
      OptionPlans.ResolvedAt(c, a, plan, i);
      ResolvedAdds(c, a, plan[i], r[i]);
    }
  }

  /**
   Applying an additive plan, as planned or as resolved, to any graph with
   coherent membership options leaves every role as it was and every schema
   owner, grant, default privilege and effective membership at least as large.
   */
  lemma AdditiveIsMonotone(c: RoleGraph, d: RoleGraph, e: Expanded, retirements: seq<Retirement>,
                           a: OptionPlans.Authority)
    requires CoherentOptions(MembershipsOf(c))
    ensures var plan := PlanChanges(c, d, e, retirements, Additive);
      var r := OptionPlans.ResolveAll(c, a, plan);
      AtLeast(c, Run(c, plan)) && (r.Some? ==> AtLeast(c, Run(c, r.value)))
  {
    var resolved := Resolve(d, c.routineAliases);
    var changes := DiffOf(c, resolved);
    forall x | x in changes ensures Planned(c, x) {
      PlannedChange(c, Resolve(resolved, c.routineAliases), x);
    }
    var plan := Filtered(changes, e, retirements, Additive, resolved);
    forall change | change in plan ensures Adding(c, change) {
      AdditivePlanAdds(c, changes, e, retirements, resolved, change);
    }
    AddingRun(c, plan);
    var r := OptionPlans.ResolveAll(c, a, plan);
    if r.Some? {
      ResolvedPlanAdds(c, a, plan, r.value);
      AddingRun(c, r.value);
    }
  }
}
