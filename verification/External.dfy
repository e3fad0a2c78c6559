/**
 Roles managed elsewhere: the plan neither creates, alters nor drops them, and
 touches memberships in them only where they are declared.
 */
module External {
  import opened Sequences
  import Orders
  import opened Model
  import opened Manifest
  import opened Diff
  import opened Steps
  import opened Views
  import opened MemberRounds
  import opened Plan

  /** Whatever survives the pipeline has passed the external filter. */
  lemma PassedExternal(changes: seq<Change>, e: Expanded, retirements: seq<Retirement>, mode: Mode, d: RoleGraph,
                       y: Change)
    requires y in Filtered(changes, e, retirements, mode, d)
    ensures KeepsExternal(e.roles, e.memberships, y)
  {
    var kept := FilterMode(WithRetirements(changes, retirements), mode);
    InFlatMap(FilterExternal(kept, e), PreserveFn(e.roles, d), y);
    var x :| x in FilterExternal(kept, e) && y in PreserveFn(e.roles, d)(x);
    InFlatMap(kept, ExternalFn(e.roles, e.memberships), x);
    PreservedKind(e.roles, d, x, y);
  }

  lemma PreservedKind(roles: seq<RoleDefinition>, d: RoleGraph, x: Change, y: Change)
    requires y in PreserveFn(roles, d)(x)
    ensures y == x || y.Revoke?
  {
    if x.Revoke? && Preserves(roles, x.key.role.AsString()) && IsStar(x.key) {
      var wild := x.privileges * Lookup(d.grantAbsences, Star(x.key));
      InFlatMap(Orders.Sorted(ExactAbsences(d, x.key), GrantKeyLe), ExactFn(d, x.privileges - wild, x.grantor), y);
    }
  }

  /** Running any canonical plan leaves an unmanaged role exactly as it was, present or absent. */
  lemma UnmanagedRolesUntouched(c: RoleGraph, d: RoleGraph, e: Expanded, retirements: seq<Retirement>, mode: Mode,
                                n: string)
    requires Unmanaged(e.roles, n)
    ensures Get(Run(c, PlanChanges(c, d, e, retirements, mode)).roles, n) == Get(c.roles, n)
  {
    var resolved := Resolve(d, c.routineAliases);
    var plan := Filtered(DiffOf(c, resolved), e, retirements, mode, resolved);
    forall change | change in plan ensures KeepsExternal(e.roles, e.memberships, change) {
      PassedExternal(DiffOf(c, resolved), e, retirements, mode, resolved, change);
    }
    RoleRun(c, plan, n);
    UnmanagedInert(e, plan, n);
    FoldInert(RoleStep(n), Get(c.roles, n), plan);
  }

  lemma UnmanagedInert(e: Expanded, plan: seq<Change>, n: string)
    requires Unmanaged(e.roles, n) && forall change :: change in plan ==> KeepsExternal(e.roles, e.memberships, change)
    ensures Inert(RoleStep(n), plan)
  {
    forall change, s | change in plan ensures RoleStep(n)(s, change) == s {
      assert KeepsExternal(e.roles, e.memberships, change);
    }
  }

  /** Nothing the manifest declares about the edge lets the plan touch it. */
  predicate LeftAlone(e: Expanded, p: Pair) {
    && Unmanaged(e.roles, p.0) && !DeclaredEdge(e.memberships, p.0, p.1)
    && !(ExclusiveRole(e.memberships, p.0) && !IsPredefined(p.1))
  }

  /**
   Running any canonical plan leaves an undeclared membership in an unmanaged
   role as it was, tuples and effective edge, unless the role is declared
   exclusive and the member is not predefined, or the plan drops the member.
   */
  lemma UndeclaredMembersUntouched(c: RoleGraph, d: RoleGraph, e: Expanded, retirements: seq<Retirement>, mode: Mode,
                                   p: Pair)
    requires LeftAlone(e, p) && DropRole(p.1) !in PlanChanges(c, d, e, retirements, mode)
    ensures PairView(MembershipsOf(Run(c, PlanChanges(c, d, e, retirements, mode))), p) == PairView(MembershipsOf(c), p)
  {
    var resolved := Resolve(d, c.routineAliases);
    var plan := Filtered(DiffOf(c, resolved), e, retirements, mode, resolved);
    forall change | change in plan ensures KeepsExternal(e.roles, e.memberships, change) {
      PassedExternal(DiffOf(c, resolved), e, retirements, mode, resolved, change);
    }
    PairRun(c, plan, p);
    ViewEdge(c, p);
    LeftAloneFold(e, PairView(MembershipsOf(c), p), plan, p);
  }

  lemma LeftAloneStep(e: Expanded, v: Memberships, change: Change, p: Pair)
    requires LeftAlone(e, p) && OnlyPair(v, p)
    requires change != DropRole(p.1) && KeepsExternal(e.roles, e.memberships, change)
    ensures PairAfter(p, v, change) == v
  {
    if change.DropRole? {
      assert change == DropRole(change.name) && change.name != p.0 && change.name != p.1;
      assert (set edge | edge in v.edges && edge.role != change.name && edge.member != change.name) == v.edges;
    }
  }

  lemma {:induction false} LeftAloneFold(e: Expanded, v: Memberships, plan: seq<Change>, p: Pair)
    requires LeftAlone(e, p) && OnlyPair(v, p) && DropRole(p.1) !in plan
    requires forall change :: change in plan ==> KeepsExternal(e.roles, e.memberships, change)
    ensures Fold(PairStep(p), v, plan) == v
  {
    if plan != [] {
      var init, last := plan[..|plan| - 1], plan[|plan| - 1];
      assert last in plan && forall change :: change in init ==> change in plan;
      LeftAloneFold(e, v, init, p);
      LeftAloneStep(e, v, last, p);
    }
  }
}
