/**
 What each section of a plan consists of, and how a fold runs through a plan
 section by section.
 */
module Sections {
  import opened Sequences
  import opened Orders
  import opened Model
  import opened Diff

  // ---- Kinds of change per section ----

  lemma InCreates(c: RoleGraph, d: RoleGraph, change: Change)
    ensures change in Creates(c, d) ==> change.CreateRole? && change.name in d.roles && change.name !in c.roles
  {
    InFlatMap(Sorted(d.roles.Keys, StringLe), CreateFn(c, d), change);
  }

  lemma InSplitConcrete(c: RoleGraph, d: RoleGraph, k: GrantKey, privileges: Privileges, change: Change)
    ensures change in SplitConcrete(c, d, k, privileges) ==> change.Revoke? && change.key == k
  {
    if k in c.entryGrantors {
      InFlatMap(Sorted(c.entryGrantors[k].Keys, StringLe), GrantorFn(c, k, privileges), change);
    }
  }

  lemma InSplit(c: RoleGraph, d: RoleGraph, k: GrantKey, privileges: Privileges, change: Change)
    ensures change in Split(c, d, k, privileges) ==> change.Revoke? && InScope(change.key, k)
  {
    if Expands(c, k) {
      InFlatMap(Sorted(Targets(c, k), GrantKeyLe), TargetFn(c, d, privileges), change);
      forall t | t in Targets(c, k) && change in TargetFn(c, d, privileges)(t)
        ensures change.Revoke? && InScope(change.key, k)
      {
        InSplitConcrete(c, d, t, privileges * HeldOn(c, t), change);
      }
    } else {
      InSplitConcrete(c, d, k, privileges, change);
    }
  }

  lemma InAllRevokes(c: RoleGraph, d: RoleGraph, change: Change)
    ensures change in AllRevokes(c, d) ==> change.Revoke?
  {
    InFlatMap(Sorted(RevokeMap(c, d).Keys, GrantKeyLe), RevokeFn(c, d), change);
    forall k | change in RevokeFn(c, d)(k)
      ensures change.Revoke?
    {
      InSplit(c, d, k, ToRevoke(c, d, k), change);
    }
  }

  lemma InRevokes(c: RoleGraph, d: RoleGraph, change: Change)
    ensures change in Revokes(c, d) ==> change.Revoke? && change in AllRevokes(c, d)
  {
    InFilter(AllRevokes(c, d), Kept(c, d), change);
    InAllRevokes(c, d, change);
  }

  /** `change` alters the memberships of pair `p` and nothing else. */
  predicate OnPair(change: Change, p: Pair) {
    (change.AddMember? || change.UpdateMemberOptions? || change.RemoveMember?)
    && change.role == p.0 && change.member == p.1
  }

  lemma InRemoveAll(c: RoleGraph, p: Pair, change: Change)
    ensures change in RemoveAll(c, p) ==> change.RemoveMember? && OnPair(change, p)
  {
    if IsAttributed(c, p) {
      InFlatMap(Sorted(c.edgeGrantors[p], StringLe), RemoveEdgeFn(c, p), change);
    }
  }

  /** `change` takes an option away on pair `p`. */
  predicate Lowers(change: Change, p: Pair) {
    && OnPair(change, p) && change.UpdateMemberOptions?
    && (change.setInherit == Some(false) || change.setAdmin == Some(false))
  }

  lemma InLowers(c: RoleGraph, cur: MembershipEdge, des: MembershipEdge, grantors: set<string>, change: Change)
    ensures change in LowerAll(c, cur, des, grantors) ==> Lowers(change, (cur.role, cur.member))
  {
    InFlatMap(Sorted(grantors, StringLe), LowerFn(c, cur, des), change);
  }

  lemma InLowerPair(c: RoleGraph, d: RoleGraph, p: Pair, change: Change)
    ensures change in LowerPairFn(c, d)(p) ==>
      && OnPair(change, p) && (change.RemoveMember? || change.UpdateMemberOptions?)
      && (change.UpdateMemberOptions? ==> change.setInherit == Some(false) || change.setAdmin == Some(false))
  {
    if FlagsDiffer(c, d, p) {
      if IsAttributed(c, p) {
        InLowers(c, EdgeOf(c.memberships, p).value, EdgeOf(d.memberships, p).value, c.edgeGrantors[p], change);
      } else {
        InRemoveAll(c, p, change);
      }
    }
  }

  lemma InStalePair(c: RoleGraph, d: RoleGraph, p: Pair, change: Change)
    ensures change in StalePairFn(c, d)(p) ==> change.RemoveMember? && OnPair(change, p)
  {
    InRemoveAll(c, p, change);
  }

  lemma InRemoves(c: RoleGraph, d: RoleGraph, change: Change)
    ensures change in Removes(c, d) ==>
      && (change.RemoveMember? || change.UpdateMemberOptions?)
      && (change.UpdateMemberOptions? ==> change.setInherit == Some(false) || change.setAdmin == Some(false))
  {
    InFlatMap(Sorted(Pairs(d.memberships), PairLe), LowerPairFn(c, d), change);
    InFlatMap(Sorted(Pairs(c.memberships), PairLe), StalePairFn(c, d), change);
    forall p | change in LowerPairFn(c, d)(p)
      ensures change.RemoveMember? || change.UpdateMemberOptions?
      ensures change.UpdateMemberOptions? ==> change.setInherit == Some(false) || change.setAdmin == Some(false)
    {
      InLowerPair(c, d, p, change);
    }
    forall p | change in StalePairFn(c, d)(p)
      ensures change.RemoveMember?
    {
      InStalePair(c, d, p, change);
    }
  }

  lemma InAddPair(c: RoleGraph, d: RoleGraph, p: Pair, change: Change)
    ensures change in AddPairFn(c, d)(p) ==>
      && OnPair(change, p) && (change.AddMember? || change.UpdateMemberOptions?)
      && (change.UpdateMemberOptions? ==> change.setInherit != Some(false) && change.setAdmin != Some(false))
  {
  }

  // ---- Folding a plan ----

  lemma FoldPlan<S>(step: (S, Change) -> S, s: S, c: RoleGraph, d: RoleGraph)
    ensures Fold(step, s, PlanFor(c, d))
         == Fold(step, Fold(step, Fold(step, Fold(step, s, Prepare(c, d)), Widen(c, d)), Narrow(c, d)), Finish(c, d))
  {
    FoldConcat(step, s, Prepare(c, d), Widen(c, d));
    FoldConcat(step, s, Prepare(c, d) + Widen(c, d), Narrow(c, d));
    FoldConcat(step, s, Prepare(c, d) + Widen(c, d) + Narrow(c, d), Finish(c, d));
  }

  lemma FoldPrepare<S>(step: (S, Change) -> S, s: S, c: RoleGraph, d: RoleGraph)
    ensures Fold(step, s, Prepare(c, d))
         == Fold(step, Fold(step, Fold(step, s, Creates(c, d)), Alters(c, d)), SchemaChanges(c, d))
  {
    FoldConcat(step, s, Creates(c, d), Alters(c, d));
    FoldConcat(step, s, Creates(c, d) + Alters(c, d), SchemaChanges(c, d));
  }

  lemma FoldWiden<S>(step: (S, Change) -> S, s: S, c: RoleGraph, d: RoleGraph)
    ensures Fold(step, s, Widen(c, d))
         == Fold(step, Fold(step, Fold(step, s, OwnerGrants(c, d)), Grants(c, d)), SetDefaults(c, d))
  {
    FoldConcat(step, s, OwnerGrants(c, d), Grants(c, d));
    FoldConcat(step, s, OwnerGrants(c, d) + Grants(c, d), SetDefaults(c, d));
  }

  lemma FoldNarrow<S>(step: (S, Change) -> S, s: S, c: RoleGraph, d: RoleGraph)
    ensures Fold(step, s, Narrow(c, d)) == Fold(step, Fold(step, s, Revokes(c, d)), Removes(c, d))
  {
    FoldConcat(step, s, Revokes(c, d), Removes(c, d));
  }

  lemma FoldFinish<S>(step: (S, Change) -> S, s: S, c: RoleGraph, d: RoleGraph)
    ensures Fold(step, s, Finish(c, d))
         == Fold(step, Fold(step, Fold(step, s, Adds(c, d)), RevokeDefaults(c, d)), Drops(c, d))
  {
    FoldConcat(step, s, Adds(c, d), RevokeDefaults(c, d));
    FoldConcat(step, s, Adds(c, d) + RevokeDefaults(c, d), Drops(c, d));
  }

  /** One fold through the eleven sections in turn. */
  lemma FoldSections<S>(step: (S, Change) -> S, s: S, c: RoleGraph, d: RoleGraph)
    ensures
      var s1 := Fold(step, Fold(step, Fold(step, s, Creates(c, d)), Alters(c, d)), SchemaChanges(c, d));
      var s2 := Fold(step, Fold(step, Fold(step, s1, OwnerGrants(c, d)), Grants(c, d)), SetDefaults(c, d));
      var s3 := Fold(step, Fold(step, s2, Revokes(c, d)), Removes(c, d));
      Fold(step, s, PlanFor(c, d))
      == Fold(step, Fold(step, Fold(step, s3, Adds(c, d)), RevokeDefaults(c, d)), Drops(c, d))
  {
    FoldPlan(step, s, c, d);
    FoldPrepare(step, s, c, d);
    var s1 := Fold(step, s, Prepare(c, d));
    FoldWiden(step, s1, c, d);
    var s2 := Fold(step, s1, Widen(c, d));
    FoldNarrow(step, s2, c, d);
    FoldFinish(step, Fold(step, s2, Narrow(c, d)), c, d);
  }

  // ---- Skipping sections ----

  datatype Kind =
    | Creation | Alteration | SchemaKind | OwnerKind | GrantKind | SetDefaultKind
    | RevokeKind | MemberKind | RevokeDefaultKind | DropKind | RetireKind

  function KindOf(change: Change): Kind {
    match change
    case CreateRole(_, _) => Creation
    case AlterRole(_, _) => Alteration
    case SetComment(_, _) => Alteration
    case CreateSchema(_, _) => SchemaKind
    case AlterSchemaOwner(_, _) => SchemaKind
    case EnsureSchemaOwnerPrivileges(_, _, _) => OwnerKind
    case Grant(_, _) => GrantKind
    case SetDefault(_, _) => SetDefaultKind
    case Revoke(_, _, _) => RevokeKind
    case AddMember(_, _, _, _) => MemberKind
    case UpdateMemberOptions(_, _, _, _, _, _) => MemberKind
    case RemoveMember(_, _, _) => MemberKind
    case RevokeDefault(_, _) => RevokeDefaultKind
    case DropRole(_) => DropKind
    case _ => RetireKind
  }

  ghost predicate AllOf(changes: seq<Change>, kind: Kind) {
    forall change :: change in changes ==> KindOf(change) == kind
  }

  lemma AllOfConcat(a: seq<Change>, b: seq<Change>, kind: Kind)
    requires AllOf(a, kind) && AllOf(b, kind)
    ensures AllOf(a + b, kind)
  {
  }

  lemma {:induction false} AllOfFlatMap<A>(xs: seq<A>, f: A -> seq<Change>, kind: Kind)
    requires forall x :: x in xs ==> AllOf(f(x), kind)
    ensures AllOf(FlatMap(xs, f), kind)
  {
    if xs != [] {
      assert forall x :: x in xs[..|xs| - 1] ==> x in xs;
      AllOfFlatMap(xs[..|xs| - 1], f, kind);
    }
  }

  lemma CreatesKind(c: RoleGraph, d: RoleGraph)
    ensures AllOf(Creates(c, d), Creation)
  {
    forall k: string ensures AllOf(CreateFn(c, d)(k), Creation) {}
    AllOfFlatMap(Sorted(d.roles.Keys, StringLe), CreateFn(c, d), Creation);
  }

  lemma AttributeKind(n: string, from: RoleState, to: RoleState)
    ensures AllOf(AttributeChanges(n, from, to), Alteration)
  {
  }

  lemma CommentKind(n: string, from: RoleState, to: RoleState)
    ensures AllOf(CommentChanges(n, from, to), Alteration)
  {
  }

  lemma AlterKind(c: RoleGraph, d: RoleGraph, n: string)
    ensures AllOf(AlterFn(c, d)(n), Alteration)
  {
    if n in d.roles && n in c.roles {
      AttributeKind(n, c.roles[n], d.roles[n]);
      CommentKind(n, c.roles[n], d.roles[n]);
      AllOfConcat(AttributeChanges(n, c.roles[n], d.roles[n]), CommentChanges(n, c.roles[n], d.roles[n]), Alteration);
    }
  }

  lemma AltersKind(c: RoleGraph, d: RoleGraph)
    ensures AllOf(Alters(c, d), Alteration)
  {
    forall n: string ensures AllOf(AlterFn(c, d)(n), Alteration) { AlterKind(c, d, n); }
    AllOfFlatMap(Sorted(d.roles.Keys, StringLe), AlterFn(c, d), Alteration);
  }

  lemma SchemaChangesKind(c: RoleGraph, d: RoleGraph)
    ensures AllOf(SchemaChanges(c, d), SchemaKind)
  {
    forall k: string ensures AllOf(SchemaFn(c, d)(k), SchemaKind) {}
    AllOfFlatMap(Sorted(d.schemas.Keys, StringLe), SchemaFn(c, d), SchemaKind);
  }

  lemma OwnerGrantsKind(c: RoleGraph, d: RoleGraph)
    ensures AllOf(OwnerGrants(c, d), OwnerKind)
  {
    forall k: string ensures AllOf(OwnerFn(c, d)(k), OwnerKind) {}
    AllOfFlatMap(Sorted(d.schemas.Keys, StringLe), OwnerFn(c, d), OwnerKind);
  }

  lemma GrantsKind(c: RoleGraph, d: RoleGraph)
    ensures AllOf(Grants(c, d), GrantKind)
  {
    forall k: GrantKey ensures AllOf(GrantFn(c, d)(k), GrantKind) {}
    AllOfFlatMap(Sorted(d.grants.Keys, GrantKeyLe), GrantFn(c, d), GrantKind);
  }

  lemma SetDefaultsKind(c: RoleGraph, d: RoleGraph)
    ensures AllOf(SetDefaults(c, d), SetDefaultKind)
  {
    forall k: DefaultPrivKey ensures AllOf(SetDefaultFn(c, d)(k), SetDefaultKind) {}
    AllOfFlatMap(Sorted(d.defaults.Keys, DefaultKeyLe), SetDefaultFn(c, d), SetDefaultKind);
  }

  lemma RevokeDefaultsKind(c: RoleGraph, d: RoleGraph)
    ensures AllOf(RevokeDefaults(c, d), RevokeDefaultKind)
  {
    forall k: DefaultPrivKey ensures AllOf(RevokeDefaultFn(c, d)(k), RevokeDefaultKind) {}
    AllOfFlatMap(Sorted(c.defaults.Keys + d.defaultAbsences.Keys, DefaultKeyLe), RevokeDefaultFn(c, d),
        RevokeDefaultKind);
  }

  lemma DropsKind(c: RoleGraph, d: RoleGraph)
    ensures AllOf(Drops(c, d), DropKind)
  {
    forall k: string ensures AllOf(DropFn(d)(k), DropKind) {}
    AllOfFlatMap(Sorted(c.roles.Keys, StringLe), DropFn(d), DropKind);
  }

  lemma SplitConcreteKind(c: RoleGraph, d: RoleGraph, k: GrantKey, privileges: Privileges)
    ensures AllOf(SplitConcrete(c, d, k, privileges), RevokeKind)
  {
    forall change | change in SplitConcrete(c, d, k, privileges) ensures KindOf(change) == RevokeKind {
      InSplitConcrete(c, d, k, privileges, change);
    }
  }

  lemma SplitKind(c: RoleGraph, d: RoleGraph, k: GrantKey, privileges: Privileges)
    ensures AllOf(Split(c, d, k, privileges), RevokeKind)
  {
    if Expands(c, k) {
      forall t ensures AllOf(TargetFn(c, d, privileges)(t), RevokeKind) {
        SplitConcreteKind(c, d, t, privileges * HeldOn(c, t));
      }
      AllOfFlatMap(Sorted(Targets(c, k), GrantKeyLe), TargetFn(c, d, privileges), RevokeKind);
    } else {
      SplitConcreteKind(c, d, k, privileges);
    }
  }

  lemma RevokesKind(c: RoleGraph, d: RoleGraph)
    ensures AllOf(Revokes(c, d), RevokeKind)
  {
    forall k ensures AllOf(RevokeFn(c, d)(k), RevokeKind) {
      SplitKind(c, d, k, ToRevoke(c, d, k));
    }
    AllOfFlatMap(Sorted(RevokeMap(c, d).Keys, GrantKeyLe), RevokeFn(c, d), RevokeKind);
    AllOfFilter(AllRevokes(c, d), Kept(c, d), RevokeKind);
  }

  lemma {:induction false} AllOfFilter(xs: seq<Change>, p: Change -> bool, kind: Kind)
    requires AllOf(xs, kind)
    ensures AllOf(Filter(xs, p), kind)
  {
    forall change | change in Filter(xs, p) ensures KindOf(change) == kind {
      InFilter(xs, p, change);
    }
  }

  lemma RemoveAllKind(c: RoleGraph, p: Pair)
    ensures AllOf(RemoveAll(c, p), MemberKind)
  {
    if IsAttributed(c, p) {
      forall g ensures AllOf(RemoveEdgeFn(c, p)(g), MemberKind) {}
      AllOfFlatMap(Sorted(c.edgeGrantors[p], StringLe), RemoveEdgeFn(c, p), MemberKind);
    }
  }

  lemma LowerAllKind(c: RoleGraph, cur: MembershipEdge, des: MembershipEdge, grantors: set<string>)
    ensures AllOf(LowerAll(c, cur, des, grantors), MemberKind)
  {
    forall g ensures AllOf(LowerFn(c, cur, des)(g), MemberKind) {}
    AllOfFlatMap(Sorted(grantors, StringLe), LowerFn(c, cur, des), MemberKind);
  }

  lemma LowerKind(c: RoleGraph, d: RoleGraph, p: Pair)
    ensures AllOf(LowerPairFn(c, d)(p), MemberKind)
  {
    if FlagsDiffer(c, d, p) && IsAttributed(c, p) {
      LowerAllKind(c, EdgeOf(c.memberships, p).value, EdgeOf(d.memberships, p).value, c.edgeGrantors[p]);
    } else {
      RemoveAllKind(c, p);
    }
  }

  lemma StaleKind(c: RoleGraph, d: RoleGraph, p: Pair)
    ensures AllOf(StalePairFn(c, d)(p), MemberKind)
  {
    RemoveAllKind(c, p);
  }

  lemma RaiseKind(c: RoleGraph, p: Pair, cur: MembershipEdge, des: MembershipEdge)
    requires IsAttributed(c, p)
    ensures AllOf(RaiseOf(c, p, cur, des), MemberKind)
  {
  }

  lemma AddKind(c: RoleGraph, d: RoleGraph, p: Pair)
    ensures AllOf(AddPairFn(c, d)(p), MemberKind)
  {
    if FlagsDiffer(c, d, p) && IsAttributed(c, p) {
      RaiseKind(c, p, EdgeOf(c.memberships, p).value, EdgeOf(d.memberships, p).value);
    }
  }

  lemma RemovesKind(c: RoleGraph, d: RoleGraph)
    ensures AllOf(Removes(c, d), MemberKind)
  {
    forall p ensures AllOf(LowerPairFn(c, d)(p), MemberKind) { LowerKind(c, d, p); }
    AllOfFlatMap(Sorted(Pairs(d.memberships), PairLe), LowerPairFn(c, d), MemberKind);
    forall p ensures AllOf(StalePairFn(c, d)(p), MemberKind) { StaleKind(c, d, p); }
    AllOfFlatMap(Sorted(Pairs(c.memberships), PairLe), StalePairFn(c, d), MemberKind);
  }

  lemma AddsKind(c: RoleGraph, d: RoleGraph)
    ensures AllOf(Adds(c, d), MemberKind)
  {
    forall p ensures AllOf(AddPairFn(c, d)(p), MemberKind) { AddKind(c, d, p); }
    AllOfFlatMap(Sorted(Pairs(d.memberships), PairLe), AddPairFn(c, d), MemberKind);
  }

  lemma SectionKinds(c: RoleGraph, d: RoleGraph)
    ensures AllOf(Creates(c, d), Creation)
    ensures AllOf(Alters(c, d), Alteration)
    ensures AllOf(SchemaChanges(c, d), SchemaKind)
    ensures AllOf(OwnerGrants(c, d), OwnerKind)
    ensures AllOf(Grants(c, d), GrantKind)
    ensures AllOf(SetDefaults(c, d), SetDefaultKind)
    ensures AllOf(Revokes(c, d), RevokeKind)
    ensures AllOf(Removes(c, d), MemberKind)
    ensures AllOf(Adds(c, d), MemberKind)
    ensures AllOf(RevokeDefaults(c, d), RevokeDefaultKind)
    ensures AllOf(Drops(c, d), DropKind)
  {
    CreatesKind(c, d);
    AltersKind(c, d);
    SchemaChangesKind(c, d);
    OwnerGrantsKind(c, d);
    GrantsKind(c, d);
    SetDefaultsKind(c, d);
    RevokesKind(c, d);
    RemovesKind(c, d);
    AddsKind(c, d);
    RevokeDefaultsKind(c, d);
    DropsKind(c, d);
  }

  ghost predicate Ignores<S(!new)>(step: (S, Change) -> S, kind: Kind) {
    forall change, s :: KindOf(change) == kind ==> step(s, change) == s
  }

  lemma Skip<S(!new)>(step: (S, Change) -> S, s: S, changes: seq<Change>, kind: Kind)
    requires Ignores(step, kind) && AllOf(changes, kind)
    ensures Fold(step, s, changes) == s
  {
    FoldInert(step, s, changes);
  }

  /** The last stage closes the plan. */
  lemma InFinish(c: RoleGraph, d: RoleGraph, change: Change)
    requires change in Finish(c, d)
    ensures change in PlanFor(c, d)
  {
  }

  lemma DropFinishes(c: RoleGraph, d: RoleGraph, change: Change)
    requires change in Drops(c, d)
    ensures change in Finish(c, d)
  {
  }

  lemma DropIsDrop(c: RoleGraph, d: RoleGraph, change: Change)
    requires change in Drops(c, d)
    ensures change.DropRole?
  {
    DropsKind(c, d);
    assert KindOf(change) == DropKind;
  }

  lemma DropPlanned(c: RoleGraph, d: RoleGraph, change: Change)
    requires change in Drops(c, d)
    ensures change in PlanFor(c, d) && change.DropRole?
  {
    DropFinishes(c, d, change);
    InFinish(c, d, change);
    DropIsDrop(c, d, change);
  }

  // ---- Finding a change in its section ----

  /** Some change of the given kind is about target `k` and privilege `p`. */
  ghost predicate Acts(changes: seq<Change>, kind: Kind, k: GrantKey, p: Privilege) {
    exists change :: change in changes && KindOf(change) == kind && (kind == GrantKind || kind == RevokeKind)
      && change.key == k && p in change.privileges
  }

  lemma ActsConcat(a: seq<Change>, b: seq<Change>, kind: Kind, k: GrantKey, p: Privilege)
    ensures Acts(a + b, kind, k, p) <==> Acts(a, kind, k, p) || Acts(b, kind, k, p)
  {
    assert forall change :: change in a + b <==> change in a || change in b;
  }

  lemma ActsThree(a: seq<Change>, b: seq<Change>, e: seq<Change>, kind: Kind, k: GrantKey, p: Privilege)
    ensures Acts(a + b + e, kind, k, p) <==> Acts(a, kind, k, p) || Acts(b, kind, k, p) || Acts(e, kind, k, p)
  {
    ActsConcat(a + b, e, kind, k, p);
    ActsConcat(a, b, kind, k, p);
  }

  lemma NeverActs(a: seq<Change>, other: Kind, kind: Kind, k: GrantKey, p: Privilege)
    requires AllOf(a, other) && other != kind
    ensures !Acts(a, kind, k, p)
  {
  }

  /** Within a plan, grants come from the grant section and revokes from the revoke section. */
  lemma PlanActs(c: RoleGraph, d: RoleGraph, k: GrantKey, p: Privilege)
    ensures Acts(PlanFor(c, d), GrantKind, k, p) <==> Acts(Grants(c, d), GrantKind, k, p)
    ensures Acts(PlanFor(c, d), RevokeKind, k, p) <==> Acts(Revokes(c, d), RevokeKind, k, p)
  {
    ActsOnly(c, d, GrantKind, k, p);
    ActsOnly(c, d, RevokeKind, k, p);
  }

  lemma ActsOnly(c: RoleGraph, d: RoleGraph, kind: Kind, k: GrantKey, p: Privilege)
    requires kind == GrantKind || kind == RevokeKind
    ensures Acts(PlanFor(c, d), kind, k, p) <==>
      Acts(if kind == GrantKind then Grants(c, d) else Revokes(c, d), kind, k, p)
  {
    SectionKinds(c, d);
    ActsConcat(Prepare(c, d) + Widen(c, d) + Narrow(c, d), Finish(c, d), kind, k, p);
    ActsThree(Prepare(c, d), Widen(c, d), Narrow(c, d), kind, k, p);
    ActsThree(Creates(c, d), Alters(c, d), SchemaChanges(c, d), kind, k, p);
    NeverActs(Creates(c, d), Creation, kind, k, p);
    NeverActs(Alters(c, d), Alteration, kind, k, p);
    NeverActs(SchemaChanges(c, d), SchemaKind, kind, k, p);
    ActsThree(OwnerGrants(c, d), Grants(c, d), SetDefaults(c, d), kind, k, p);
    NeverActs(OwnerGrants(c, d), OwnerKind, kind, k, p);
    NeverActs(SetDefaults(c, d), SetDefaultKind, kind, k, p);
    ActsConcat(Revokes(c, d), Removes(c, d), kind, k, p);
    NeverActs(Removes(c, d), MemberKind, kind, k, p);
    ActsThree(Adds(c, d), RevokeDefaults(c, d), Drops(c, d), kind, k, p);
    NeverActs(Adds(c, d), MemberKind, kind, k, p);
    NeverActs(RevokeDefaults(c, d), RevokeDefaultKind, kind, k, p);
    NeverActs(Drops(c, d), DropKind, kind, k, p);
    if kind == GrantKind {
      NeverActs(Revokes(c, d), RevokeKind, kind, k, p);
    } else {
      NeverActs(Grants(c, d), GrantKind, kind, k, p);
    }
  }
}
