/**
 The order of a plan survives the whole pipeline, and what that order protects.
 */
module PlanOrder {
  import opened Sequences
  import opened Orders
  import opened Model
  import opened Manifest
  import opened Diff
  import opened Sections
  import opened Plan

  /** The stage of a plan a change belongs to. */
  function Rank(change: Change): nat {
    match change
    case CreateRole(_, _) => 0
    case AlterRole(_, _) => 1
    case SetComment(_, _) => 1
    case SetPassword(_, _) => 1
    case CreateSchema(_, _) => 2
    case AlterSchemaOwner(_, _) => 2
    case EnsureSchemaOwnerPrivileges(_, _, _) => 3
    case Grant(_, _) => 4
    case SetDefault(_, _) => 5
    case Revoke(_, _, _) => 6
    case RemoveMember(_, _, _) => 7
    case UpdateMemberOptions(_, _, _, inherit, admin, _) =>
      if inherit == Some(false) || admin == Some(false) then 7 else 8
    case AddMember(_, _, _, _) => 8
    case RevokeDefault(_, _) => 9
    case _ => 10
  }

  /** Changes come stage by stage. */
  ghost predicate Ranked(changes: seq<Change>) {
    forall i, j :: 0 <= i < j < |changes| ==> Rank(changes[i]) <= Rank(changes[j])
  }

  ghost predicate Level(changes: seq<Change>, rank: nat) {
    forall change :: change in changes ==> Rank(change) == rank
  }

  ghost predicate Between(changes: seq<Change>, lo: nat, hi: nat) {
    Ranked(changes) && forall change :: change in changes ==> lo <= Rank(change) <= hi
  }

  lemma LevelBetween(changes: seq<Change>, rank: nat)
    requires Level(changes, rank)
    ensures Between(changes, rank, rank)
  {
  }

  lemma BetweenConcat(a: seq<Change>, b: seq<Change>, lo: nat, mid: nat, mid': nat, hi: nat)
    requires Between(a, lo, mid) && Between(b, mid', hi) && mid <= mid' && lo <= mid' && mid <= hi
    ensures Between(a + b, lo, hi)
  {
    forall i, j | 0 <= i < j < |a + b| ensures Rank((a + b)[i]) <= Rank((a + b)[j]) {
      if i < |a| <= j {
        assert a[i] in a && b[j - |a|] in b;
      }
    }
  }

  lemma ThreeStages(x: seq<Change>, y: seq<Change>, z: seq<Change>, rank: nat)
    requires Between(x, rank, rank) && Between(y, rank + 1, rank + 1) && Between(z, rank + 2, rank + 2)
    ensures Between(x + y + z, rank, rank + 2)
  {
    BetweenConcat(x, y, rank, rank, rank + 1, rank + 1);
    BetweenConcat(x + y, z, rank, rank + 1, rank + 2, rank + 2);
  }

  /** The stage of a change by its kind, memberships aside. */
  lemma RankOfKind(change: Change)
    ensures KindOf(change) == Creation ==> Rank(change) == 0
    ensures KindOf(change) == Alteration ==> Rank(change) == 1
    ensures KindOf(change) == SchemaKind ==> Rank(change) == 2
    ensures KindOf(change) == OwnerKind ==> Rank(change) == 3
    ensures KindOf(change) == GrantKind ==> Rank(change) == 4
    ensures KindOf(change) == SetDefaultKind ==> Rank(change) == 5
    ensures KindOf(change) == RevokeKind ==> Rank(change) == 6
    ensures KindOf(change) == RevokeDefaultKind ==> Rank(change) == 9
    ensures KindOf(change) == DropKind ==> Rank(change) == 10
  {
  }

  lemma ReductionRank(change: Change)
    requires change.RemoveMember?
      || (change.UpdateMemberOptions? && (change.setInherit == Some(false) || change.setAdmin == Some(false)))
    ensures Rank(change) == 7
  {
  }

  lemma RemovesLevel(c: RoleGraph, d: RoleGraph)
    ensures Between(Removes(c, d), 7, 7)
  {
    forall change | change in Removes(c, d) ensures Rank(change) == 7 {
      InRemoves(c, d, change);
      ReductionRank(change);
    }
    LevelBetween(Removes(c, d), 7);
  }

  lemma AddPairLevel(c: RoleGraph, d: RoleGraph, p: Pair)
    ensures Level(AddPairFn(c, d)(p), 8) && AllOneWay(AddPairFn(c, d)(p))
  {
    forall change | change in AddPairFn(c, d)(p) ensures Rank(change) == 8 && OneWay(change) {
      InAddPair(c, d, p, change);
    }
  }

  lemma AddsLevel(c: RoleGraph, d: RoleGraph)
    ensures Between(Adds(c, d), 8, 8) && AllOneWay(Adds(c, d))
  {
    var pairs := Sorted(Pairs(d.memberships), PairLe);
    forall change | change in FlatMap(pairs, AddPairFn(c, d)) ensures Rank(change) == 8 && OneWay(change) {
      InFlatMap(pairs, AddPairFn(c, d), change);
      var p :| p in pairs && change in AddPairFn(c, d)(p);
      AddPairLevel(c, d, p);
    }
    LevelBetween(Adds(c, d), 8);
  }

  lemma CreatesLevel(c: RoleGraph, d: RoleGraph)
    ensures Between(Creates(c, d), 0, 0)
  {
    forall change | change in Creates(c, d) ensures Rank(change) == 0 {
      CreateRank(c, d, change);
    }
    LevelBetween(Creates(c, d), 0);
  }

  lemma CreateRank(c: RoleGraph, d: RoleGraph, change: Change)
    requires change in Creates(c, d)
    ensures Rank(change) == 0
  {
    CreatesKind(c, d);
    RankOfKind(change);
  }

  lemma AltersLevel(c: RoleGraph, d: RoleGraph)
    ensures Between(Alters(c, d), 1, 1)
  {
    forall change | change in Alters(c, d) ensures Rank(change) == 1 {
      AlterRank(c, d, change);
    }
    LevelBetween(Alters(c, d), 1);
  }

  lemma AlterRank(c: RoleGraph, d: RoleGraph, change: Change)
    requires change in Alters(c, d)
    ensures Rank(change) == 1
  {
    AltersKind(c, d);
    RankOfKind(change);
  }

  lemma SchemaChangesLevel(c: RoleGraph, d: RoleGraph)
    ensures Between(SchemaChanges(c, d), 2, 2)
  {
    forall change | change in SchemaChanges(c, d) ensures Rank(change) == 2 {
      SchemaChangeRank(c, d, change);
    }
    LevelBetween(SchemaChanges(c, d), 2);
  }

  lemma SchemaChangeRank(c: RoleGraph, d: RoleGraph, change: Change)
    requires change in SchemaChanges(c, d)
    ensures Rank(change) == 2
  {
    SchemaChangesKind(c, d);
    RankOfKind(change);
  }

  lemma OwnerGrantsLevel(c: RoleGraph, d: RoleGraph)
    ensures Between(OwnerGrants(c, d), 3, 3)
  {
    forall change | change in OwnerGrants(c, d) ensures Rank(change) == 3 {
      OwnerGrantRank(c, d, change);
    }
    LevelBetween(OwnerGrants(c, d), 3);
  }

  lemma OwnerGrantRank(c: RoleGraph, d: RoleGraph, change: Change)
    requires change in OwnerGrants(c, d)
    ensures Rank(change) == 3
  {
    OwnerGrantsKind(c, d);
    RankOfKind(change);
  }

  lemma GrantsLevel(c: RoleGraph, d: RoleGraph)
    ensures Between(Grants(c, d), 4, 4)
  {
    forall change | change in Grants(c, d) ensures Rank(change) == 4 {
      GrantRank(c, d, change);
    }
    LevelBetween(Grants(c, d), 4);
  }

  lemma GrantRank(c: RoleGraph, d: RoleGraph, change: Change)
    requires change in Grants(c, d)
    ensures Rank(change) == 4
  {
    GrantsKind(c, d);
    RankOfKind(change);
  }

  lemma SetDefaultsLevel(c: RoleGraph, d: RoleGraph)
    ensures Between(SetDefaults(c, d), 5, 5)
  {
    forall change | change in SetDefaults(c, d) ensures Rank(change) == 5 {
      SetDefaultRank(c, d, change);
    }
    LevelBetween(SetDefaults(c, d), 5);
  }

  lemma SetDefaultRank(c: RoleGraph, d: RoleGraph, change: Change)
    requires change in SetDefaults(c, d)
    ensures Rank(change) == 5
  {
    SetDefaultsKind(c, d);
    RankOfKind(change);
  }

  lemma RevokesLevel(c: RoleGraph, d: RoleGraph)
    ensures Between(Revokes(c, d), 6, 6)
  {
    forall change | change in Revokes(c, d) ensures Rank(change) == 6 {
      RevokeRank(c, d, change);
    }
    LevelBetween(Revokes(c, d), 6);
  }

  lemma RevokeRank(c: RoleGraph, d: RoleGraph, change: Change)
    requires change in Revokes(c, d)
    ensures Rank(change) == 6
  {
    RevokesKind(c, d);
    RankOfKind(change);
  }

  lemma RevokeDefaultsLevel(c: RoleGraph, d: RoleGraph)
    ensures Between(RevokeDefaults(c, d), 9, 9)
  {
    forall change | change in RevokeDefaults(c, d) ensures Rank(change) == 9 {
      RevokeDefaultRank(c, d, change);
    }
    LevelBetween(RevokeDefaults(c, d), 9);
  }

  lemma RevokeDefaultRank(c: RoleGraph, d: RoleGraph, change: Change)
    requires change in RevokeDefaults(c, d)
    ensures Rank(change) == 9
  {
    RevokeDefaultsKind(c, d);
    RankOfKind(change);
  }

  lemma DropsLevel(c: RoleGraph, d: RoleGraph)
    ensures Between(Drops(c, d), 10, 10)
  {
    forall change | change in Drops(c, d) ensures Rank(change) == 10 {
      DropRank(c, d, change);
    }
    LevelBetween(Drops(c, d), 10);
  }

  lemma DropRank(c: RoleGraph, d: RoleGraph, change: Change)
    requires change in Drops(c, d)
    ensures Rank(change) == 10
  {
    DropsKind(c, d);
    RankOfKind(change);
  }

  lemma AddsBetween(c: RoleGraph, d: RoleGraph)
    ensures Between(Adds(c, d), 8, 8)
  {
    AddsLevel(c, d);
  }

  lemma PrepareRanked(c: RoleGraph, d: RoleGraph)
    ensures Between(Prepare(c, d), 0, 2)
  {
    CreatesLevel(c, d);
    AltersLevel(c, d);
    SchemaChangesLevel(c, d);
    ThreeStages(Creates(c, d), Alters(c, d), SchemaChanges(c, d), 0);
  }

  lemma WidenRanked(c: RoleGraph, d: RoleGraph)
    ensures Between(Widen(c, d), 3, 5)
  {
    OwnerGrantsLevel(c, d);
    GrantsLevel(c, d);
    SetDefaultsLevel(c, d);
    ThreeStages(OwnerGrants(c, d), Grants(c, d), SetDefaults(c, d), 3);
  }

  lemma NarrowRanked(c: RoleGraph, d: RoleGraph)
    ensures Between(Narrow(c, d), 6, 7)
  {
    RevokesLevel(c, d);
    RemovesLevel(c, d);
    BetweenConcat(Revokes(c, d), Removes(c, d), 6, 6, 7, 7);
  }

  lemma FinishRanked(c: RoleGraph, d: RoleGraph)
    ensures Between(Finish(c, d), 8, 10)
  {
    AddsBetween(c, d);
    RevokeDefaultsLevel(c, d);
    DropsLevel(c, d);
    ThreeStages(Adds(c, d), RevokeDefaults(c, d), Drops(c, d), 8);
  }

  lemma DiffRanked(c: RoleGraph, d: RoleGraph)
    ensures Ranked(PlanFor(c, d))
  {
    PrepareRanked(c, d);
    WidenRanked(c, d);
    NarrowRanked(c, d);
    FinishRanked(c, d);
    BetweenConcat(Prepare(c, d), Widen(c, d), 0, 2, 3, 5);
    BetweenConcat(Prepare(c, d) + Widen(c, d), Narrow(c, d), 0, 5, 6, 7);
    BetweenConcat(Prepare(c, d) + Widen(c, d) + Narrow(c, d), Finish(c, d), 0, 7, 8, 10);
  }

  // ---- Filters keep the stages ----

  /** Each change is replaced by changes of its own stage. */
  ghost predicate KeepsRank(xs: seq<Change>, f: Change -> seq<Change>) {
    forall x, y :: x in xs && y in f(x) ==> Rank(y) == Rank(x)
  }

  /** Each replacement is itself in order because it stays on one stage. */
  lemma {:induction false} RankedFlatMap(xs: seq<Change>, f: Change -> seq<Change>)
    requires Ranked(xs) && KeepsRank(xs, f)
    ensures Ranked(FlatMap(xs, f))
  {
    if xs != [] {
      var init, last := xs[..|xs| - 1], xs[|xs| - 1];
      assert xs == init + [last] && last in xs;
      assert forall x :: x in init ==> x in xs;
      RankedFlatMap(init, f);
      var a, b := FlatMap(init, f), f(last);
      forall i, j | 0 <= i < j < |a + b| ensures Rank((a + b)[i]) <= Rank((a + b)[j]) {
        if i < |a| <= j {
          InFlatMap(init, f, a[i]);
          assert a[i] in a && b[j - |a|] in b;
        } else if |a| <= i {
          assert b[i - |a|] in b && b[j - |a|] in b;
        }
      }
    }
  }

  /** An unbound option intent that does not both raise and lower, as the planner emits them. */
  predicate OneWay(change: Change) {
    change.UpdateMemberOptions? ==>
      change.binding.None? &&
      !((change.setInherit == Some(false) || change.setAdmin == Some(false))
        && (change.setInherit == Some(true) || change.setAdmin == Some(true)))
  }

  ghost predicate AllOneWay(changes: seq<Change>) {
    forall change :: change in changes ==> OneWay(change)
  }

  lemma RetireKeeps(xs: seq<Change>, retirements: seq<Retirement>)
    ensures KeepsRank(xs, RetireFn(retirements))
  {
    forall x, y | x in xs && y in RetireFn(retirements)(x) ensures Rank(y) == Rank(x) {
      RetiredRank(retirements, x, y);
    }
  }

  /** A cleanup step stands on the stage of the drop it prepares. */
  lemma RetiredRank(retirements: seq<Retirement>, x: Change, y: Change)
    requires y in RetireFn(retirements)(x)
    ensures Rank(y) == Rank(x)
  {
  }

  lemma AdditiveKeeps(xs: seq<Change>, all: seq<Change>)
    requires AllOneWay(xs)
    ensures KeepsRank(xs, AdditiveFn(all))
  {
    forall x, y | x in xs && y in AdditiveFn(all)(x) ensures Rank(y) == Rank(x) {
      if x.UpdateMemberOptions? {
        RaisingHalf(x, y, all);
      }
    }
  }

  lemma RaisingHalf(x: Change, y: Change, all: seq<Change>)
    requires x.UpdateMemberOptions? && OneWay(x) && y in AdditiveFn(all)(x)
    ensures Rank(x) == Rank(y) == 8 && y == x
  {
    KeptRaise(x.setInherit);
    KeptRaise(x.setAdmin);
  }

  lemma KeptRaise(o: Option<bool>)
    ensures KeepRaise(o) == (if o == Some(true) then o else None)
    ensures o.None? || o == Some(true) || o == Some(false)
  {
    if o.Some? && o.value {
      assert o == Some(true);
    } else if o.Some? {
      assert o == Some(false);
    }
  }

  lemma PreservedLevel(d: RoleGraph, k: GrantKey, privileges: Privileges, grantor: Option<string>, y: Change)
    requires y in PreservedRevoke(d, k, privileges, grantor)
    ensures y.Revoke? && InScope(y.key, k) && y.grantor == grantor && y.privileges <= privileges
  {
    if IsStar(k) {
      var wild := privileges * Lookup(d.grantAbsences, Star(k));
      InFlatMap(Sorted(ExactAbsences(d, k), GrantKeyLe), ExactFn(d, privileges - wild, grantor), y);
    }
  }

  lemma PreserveKeeps(xs: seq<Change>, roles: seq<RoleDefinition>, d: RoleGraph)
    ensures KeepsRank(xs, PreserveFn(roles, d))
  {
    forall x, y | x in xs && y in PreserveFn(roles, d)(x) ensures Rank(y) == Rank(x) {
      PreservedRank(roles, d, x, y);
    }
  }

  lemma PreservedRank(roles: seq<RoleDefinition>, d: RoleGraph, x: Change, y: Change)
    requires y in PreserveFn(roles, d)(x)
    ensures Rank(y) == Rank(x)
  {
    if x.Revoke? && Preserves(roles, x.key.role.AsString()) {
      PreservedLevel(d, x.key, x.privileges, x.grantor, y);
    }
  }

  lemma {:induction false} OneWayFlatMap(xs: seq<Change>, f: Change -> seq<Change>)
    requires forall x, y :: x in xs && y in f(x) ==> OneWay(y)
    ensures AllOneWay(FlatMap(xs, f))
  {
    forall y | y in FlatMap(xs, f) ensures OneWay(y) {
      InFlatMap(xs, f, y);
    }
  }

  lemma LowerOneWay(c: RoleGraph, cur: MembershipEdge, des: MembershipEdge, grantors: set<string>, change: Change)
    requires change in LowerAll(c, cur, des, grantors)
    ensures OneWay(change)
  {
    InFlatMap(Sorted(grantors, StringLe), LowerFn(c, cur, des), change);
  }

  lemma RemoveOneWay(c: RoleGraph, d: RoleGraph, p: Pair, change: Change)
    requires change in LowerPairFn(c, d)(p) || change in StalePairFn(c, d)(p)
    ensures OneWay(change)
  {
    InRemoveAll(c, p, change);
    if change in LowerPairFn(c, d)(p) && FlagsDiffer(c, d, p) && IsAttributed(c, p) {
      LowerOneWay(c, EdgeOf(c.memberships, p).value, EdgeOf(d.memberships, p).value, c.edgeGrantors[p], change);
    }
  }

  lemma RemovesOneWay(c: RoleGraph, d: RoleGraph)
    ensures AllOneWay(Removes(c, d))
  {
    forall change | change in Removes(c, d) ensures OneWay(change) {
      InFlatMap(Sorted(Pairs(d.memberships), PairLe), LowerPairFn(c, d), change);
      InFlatMap(Sorted(Pairs(c.memberships), PairLe), StalePairFn(c, d), change);
      var p :| change in LowerPairFn(c, d)(p) || change in StalePairFn(c, d)(p);
      RemoveOneWay(c, d, p, change);
    }
  }

  lemma KindOneWay(changes: seq<Change>, kind: Kind)
    requires AllOf(changes, kind) && kind != MemberKind
    ensures AllOneWay(changes)
  {
    forall change | change in changes ensures OneWay(change) {
      assert KindOf(change) != MemberKind;
    }
  }

  lemma OneWayConcat(a: seq<Change>, b: seq<Change>)
    requires AllOneWay(a) && AllOneWay(b)
    ensures AllOneWay(a + b)
  {
  }

  lemma DiffOneWay(c: RoleGraph, d: RoleGraph)
    ensures AllOneWay(PlanFor(c, d))
  {
    SectionKinds(c, d);
    KindOneWay(Creates(c, d), Creation);
    KindOneWay(Alters(c, d), Alteration);
    KindOneWay(SchemaChanges(c, d), SchemaKind);
    OneWayConcat(Creates(c, d), Alters(c, d));
    OneWayConcat(Creates(c, d) + Alters(c, d), SchemaChanges(c, d));
    KindOneWay(OwnerGrants(c, d), OwnerKind);
    KindOneWay(Grants(c, d), GrantKind);
    KindOneWay(SetDefaults(c, d), SetDefaultKind);
    OneWayConcat(OwnerGrants(c, d), Grants(c, d));
    OneWayConcat(OwnerGrants(c, d) + Grants(c, d), SetDefaults(c, d));
    KindOneWay(Revokes(c, d), RevokeKind);
    RemovesOneWay(c, d);
    OneWayConcat(Revokes(c, d), Removes(c, d));
    AddsLevel(c, d);
    KindOneWay(RevokeDefaults(c, d), RevokeDefaultKind);
    KindOneWay(Drops(c, d), DropKind);
    OneWayConcat(Adds(c, d), RevokeDefaults(c, d));
    OneWayConcat(Adds(c, d) + RevokeDefaults(c, d), Drops(c, d));
    OneWayConcat(Prepare(c, d), Widen(c, d));
    OneWayConcat(Prepare(c, d) + Widen(c, d), Narrow(c, d));
    OneWayConcat(Prepare(c, d) + Widen(c, d) + Narrow(c, d), Finish(c, d));
  }

  // ---- The whole pipeline ----

  lemma ExternalKeeps(xs: seq<Change>, roles: seq<RoleDefinition>, memberships: seq<MembershipRule>)
    ensures KeepsRank(xs, ExternalFn(roles, memberships))
  {
  }

  lemma ModeRanked(changes: seq<Change>, mode: Mode)
    requires Ranked(changes) && AllOneWay(changes)
    ensures Ranked(FilterMode(changes, mode))
  {
    match mode
    case Authoritative =>
    case Additive =>
      AdditiveKeeps(changes, changes);
      RankedFlatMap(changes, AdditiveFn(changes));
    case Adopt =>
      assert KeepsRank(changes, AdoptFn());
      RankedFlatMap(changes, AdoptFn());
  }

  lemma RetireOneWay(changes: seq<Change>, retirements: seq<Retirement>)
    requires AllOneWay(changes)
    ensures AllOneWay(WithRetirements(changes, retirements))
  {
    OneWayFlatMap(changes, RetireFn(retirements));
  }

  /**
   Whatever the mode, the retirements and the filters, a plan creates, alters,
   places schemas, restores owners, grants, sets defaults, revokes object
   privileges, removes memberships and lowers options, adds memberships and
   raises options, revokes defaults and drops roles, in this order.
   */
  lemma PlanIsRanked(c: RoleGraph, d: RoleGraph, e: Expanded, retirements: seq<Retirement>, mode: Mode)
    ensures Ranked(PlanChanges(c, d, e, retirements, mode))
  {
    var resolved := Resolve(d, c.routineAliases);
    var changes := DiffOf(c, resolved);
    DiffRanked(c, Resolve(resolved, c.routineAliases));
    DiffOneWay(c, Resolve(resolved, c.routineAliases));
    RetireKeeps(changes, retirements);
    RankedFlatMap(changes, RetireFn(retirements));
    RetireOneWay(changes, retirements);
    var retired := WithRetirements(changes, retirements);
    ModeRanked(retired, mode);
    var inMode := FilterMode(retired, mode);
    ExternalKeeps(inMode, e.roles, e.memberships);
    RankedFlatMap(inMode, ExternalFn(e.roles, e.memberships));
    var managed := FilterExternal(inMode, e);
    PreserveKeeps(managed, e.roles, resolved);
    RankedFlatMap(managed, PreserveFn(e.roles, resolved));
  }

  lemma ModeOneWay(changes: seq<Change>, mode: Mode)
    requires AllOneWay(changes)
    ensures AllOneWay(FilterMode(changes, mode))
  {
    match mode
    case Authoritative =>
    case Additive =>
      forall x, y | x in changes && y in AdditiveFn(changes)(x) ensures OneWay(y) {
        if x.UpdateMemberOptions? {
          RaisingHalf(x, y, changes);
        }
      }
      OneWayFlatMap(changes, AdditiveFn(changes));
    case Adopt => OneWayFlatMap(changes, AdoptFn());
  }

  lemma PreserveOneWay(changes: seq<Change>, roles: seq<RoleDefinition>, d: RoleGraph)
    requires AllOneWay(changes)
    ensures AllOneWay(FlatMap(changes, PreserveFn(roles, d)))
  {
    forall x, y | x in changes && y in PreserveFn(roles, d)(x) ensures OneWay(y) {
      if x.Revoke? && Preserves(roles, x.key.role.AsString()) {
        PreservedLevel(d, x.key, x.privileges, x.grantor, y);
      }
    }
    OneWayFlatMap(changes, PreserveFn(roles, d));
  }

  /** No option update of a canonical plan both raises and lowers. */
  lemma PlanIsOneWay(c: RoleGraph, d: RoleGraph, e: Expanded, retirements: seq<Retirement>, mode: Mode)
    ensures AllOneWay(PlanChanges(c, d, e, retirements, mode))
  {
    var resolved := Resolve(d, c.routineAliases);
    var changes := DiffOf(c, resolved);
    DiffOneWay(c, Resolve(resolved, c.routineAliases));
    FilteredOneWay(changes, e, retirements, mode, resolved);
  }

  lemma FilteredOneWay(changes: seq<Change>, e: Expanded, retirements: seq<Retirement>, mode: Mode, d: RoleGraph)
    requires AllOneWay(changes)
    ensures AllOneWay(Filtered(changes, e, retirements, mode, d))
  {
    RetireOneWay(changes, retirements);
    var retired := WithRetirements(changes, retirements);
    ModeOneWay(retired, mode);
    var inMode := FilterMode(retired, mode);
    OneWayFlatMap(inMode, ExternalFn(e.roles, e.memberships));
    PreserveOneWay(FilterExternal(inMode, e), e.roles, d);
  }

  // ---- Retirement steps stay with their drop ----

  /** Filters treat a drop and its cleanup steps alike. */
  ghost predicate Commutes(f: Change -> seq<Change>, retirements: seq<Retirement>, x: Change) {
    FlatMap(RetireFn(retirements)(x), f) == FlatMap(f(x), RetireFn(retirements))
  }

  lemma CleanupKinds(retirements: seq<Retirement>, role: string, change: Change)
    requires change in Cleanup(retirements, role)
    ensures (change.TerminateSessions? || change.ReassignOwned? || change.DropOwned?) && change.role == role
  {
  }

  lemma {:induction false} KeepAll<A>(xs: seq<A>, f: A -> seq<A>)
    requires forall x :: x in xs ==> f(x) == [x]
    ensures FlatMap(xs, f) == xs
  {
    if xs != [] {
      assert forall x :: x in xs[..|xs| - 1] ==> x in xs;
      assert xs[|xs| - 1] in xs;
      KeepAll(xs[..|xs| - 1], f);
      assert xs == xs[..|xs| - 1] + [xs[|xs| - 1]];
    }
  }

  /** A change that is no drop passes retirement unchanged, and so do its replacements. */
  lemma OtherCommutes(f: Change -> seq<Change>, retirements: seq<Retirement>, x: Change)
    requires !x.DropRole? && forall y :: y in f(x) ==> !y.DropRole?
    ensures Commutes(f, retirements, x)
  {
    FlatMapOne(x, f);
    KeepAll(f(x), RetireFn(retirements));
  }

  /** A filter that keeps, or that drops, the whole block. */
  lemma DropCommutes(f: Change -> seq<Change>, retirements: seq<Retirement>, x: Change)
    requires x.DropRole?
    requires (forall y :: y == x || y in Cleanup(retirements, x.name) ==> f(y) == [y])
          || (forall y :: y == x || y in Cleanup(retirements, x.name) ==> f(y) == [])
    ensures Commutes(f, retirements, x)
  {
    var block := RetireFn(retirements)(x);
    assert forall y :: y in block <==> y == x || y in Cleanup(retirements, x.name);
    if f(x) == [x] {
      KeepAll(block, f);
      FlatMapOne(x, RetireFn(retirements));
    } else {
      FlatMapNone(block, f);
    }
  }

  lemma ExternalCommutes(e: Expanded, retirements: seq<Retirement>, x: Change)
    ensures Commutes(ExternalFn(e.roles, e.memberships), retirements, x)
  {
    var f := ExternalFn(e.roles, e.memberships);
    if x.DropRole? {
      forall y | y == x || y in Cleanup(retirements, x.name)
        ensures f(y) == if Unmanaged(e.roles, x.name) then [] else [y]
      {
        if y != x {
          CleanupKinds(retirements, x.name, y);
        }
      }
      DropCommutes(f, retirements, x);
    } else {
      OtherCommutes(f, retirements, x);
    }
  }

  lemma PreserveCommutes(e: Expanded, d: RoleGraph, retirements: seq<Retirement>, x: Change)
    ensures Commutes(PreserveFn(e.roles, d), retirements, x)
  {
    var f := PreserveFn(e.roles, d);
    if x.DropRole? {
      forall y | y == x || y in Cleanup(retirements, x.name) ensures f(y) == [y] {
        if y != x {
          CleanupKinds(retirements, x.name, y);
        }
      }
      DropCommutes(f, retirements, x);
    } else {
      forall y | y in f(x) ensures !y.DropRole? {
        if x.Revoke? && Preserves(e.roles, x.key.role.AsString()) {
          PreservedLevel(d, x.key, x.privileges, x.grantor, y);
        }
      }
      OtherCommutes(f, retirements, x);
    }
  }

  lemma BlockDestroyed(retirements: seq<Retirement>, all: seq<Change>, x: Change, y: Change)
    requires x.DropRole? && (y == x || y in Cleanup(retirements, x.name))
    ensures AdditiveFn(all)(y) == [] && AdoptFn()(y) == []
  {
    if y != x {
      CleanupKinds(retirements, x.name, y);
    }
  }

  lemma ModeCommutes(all: seq<Change>, retirements: seq<Retirement>, x: Change)
    ensures Commutes(AdditiveFn(all), retirements, x) && Commutes(AdoptFn(), retirements, x)
  {
    if x.DropRole? {
      forall y | y == x || y in Cleanup(retirements, x.name)
        ensures AdditiveFn(all)(y) == [] && AdoptFn()(y) == []
      {
        BlockDestroyed(retirements, all, x, y);
      }
      DropCommutes(AdditiveFn(all), retirements, x);
      DropCommutes(AdoptFn(), retirements, x);
    } else {
      OtherCommutes(AdditiveFn(all), retirements, x);
      OtherCommutes(AdoptFn(), retirements, x);
    }
  }

  /** Retirement adds no creation and no transfer, so additive filtering sees the same ones. */
  lemma SameContext(changes: seq<Change>, retirements: seq<Retirement>, x: Change)
    ensures AdditiveFn(WithRetirements(changes, retirements))(x) == AdditiveFn(changes)(x)
  {
    forall y: Change | y.CreateRole? || y.AlterSchemaOwner?
      ensures y in WithRetirements(changes, retirements) <==> y in changes
    {
      RetiredMember(changes, retirements, y);
    }
  }

  lemma RetiredMember(changes: seq<Change>, retirements: seq<Retirement>, y: Change)
    requires y.CreateRole? || y.AlterSchemaOwner?
    ensures y in WithRetirements(changes, retirements) <==> y in changes
  {
    InFlatMap(changes, RetireFn(retirements), y);
    if x :| x in changes && y in RetireFn(retirements)(x) {
      if x.DropRole? && y in Cleanup(retirements, x.name) {
        CleanupKinds(retirements, x.name, y);
      }
    }
    assert y in changes ==> y in RetireFn(retirements)(y);
  }

  lemma RetireModeCommute(changes: seq<Change>, retirements: seq<Retirement>, mode: Mode)
    ensures FilterMode(WithRetirements(changes, retirements), mode)
         == WithRetirements(FilterMode(changes, mode), retirements)
  {
    var retired := WithRetirements(changes, retirements);
    match mode
    case Authoritative =>
    case Additive =>
      forall x | x in retired ensures AdditiveFn(retired)(x) == AdditiveFn(changes)(x) {
        SameContext(changes, retirements, x);
      }
      FlatMapSame(retired, AdditiveFn(retired), AdditiveFn(changes));
      forall x | x in changes ensures Commutes(AdditiveFn(changes), retirements, x) {
        ModeCommutes(changes, retirements, x);
      }
      FlatMapCommute(changes, RetireFn(retirements), AdditiveFn(changes));
    case Adopt =>
      forall x | x in changes ensures Commutes(AdoptFn(), retirements, x) {
        ModeCommutes(changes, retirements, x);
      }
      FlatMapCommute(changes, RetireFn(retirements), AdoptFn());
  }

  lemma {:induction false} NoRetirements(changes: seq<Change>)
    ensures WithRetirements(changes, []) == changes
  {
    forall x ensures RetireFn([])(x) == [x] {
      assert [] + [x] == [x];
    }
    KeepAll(changes, RetireFn([]));
  }

  /**
   Retiring first and filtering afterwards is the same as filtering first and
   retiring afterwards: every cleanup step sits immediately before the drop it
   serves, and a drop that is filtered out takes its cleanup along.
   */
  lemma RetirementStaysWithDrop(changes: seq<Change>, e: Expanded, retirements: seq<Retirement>, mode: Mode,
                                d: RoleGraph)
    ensures Filtered(changes, e, retirements, mode, d)
         == WithRetirements(Filtered(changes, e, [], mode, d), retirements)
  {
    NoRetirements(changes);
    RetireModeCommute(changes, retirements, mode);
    var inMode := FilterMode(changes, mode);
    var r := RetireFn(retirements);
    forall x | x in inMode ensures Commutes(ExternalFn(e.roles, e.memberships), retirements, x) {
      ExternalCommutes(e, retirements, x);
    }
    FlatMapCommute(inMode, r, ExternalFn(e.roles, e.memberships));
    var managed := FilterExternal(inMode, e);
    forall x | x in managed ensures Commutes(PreserveFn(e.roles, d), retirements, x) {
      PreserveCommutes(e, d, retirements, x);
    }
    FlatMapCommute(managed, r, PreserveFn(e.roles, d));
  }
}
