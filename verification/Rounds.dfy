/**
 One round of planning and applying, seen from roles, schemas and default
 privileges.
 */
module Rounds {
  import opened Sequences
  import opened Orders
  import opened Model
  import opened Roles
  import opened Diff
  import opened Steps
  import opened Views
  import opened Sections

  ghost function Round(c: RoleGraph, d: RoleGraph): RoleGraph {
    Run(c, PlanFor(c, d))
  }

  /** No change touches owner-inherent tags, executor edges or aliases. */
  lemma {:induction false} RunKeeps(g: RoleGraph, changes: seq<Change>)
    ensures Run(g, changes).inherent == g.inherent && Run(g, changes).executorEdges == g.executorEdges
    ensures Run(g, changes).routineAliases == g.routineAliases
  {
    if changes != [] {
      RunKeeps(g, changes[..|changes| - 1]);
    }
  }

  // ---- Roles: one round installs the declared roles ----

  lemma RoleStepIgnores(n: string)
    ensures var step := RoleStep(n);
      && Ignores(step, SchemaKind) && Ignores(step, OwnerKind) && Ignores(step, GrantKind)
      && Ignores(step, SetDefaultKind) && Ignores(step, RevokeKind) && Ignores(step, MemberKind)
      && Ignores(step, RevokeDefaultKind)
  {
  }

  lemma RoleSections(c: RoleGraph, d: RoleGraph, n: string, v: Option<RoleState>)
    ensures Fold(RoleStep(n), v, PlanFor(c, d))
         == Fold(RoleStep(n), Fold(RoleStep(n), Fold(RoleStep(n), v, Creates(c, d)), Alters(c, d)), Drops(c, d))
  {
    var step := RoleStep(n);
    FoldSections(step, v, c, d);
    SectionKinds(c, d);
    RoleStepIgnores(n);
    var v1 := Fold(step, Fold(step, v, Creates(c, d)), Alters(c, d));
    Skip(step, v1, SchemaChanges(c, d), SchemaKind);
    Skip(step, v1, OwnerGrants(c, d), OwnerKind);
    Skip(step, v1, Grants(c, d), GrantKind);
    Skip(step, v1, SetDefaults(c, d), SetDefaultKind);
    Skip(step, v1, Revokes(c, d), RevokeKind);
    Skip(step, v1, Removes(c, d), MemberKind);
    Skip(step, v1, Adds(c, d), MemberKind);
    Skip(step, v1, RevokeDefaults(c, d), RevokeDefaultKind);
  }

  lemma CreateLocal(c: RoleGraph, d: RoleGraph, n: string, m: string)
    requires m != n
    ensures Inert(RoleStep(n), CreateFn(c, d)(m)) && Inert(RoleStep(n), DropFn(d)(m))
  {
  }

  lemma AlterLocal(c: RoleGraph, d: RoleGraph, n: string, m: string)
    requires m != n
    ensures Inert(RoleStep(n), AlterFn(c, d)(m))
  {
    forall change, s | change in AlterFn(c, d)(m) ensures RoleStep(n)(s, change) == s {
      AltersNamed(c, d, m, change);
    }
  }

  lemma AltersNamed(c: RoleGraph, d: RoleGraph, m: string, change: Change)
    requires change in AlterFn(c, d)(m)
    ensures (change.AlterRole? || change.SetComment?) && change.name == m
  {
    if m in c.roles {
      ExistingNamed(m, c.roles[m], d.roles[m], change);
    }
  }

  lemma ExistingNamed(m: string, from: RoleState, to: RoleState, change: Change)
    requires change in AlterExisting(m, from, to)
    ensures (change.AlterRole? || change.SetComment?) && change.name == m
  {
    assert change in AttributeChanges(m, from, to) || change in CommentChanges(m, from, to);
  }

  lemma OwnSetting(state: RoleState, p: string)
    requires p in state.config
    ensures ApplyAttribute(state, SetConfig(p, state.config[p])) == state
  {
    assert state.config[p := state.config[p]] == state.config;
  }

  lemma {:induction false} OwnSettings(state: RoleState, xs: seq<string>)
    requires forall p :: p in xs ==> p in state.config
    ensures ApplyAttributes(state, FlatMap(xs, ConfigFn(state))) == state
  {
    if xs != [] {
      var init, last := xs[..|xs| - 1], xs[|xs| - 1];
      assert last in xs && forall p :: p in init ==> p in xs;
      OwnSettings(state, init);
      OwnSetting(state, last);
      ApplyPush(state, FlatMap(init, ConfigFn(state)), SetConfig(last, state.config[last]));
    }
  }

  lemma AttributesReach(n: string, from: RoleState, to: RoleState)
    ensures Fold(RoleStep(n), Some(from), AttributeChanges(n, from, to)) == Some(to.(comment := from.comment))
  {
    DeltaReaches(from, to);
    DeltaEmpty(from, to);
    if Delta(from, to) != [] {
      FoldSingle(RoleStep(n), Some(from), AlterRole(n, Delta(from, to)));
    }
  }

  lemma CommentReaches(n: string, from: RoleState, to: RoleState)
    ensures Fold(RoleStep(n), Some(to.(comment := from.comment)), CommentChanges(n, from, to)) == Some(to)
  {
    if from.comment != to.comment {
      FoldSingle(RoleStep(n), Some(to.(comment := from.comment)), SetComment(n, to.comment));
    }
  }

  lemma AlterReaches(n: string, from: RoleState, to: RoleState)
    ensures Fold(RoleStep(n), Some(from), AlterExisting(n, from, to)) == Some(to)
  {
    FoldConcat(RoleStep(n), Some(from), AttributeChanges(n, from, to), CommentChanges(n, from, to));
    AttributesReach(n, from, to);
    CommentReaches(n, from, to);
  }

  lemma RoleAfterRound(c: RoleGraph, d: RoleGraph, n: string)
    ensures Get(Round(c, d).roles, n) == Get(d.roles, n)
  {
    var step, v := RoleStep(n), Get(c.roles, n);
    RoleRun(c, PlanFor(c, d), n);
    RoleSections(c, d, n, v);
    forall m | m != n
      ensures Inert(step, CreateFn(c, d)(m)) && Inert(step, AlterFn(c, d)(m)) && Inert(step, DropFn(d)(m))
    {
      CreateLocal(c, d, n, m);
      AlterLocal(c, d, n, m);
    }
    var declared, present := Sorted(d.roles.Keys, StringLe), Sorted(c.roles.Keys, StringLe);
    FoldFlatMapOne(step, v, declared, CreateFn(c, d), n);
    var v1 := Fold(step, v, Creates(c, d));
    FoldFlatMapOne(step, v1, declared, AlterFn(c, d), n);
    var v2 := Fold(step, v1, Alters(c, d));
    FoldFlatMapOne(step, v2, present, DropFn(d), n);
    RoleFinal(c, d, n);
  }

  lemma CreateReaches(n: string, state: RoleState)
    ensures Fold(RoleStep(n), None, [CreateRole(n, state)]) == Some(state)
    ensures Fold(RoleStep(n), Some(state), [AlterRole(n, ConfigAttributes(state))]) == Some(state)
  {
    FoldSingle(RoleStep(n), None, CreateRole(n, state));
    OwnSettings(state, Sorted(state.config.Keys, StringLe));
    FoldSingle(RoleStep(n), Some(state), AlterRole(n, ConfigAttributes(state)));
  }

  /** The changes that name one role, applied to it. */
  lemma RoleFinal(c: RoleGraph, d: RoleGraph, n: string)
    ensures
      var step, v := RoleStep(n), Get(c.roles, n);
      var v1 := if n in d.roles then Fold(step, v, CreateFn(c, d)(n)) else v;
      var v2 := if n in d.roles then Fold(step, v1, AlterFn(c, d)(n)) else v1;
      Get(d.roles, n) == if n in c.roles then Fold(step, v2, DropFn(d)(n)) else v2
  {
    if n in d.roles {
      if n in c.roles {
        AlterReaches(n, c.roles[n], d.roles[n]);
      } else {
        CreateReaches(n, d.roles[n]);
      }
    } else if n in c.roles {
      FoldSingle(RoleStep(n), Some(c.roles[n]), DropRole(n));
    }
  }

  lemma RolesAfterRound(c: RoleGraph, d: RoleGraph)
    ensures Round(c, d).roles == d.roles
  {
    forall n ensures Get(Round(c, d).roles, n) == Get(d.roles, n) {
      RoleAfterRound(c, d, n);
    }
    SameGets(Round(c, d).roles, d.roles);
  }

  // ---- Schemas: one round places them, the next completes their owners ----

  ghost predicate SchemasPlaced(c: RoleGraph, d: RoleGraph) {
    forall n :: n in d.schemas ==> n in c.schemas && !OwnerMoves(c, d, n)
  }

  ghost predicate OwnersComplete(c: RoleGraph, d: RoleGraph) {
    forall n :: n in d.schemas ==> MissingOwnerPrivileges(c, d, n) == {}
  }

  lemma SchemaStepIgnores(n: string)
    ensures var step := SchemaStep(n);
      && Ignores(step, Creation) && Ignores(step, Alteration) && Ignores(step, GrantKind)
      && Ignores(step, SetDefaultKind) && Ignores(step, RevokeKind) && Ignores(step, MemberKind)
      && Ignores(step, RevokeDefaultKind) && Ignores(step, DropKind)
  {
  }

  lemma SchemaSections(c: RoleGraph, d: RoleGraph, n: string, v: Option<SchemaState>)
    ensures Fold(SchemaStep(n), v, PlanFor(c, d))
         == Fold(SchemaStep(n), Fold(SchemaStep(n), v, SchemaChanges(c, d)), OwnerGrants(c, d))
  {
    var step := SchemaStep(n);
    FoldSections(step, v, c, d);
    SectionKinds(c, d);
    SchemaStepIgnores(n);
    Skip(step, v, Creates(c, d), Creation);
    Skip(step, v, Alters(c, d), Alteration);
    var v1 := Fold(step, Fold(step, v, SchemaChanges(c, d)), OwnerGrants(c, d));
    Skip(step, v1, Grants(c, d), GrantKind);
    Skip(step, v1, SetDefaults(c, d), SetDefaultKind);
    Skip(step, v1, Revokes(c, d), RevokeKind);
    Skip(step, v1, Removes(c, d), MemberKind);
    Skip(step, v1, Adds(c, d), MemberKind);
    Skip(step, v1, RevokeDefaults(c, d), RevokeDefaultKind);
    Skip(step, v1, Drops(c, d), DropKind);
  }

  /** A declared schema after a round. */
  function PlacedSchema(c: RoleGraph, d: RoleGraph, n: string): SchemaState
    requires n in d.schemas
  {
    if n !in c.schemas then SchemaState(d.schemas[n].owner, {})
    else SchemaState(if d.schemas[n].owner.Some? then d.schemas[n].owner else c.schemas[n].owner,
                     c.schemas[n].ownerPrivileges + MissingOwnerPrivileges(c, d, n))
  }

  lemma SchemaFnsLocal(c: RoleGraph, d: RoleGraph, n: string, m: string)
    requires m != n
    ensures Inert(SchemaStep(n), SchemaFn(c, d)(m)) && Inert(SchemaStep(n), OwnerFn(c, d)(m))
  {
  }

  lemma SchemaFnsReach(c: RoleGraph, d: RoleGraph, n: string)
    requires n in d.schemas
    ensures Fold(SchemaStep(n), Fold(SchemaStep(n), Get(c.schemas, n), SchemaFn(c, d)(n)), OwnerFn(c, d)(n))
         == Some(PlacedSchema(c, d, n))
  {
    var step, v := SchemaStep(n), Get(c.schemas, n);
    var a, b := SchemaFn(c, d)(n), OwnerFn(c, d)(n);
    if a != [] {
      assert a == [a[0]];
      FoldSingle(step, v, a[0]);
    }
    if b != [] {
      assert b == [b[0]];
      FoldSingle(step, Fold(step, v, a), b[0]);
    } else {
      assert n in c.schemas ==> c.schemas[n].ownerPrivileges + {} == c.schemas[n].ownerPrivileges;
    }
  }

  lemma SchemaAfterRound(c: RoleGraph, d: RoleGraph, n: string)
    ensures Get(Round(c, d).schemas, n)
         == if n in d.schemas then Some(PlacedSchema(c, d, n)) else Get(c.schemas, n)
  {
    var step, v := SchemaStep(n), Get(c.schemas, n);
    SchemaRun(c, PlanFor(c, d), n);
    SchemaSections(c, d, n, v);
    forall m | m != n
      ensures Inert(step, SchemaFn(c, d)(m)) && Inert(step, OwnerFn(c, d)(m))
    {
      SchemaFnsLocal(c, d, n, m);
    }
    var declared := Sorted(d.schemas.Keys, StringLe);
    FoldFlatMapOne(step, v, declared, SchemaFn(c, d), n);
    FoldFlatMapOne(step, Fold(step, v, SchemaChanges(c, d)), declared, OwnerFn(c, d), n);
    if n in d.schemas {
      SchemaFnsReach(c, d, n);
    }
  }

  lemma SchemasAfterRound(c: RoleGraph, d: RoleGraph)
    ensures SchemasPlaced(Round(c, d), d)
    ensures SchemasPlaced(c, d) ==> OwnersComplete(Round(c, d), d)
  {
    forall n | n in d.schemas
      ensures n in Round(c, d).schemas && !OwnerMoves(Round(c, d), d, n)
      ensures SchemasPlaced(c, d) ==> MissingOwnerPrivileges(Round(c, d), d, n) == {}
    {
      SchemaAfterRound(c, d, n);
      SchemaPlacedBy(c, d, Round(c, d), n);
    }
  }

  lemma SchemaPlacedBy(c: RoleGraph, d: RoleGraph, r: RoleGraph, n: string)
    requires n in d.schemas && Get(r.schemas, n) == Some(PlacedSchema(c, d, n))
    ensures n in r.schemas && !OwnerMoves(r, d, n)
    ensures SchemasPlaced(c, d) ==> MissingOwnerPrivileges(r, d, n) == {}
  {
  }

  // ---- Default privileges ----

  ghost predicate DefaultsDisjoint(d: RoleGraph) {
    forall k :: k in d.defaults && k in d.defaultAbsences ==> d.defaults[k] !! d.defaultAbsences[k]
  }

  ghost predicate DefaultsGranted(c: RoleGraph, d: RoleGraph) {
    forall k :: k in d.defaults ==> k in c.defaults && d.defaults[k] <= c.defaults[k]
  }

  ghost predicate NoDefaultRevokes(c: RoleGraph, d: RoleGraph) {
    forall k :: !RevokesDefault(c, d, k)
  }

  lemma DefaultStepIgnores(k: DefaultPrivKey)
    ensures var step := DefaultStep(k);
      && Ignores(step, Creation) && Ignores(step, Alteration) && Ignores(step, SchemaKind)
      && Ignores(step, OwnerKind) && Ignores(step, GrantKind) && Ignores(step, RevokeKind)
      && Ignores(step, MemberKind) && Ignores(step, DropKind)
  {
  }

  lemma DefaultSections(c: RoleGraph, d: RoleGraph, k: DefaultPrivKey, v: Option<Privileges>)
    ensures Fold(DefaultStep(k), v, PlanFor(c, d))
         == Fold(DefaultStep(k), Fold(DefaultStep(k), v, SetDefaults(c, d)), RevokeDefaults(c, d))
  {
    var step := DefaultStep(k);
    FoldSections(step, v, c, d);
    SectionKinds(c, d);
    DefaultStepIgnores(k);
    Skip(step, v, Creates(c, d), Creation);
    Skip(step, v, Alters(c, d), Alteration);
    Skip(step, v, SchemaChanges(c, d), SchemaKind);
    Skip(step, v, OwnerGrants(c, d), OwnerKind);
    Skip(step, v, Grants(c, d), GrantKind);
    var v1 := Fold(step, v, SetDefaults(c, d));
    Skip(step, v1, Revokes(c, d), RevokeKind);
    Skip(step, v1, Removes(c, d), MemberKind);
    Skip(step, v1, Adds(c, d), MemberKind);
    Skip(step, Fold(step, v1, RevokeDefaults(c, d)), Drops(c, d), DropKind);
  }

  lemma DefaultFnsLocal(c: RoleGraph, d: RoleGraph, k: DefaultPrivKey, l: DefaultPrivKey)
    requires l != k
    ensures Inert(DefaultStep(k), SetDefaultFn(c, d)(l)) && Inert(DefaultStep(k), RevokeDefaultFn(c, d)(l))
  {
  }

  /** A rule once its missing privileges are set. */
  function GrantedDefault(c: RoleGraph, d: RoleGraph, k: DefaultPrivKey): Option<Privileges> {
    if k in d.defaults then Some(Lookup(c.defaults, k) + d.defaults[k]) else Get(c.defaults, k)
  }

  /** A rule after a round. */
  function RoundDefault(c: RoleGraph, d: RoleGraph, k: DefaultPrivKey): Option<Privileges> {
    var v := GrantedDefault(c, d, k);
    if v.Some? && RevokesDefault(c, d, k) then Reduced(v.value, DefaultToRevoke(c, d, k)) else v
  }

  lemma SetDefaultReaches(c: RoleGraph, d: RoleGraph, k: DefaultPrivKey)
    requires k in d.defaults
    ensures Fold(DefaultStep(k), Get(c.defaults, k), SetDefaultFn(c, d)(k)) == GrantedDefault(c, d, k)
  {
    var a := SetDefaultFn(c, d)(k);
    if a != [] {
      assert a == [a[0]];
      FoldSingle(DefaultStep(k), Get(c.defaults, k), a[0]);
    }
    var held, declared := Lookup(c.defaults, k), d.defaults[k];
    assert held + declared == held + (declared - held);
    assert declared - held == {} ==> held + declared == held;
    assert k !in c.defaults ==> {} + declared == declared;
  }

  lemma RevokeDefaultReaches(c: RoleGraph, d: RoleGraph, k: DefaultPrivKey)
    ensures Fold(DefaultStep(k), GrantedDefault(c, d, k), RevokeDefaultFn(c, d)(k)) == RoundDefault(c, d, k)
  {
    var a := RevokeDefaultFn(c, d)(k);
    if a != [] {
      assert a == [a[0]];
      FoldSingle(DefaultStep(k), GrantedDefault(c, d, k), a[0]);
    }
  }

  lemma DefaultAfterRound(c: RoleGraph, d: RoleGraph, k: DefaultPrivKey)
    ensures Get(Round(c, d).defaults, k) == RoundDefault(c, d, k)
  {
    var step, v := DefaultStep(k), Get(c.defaults, k);
    DefaultRun(c, PlanFor(c, d), k);
    DefaultSections(c, d, k, v);
    forall l | l != k
      ensures Inert(step, SetDefaultFn(c, d)(l)) && Inert(step, RevokeDefaultFn(c, d)(l))
    {
      DefaultFnsLocal(c, d, k, l);
    }
    FoldFlatMapOne(step, v, Sorted(d.defaults.Keys, DefaultKeyLe), SetDefaultFn(c, d), k);
    if k in d.defaults {
      SetDefaultReaches(c, d, k);
    }
    var keys := Sorted(c.defaults.Keys + d.defaultAbsences.Keys, DefaultKeyLe);
    FoldFlatMapOne(step, GrantedDefault(c, d, k), keys, RevokeDefaultFn(c, d), k);
    RevokeDefaultReaches(c, d, k);
    assert RevokesDefault(c, d, k) ==> k in keys;
  }

  lemma DefaultQuiet(c: RoleGraph, d: RoleGraph, r: RoleGraph, k: DefaultPrivKey)
    requires DefaultsDisjoint(d) && r.roles == d.roles
    requires Get(r.defaults, k) == RoundDefault(c, d, k)
    ensures !RevokesDefault(r, d, k)
  {
    if k in r.defaults {
      var left := r.defaults[k];
      assert left <= Lookup(c.defaults, k) + Lookup(d.defaults, k);
      assert left !! DefaultToRevoke(c, d, k);
      assert DefaultToRevoke(r, d, k) <= DefaultToRevoke(c, d, k);
    }
  }

  lemma DefaultsAfterRound(c: RoleGraph, d: RoleGraph)
    requires DefaultsDisjoint(d)
    ensures NoDefaultRevokes(Round(c, d), d)
    ensures NoDefaultRevokes(c, d) ==> DefaultsGranted(Round(c, d), d)
  {
    RolesAfterRound(c, d);
    var r := Round(c, d);
    forall k
      ensures !RevokesDefault(r, d, k)
    {
      DefaultAfterRound(c, d, k);
      DefaultQuiet(c, d, r, k);
    }
    if NoDefaultRevokes(c, d) {
      forall k | k in d.defaults
        ensures k in r.defaults && d.defaults[k] <= r.defaults[k]
      {
        DefaultAfterRound(c, d, k);
      }
    }
  }
}
