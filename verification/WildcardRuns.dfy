/**
 Reconciling a live database whose objects are dropped and recreated: schema-wide
 grants are completed by every reconcile and never taken back.
 */
module WildcardRuns {
  import opened Sequences
  import opened Orders
  import opened Model
  import opened Diff
  import opened Sections
  import opened Revocation
  import opened GrantRounds
  import opened Wildcards

  // ---- Executing a plan on the access lists ----

  /** A statement on `k` reaches target `t`. */
  predicate Reaches(k: GrantKey, t: GrantKey) {
    k == t || (IsWildcard(k) && Star(t) == k)
  }

  /** What the executor may grant on the object of a target. */
  function Grantable(db: Database, t: GrantKey): Privileges {
    if t.schema.Some? && t.name.Some? && (t.objectType, t.schema.value, t.name.value) in db.grantable
    then db.grantable[(t.objectType, t.schema.value, t.name.value)] else {}
  }

  /**
   A schema-wide statement acts on every object in scope, a grant as far as the
   executor may grant. A revoke is taken at its strongest: the privilege is gone
   whichever grantor's entry it names.
   */
  function AclAfter(db: Database, change: Change): map<GrantKey, Privileges> {
    match change
    case Grant(k, privileges) =>
      if IsWildcard(k) then
        map t | t in db.acl.Keys + Members(db.inventory, k) ::
          if t in Members(db.inventory, k) then Lookup(db.acl, t) + privileges * Grantable(db, t) else db.acl[t]
      else db.acl[k := Lookup(db.acl, k) + privileges * Grantable(db, k)]
    case Revoke(k, privileges, _) =>
      map t | t in db.acl :: if Reaches(k, t) then db.acl[t] - privileges else db.acl[t]
    case _ => db.acl
  }

  function Execute(db: Database, change: Change): Database {
    db.(acl := AclAfter(db, change))
  }

  ghost function ExecuteAll(db: Database, changes: seq<Change>): Database {
    Fold(Execute, db, changes)
  }

  predicate Holds(db: Database, t: GrantKey, p: Privilege) {
    p in Lookup(db.acl, t)
  }

  /** One privilege on one target, stepping through a plan; `may` says whether the executor may grant it. */
  predicate HeldAfter(t: GrantKey, p: Privilege, may: bool, held: bool, change: Change) {
    match change
    case Grant(k, privileges) => held || (may && Reaches(k, t) && p in privileges)
    case Revoke(k, privileges, _) => held && !(Reaches(k, t) && p in privileges)
    case _ => held
  }

  ghost function HoldStep(t: GrantKey, p: Privilege, may: bool): (bool, Change) -> bool {
    (held: bool, change: Change) => HeldAfter(t, p, may, held, change)
  }

  lemma ExecuteLocal(db: Database, change: Change, t: GrantKey, p: Privilege)
    requires Exists(db.inventory, t)
    ensures Holds(Execute(db, change), t, p) == HeldAfter(t, p, p in Grantable(db, t), Holds(db, t, p), change)
  {
    if change.Grant? && IsWildcard(change.key) {
      MembersScope(db.inventory, change.key, t);
      MembersScope(db.inventory, Star(t), t);
    }
  }

  lemma {:induction false} ObjectsStay(db: Database, changes: seq<Change>)
    ensures ExecuteAll(db, changes).inventory == db.inventory && ExecuteAll(db, changes).grantable == db.grantable
  {
    if changes != [] {
      ObjectsStay(db, changes[..|changes| - 1]);
    }
  }

  lemma {:induction false} HoldRun(db: Database, changes: seq<Change>, t: GrantKey, p: Privilege)
    requires Exists(db.inventory, t)
    ensures Holds(ExecuteAll(db, changes), t, p)
         == Fold(HoldStep(t, p, p in Grantable(db, t)), Holds(db, t, p), changes)
  {
    if changes != [] {
      var init := changes[..|changes| - 1];
      HoldRun(db, init, t, p);
      ObjectsStay(db, init);
      ExecuteLocal(ExecuteAll(db, init), changes[|changes| - 1], t, p);
    }
  }

  // ---- No revoke takes what a wildcard declares ----

  /** Wildcard `s` is declared, and nothing it declares is asserted absent anywhere in its scope. */
  ghost predicate Declared(d: RoleGraph, s: GrantKey) {
    && IsWildcard(s) && s in d.grants
    && forall t :: t in d.grantAbsences && InScope(t, s) ==> d.grants[s] !! d.grantAbsences[t]
  }

  /** Whatever was inspected, no planned revoke takes a privilege that the wildcard declares. */
  lemma WildcardIsNeverRevoked(c: RoleGraph, d: RoleGraph, s: GrantKey, t: GrantKey, p: Privilege)
    requires Declared(d, s) && InScope(t, s) && t.name.Some? && p in d.grants[s]
    ensures !Hits(PlanFor(c, d), t, p)
  {
    NotRevoked(c, d, s, t, p);
    KeptHits(c, d, t, p);
    PlanActs(c, d, t, p);
    ActsIsHits(Revokes(c, d), t, p);
    ActsIsHits(PlanFor(c, d), t, p);
  }

  lemma ActsIsHits(changes: seq<Change>, k: GrantKey, p: Privilege)
    ensures Acts(changes, RevokeKind, k, p) <==> Hits(changes, k, p)
  {
  }

  lemma NotRevoked(c: RoleGraph, d: RoleGraph, s: GrantKey, t: GrantKey, p: Privilege)
    requires Declared(d, s) && InScope(t, s) && t.name.Some? && p in d.grants[s]
    ensures !Hits(AllRevokes(c, d), t, p)
  {
    assert Star(t) == s;
    assert p !in ToRevoke(c, d, s);
    if IsStar(t) {
      StarHits(c, d, t, p);
    } else {
      assert p !in ToRevoke(c, d, t);
      NamedHits(c, d, t, p);
    }
  }

  // ---- One reconcile ----

  lemma HoldStepIgnores(t: GrantKey, p: Privilege, may: bool, kind: Kind)
    requires kind != GrantKind && kind != RevokeKind
    ensures Ignores(HoldStep(t, p, may), kind)
  {
  }

  lemma HoldSections(c: RoleGraph, d: RoleGraph, t: GrantKey, p: Privilege, may: bool, v: bool)
    ensures var step := HoldStep(t, p, may);
      Fold(step, v, PlanFor(c, d)) == Fold(step, Fold(step, v, Grants(c, d)), Revokes(c, d))
  {
    var step := HoldStep(t, p, may);
    FoldSections(step, v, c, d);
    SectionKinds(c, d);
    HoldStepIgnores(t, p, may, Creation);
    HoldStepIgnores(t, p, may, Alteration);
    HoldStepIgnores(t, p, may, SchemaKind);
    HoldStepIgnores(t, p, may, OwnerKind);
    HoldStepIgnores(t, p, may, SetDefaultKind);
    HoldStepIgnores(t, p, may, MemberKind);
    HoldStepIgnores(t, p, may, RevokeDefaultKind);
    HoldStepIgnores(t, p, may, DropKind);
    Skip(step, v, Creates(c, d), Creation);
    Skip(step, v, Alters(c, d), Alteration);
    Skip(step, v, SchemaChanges(c, d), SchemaKind);
    Skip(step, v, OwnerGrants(c, d), OwnerKind);
    var granted := Fold(step, v, Grants(c, d));
    Skip(step, granted, SetDefaults(c, d), SetDefaultKind);
    var revoked := Fold(step, granted, Revokes(c, d));
    Skip(step, revoked, Removes(c, d), MemberKind);
    Skip(step, revoked, Adds(c, d), MemberKind);
    Skip(step, revoked, RevokeDefaults(c, d), RevokeDefaultKind);
    Skip(step, revoked, Drops(c, d), DropKind);
  }

  lemma {:induction false} GrantsOnlyAdd(changes: seq<Change>, t: GrantKey, p: Privilege, may: bool, held: bool)
    requires AllOf(changes, GrantKind)
    ensures Fold(HoldStep(t, p, may), held, changes) <==>
      (held || (may && exists change ::
         change in changes && change.Grant? && Reaches(change.key, t) && p in change.privileges))
  {
    if changes != [] {
      var init, last := changes[..|changes| - 1], changes[|changes| - 1];
      assert changes == init + [last] && last in changes && KindOf(last) == GrantKind;
      assert forall change :: change in init ==> change in changes;
      GrantsOnlyAdd(init, t, p, may, held);
    }
  }

  /** No revoke reaches `t` for `p`. */
  lemma RevokesSpare(c: RoleGraph, d: RoleGraph, s: GrantKey, t: GrantKey, p: Privilege, may: bool, held: bool)
    requires Declared(d, s) && Star(t) == s && t.name.Some? && p in d.grants[s]
    ensures Fold(HoldStep(t, p, may), held, Revokes(c, d)) == held
  {
    NotRevoked(c, d, s, t, p);
    NotRevoked(c, d, s, s, p);
    KeptHits(c, d, t, p);
    KeptHits(c, d, s, p);
    forall change | change in Revokes(c, d) ensures change.Revoke? { InRevokes(c, d, change); }
    SparedByMisses(Revokes(c, d), s, t, p, may, held);
  }

  lemma SparedByMisses(changes: seq<Change>, s: GrantKey, t: GrantKey, p: Privilege, may: bool, held: bool)
    requires Star(t) == s && !Hits(changes, t, p) && !Hits(changes, s, p)
    requires forall change :: change in changes ==> change.Revoke?
    ensures Fold(HoldStep(t, p, may), held, changes) == held
  {
    forall change, v | change in changes ensures HoldStep(t, p, may)(v, change) == v {
      assert change.Revoke?;
      assert change.key == t ==> p !in change.privileges;
      assert change.key == s ==> p !in change.privileges;
    }
    FoldInert(HoldStep(t, p, may), held, changes);
  }

  /** A privilege the wildcard declares and inspection did not report on it is granted schema-wide. */
  lemma WildcardIsGranted(c: RoleGraph, d: RoleGraph, s: GrantKey, p: Privilege)
    requires s in d.grants && p in d.grants[s] && p !in Lookup(c.grants, s)
    ensures exists change :: change in Grants(c, d) && change.Grant? && change.key == s && p in change.privileges
  {
    var change := Grant(s, d.grants[s] - Lookup(c.grants, s));
    var keys := Sorted(d.grants.Keys, GrantKeyLe);
    assert s in keys;
    assert p in change.privileges;
    if s !in c.grants {
      assert d.grants[s] - {} == d.grants[s];
    }
    assert change in GrantFn(c, d)(s);
    InFlatMap(keys, GrantFn(c, d), change);
  }

  // ---- The diagnostic ----

  /** Object `t` lacks a privilege declared by a wildcard, and the executor may not grant it. */
  ghost predicate Stuck(db: Database, d: RoleGraph, s: GrantKey, t: GrantKey, p: Privilege) {
    && IsWildcard(s) && s in d.grants && p in d.grants[s] && t in Members(db.inventory, s)
    && !Holds(db, t, p) && p !in Grantable(db, t)
  }

  /** Some wildcard cannot be satisfied: the reconcile is refused before anything is planned. */
  ghost predicate Diagnosed(db: Database, d: RoleGraph) {
    exists s, t, p :: Stuck(db, d, s, t, p)
  }

  /**
   From every database without a diagnostic, and every inspection of it that
   denotes its access lists, executing the plan gives every object in scope
   every privilege the wildcard declares.
   */
  lemma ReconcileCompletes(db: Database, c: RoleGraph, d: RoleGraph, s: GrantKey, t: GrantKey, p: Privilege)
    requires Reads(db, c.grants) && Declared(d, s) && p in d.grants[s] && t in Members(db.inventory, s)
    requires !Diagnosed(db, d)
    ensures Holds(ExecuteAll(db, PlanFor(c, d)), t, p)
  {
    var may := p in Grantable(db, t);
    assert !Stuck(db, d, s, t, p);
    MembersScope(db.inventory, s, t);
    HoldRun(db, PlanFor(c, d), t, p);
    HoldSections(c, d, t, p, may, Holds(db, t, p));
    GrantsKind(c, d);
    GrantsOnlyAdd(Grants(c, d), t, p, may, Holds(db, t, p));
    if p !in Lookup(c.grants, s) {
      WildcardIsGranted(c, d, s, p);
    }
    RevokesSpare(c, d, s, t, p, may, Fold(HoldStep(t, p, may), Holds(db, t, p), Grants(c, d)));
  }

  // ---- Runs ----

  /**
   The planner reconciles on what it inspected, or somebody drops and recreates
   an object, possibly under an owner that changes what the executor may grant.
   */
  datatype Event =
    | Reconcile(inspected: RoleGraph)
    | Recreate(objectType: ObjectType, schema: string, name: string, grantable: Privileges)

  predicate OnObject(t: GrantKey, e: Event)
    requires e.Recreate?
  {
    t.objectType == e.objectType && t.schema == Some(e.schema) && t.name == Some(e.name)
  }

  /** A recreated object starts with no grants. */
  function Recreated(db: Database, e: Event): Database
    requires e.Recreate?
  {
    db.(acl := map t | t in db.acl && !OnObject(t, e) :: db.acl[t],
        grantable := db.grantable[(e.objectType, e.schema, e.name) := e.grantable])
  }

  ghost function After(db: Database, d: RoleGraph, e: Event): Database {
    if e.Recreate? then Recreated(db, e)
    else if Diagnosed(db, d) then db
    else ExecuteAll(db, PlanFor(e.inspected, d))
  }

  ghost function Reached(db: Database, d: RoleGraph, events: seq<Event>): Database {
    if events == [] then db
    else After(Reached(db, d, events[..|events| - 1]), d, events[|events| - 1])
  }

  /** Every reconcile works from an inspection of the database as it then is. */
  ghost predicate Faithful(db: Database, d: RoleGraph, events: seq<Event>) {
    events == [] ||
      var init, last := events[..|events| - 1], events[|events| - 1];
      Faithful(db, d, init) && (last.Reconcile? ==> Reads(Reached(db, d, init), last.inspected.grants))
  }

  /** Objects in scope that lack `p`. */
  ghost function Lacking(db: Database, s: GrantKey, p: Privilege): set<GrantKey> {
    set t | t in Members(db.inventory, s) && !Holds(db, t, p)
  }

  ghost function Touched(db: Database, s: GrantKey, e: Event): set<GrantKey>
    requires e.Recreate?
  {
    set t | t in Members(db.inventory, s) && OnObject(t, e)
  }

  /**
   Objects in scope recreated since the last reconcile that no diagnostic
   stopped; before the first such, also those lacking at the start.
   */
  ghost function Exposed(db: Database, d: RoleGraph, s: GrantKey, p: Privilege, events: seq<Event>): set<GrantKey> {
    if events == [] then Lacking(db, s, p)
    else
      var init, last := events[..|events| - 1], events[|events| - 1];
      if last.Recreate? then Exposed(db, d, s, p, init) + Touched(db, s, last)
      else if Diagnosed(Reached(db, d, init), d) then Exposed(db, d, s, p, init)
      else {}
  }

  lemma AfterReconcile(db: Database, c: RoleGraph, d: RoleGraph, s: GrantKey, p: Privilege)
    requires Declared(d, s) && p in d.grants[s] && Reads(db, c.grants) && !Diagnosed(db, d)
    ensures Lacking(ExecuteAll(db, PlanFor(c, d)), s, p) == {}
  {
    var next := ExecuteAll(db, PlanFor(c, d));
    ObjectsStay(db, PlanFor(c, d));
    forall t | t in Members(db.inventory, s) ensures Holds(next, t, p) {
      ReconcileCompletes(db, c, d, s, t, p);
    }
  }

  lemma AfterRecreate(db: Database, s: GrantKey, p: Privilege, e: Event)
    requires e.Recreate?
    ensures Lacking(Recreated(db, e), s, p) == Lacking(db, s, p) + Touched(db, s, e)
  {
  }

  /**
   Along every run the objects that lack a declared wildcard privilege are
   exactly those recreated since the last reconcile that went through: no
   reconcile ever takes the privilege away, and each one closes the whole gap.
   */
  lemma {:induction false} RunsDoNotFlap(db: Database, d: RoleGraph, s: GrantKey, p: Privilege, events: seq<Event>)
    requires Declared(d, s) && p in d.grants[s] && Faithful(db, d, events)
    ensures Reached(db, d, events).inventory == db.inventory
    ensures Lacking(Reached(db, d, events), s, p) == Exposed(db, d, s, p, events)
  {
    if events != [] {
      var init, last := events[..|events| - 1], events[|events| - 1];
      RunsDoNotFlap(db, d, s, p, init);
      var before := Reached(db, d, init);
      if last.Recreate? {
        AfterRecreate(before, s, p, last);
      } else if !Diagnosed(before, d) {
        AfterReconcile(before, last.inspected, d, s, p);
        ObjectsStay(before, PlanFor(last.inspected, d));
      }
    }
  }

  /**
   With all wildcards consistent, a reconcile leaves a database that is diagnosed and unchanged, or
   settled for good.
   */
  lemma ReconcileSettles(db: Database, c: RoleGraph, d: RoleGraph)
    requires Reads(db, c.grants) && forall s :: s in d.grants && IsWildcard(s) ==> Declared(d, s)
    ensures var next := After(db, d, Reconcile(c));
      if Diagnosed(db, d) then next == db
      else !Diagnosed(next, d) && forall s, p :: Declared(d, s) && p in d.grants[s] ==> Lacking(next, s, p) == {}
  {
    if !Diagnosed(db, d) {
      var next := After(db, d, Reconcile(c));
      forall s, p | Declared(d, s) && p in d.grants[s] ensures Lacking(next, s, p) == {} {
        AfterReconcile(db, c, d, s, p);
      }
      forall s, t, p ensures !Stuck(next, d, s, t, p) {
        if IsWildcard(s) && s in d.grants && p in d.grants[s] && t in Members(next.inventory, s) {
          assert t !in Lacking(next, s, p);
        }
      }
    }
  }

  /** Once nothing lacks, a compacting inspection plans no further grant or revoke of what the wildcard declares. */
  lemma SettledScopeIsQuiet(db: Database, c: RoleGraph, d: RoleGraph, s: GrantKey, p: Privilege)
    requires Declared(d, s) && p in d.grants[s] && Compacts(db, c.grants, s, d.grants[s]) && Lacking(db, s, p) == {}
    ensures !Acts(PlanFor(c, d), GrantKind, s, p) && !Acts(PlanFor(c, d), RevokeKind, s, p)
  {
    forall t | t in Members(db.inventory, s) ensures p in Lookup(db.acl, t) {
      assert t !in Lacking(db, s, p);
    }
    assert Everywhere(db, s, p);
    PlanActs(c, d, s, p);
    GrantsOnlyMissing(c, d, s, p);
    WildcardIsNeverRevoked(c, d, s, s, p);
    ActsIsHits(PlanFor(c, d), s, p);
  }

  lemma GrantsOnlyMissing(c: RoleGraph, d: RoleGraph, k: GrantKey, p: Privilege)
    requires p in Lookup(c.grants, k)
    ensures !Acts(Grants(c, d), GrantKind, k, p)
  {
    GrantsMissing(c, d, Sorted(d.grants.Keys, GrantKeyLe), k, p);
  }

  lemma GrantsMissing(c: RoleGraph, d: RoleGraph, keys: seq<GrantKey>, k: GrantKey, p: Privilege)
    requires p in Lookup(c.grants, k)
    ensures !Acts(FlatMap(keys, GrantFn(c, d)), GrantKind, k, p)
  {
    forall change | change in FlatMap(keys, GrantFn(c, d)) && change.Grant? && change.key == k
      ensures p !in change.privileges
    {
      InFlatMap(keys, GrantFn(c, d), change);
    }
  }
}
