/**
 What the brownfield filter leaves of a plan, object by object.
 */
module Brownfield {
  import opened Sequences
  import opened Orders
  import opened Model
  import opened Manifest
  import opened Diff
  import opened Plan
  import opened PlanOrder

  /** The objects that exist, by type and schema. */
  type Inventory = map<(ObjectType, Option<string>), set<string>>

  predicate Listed(inventory: Inventory, t: GrantKey) {
    && t.name.Some? && (t.objectType, t.schema) in inventory
    && t.name.value in inventory[(t.objectType, t.schema)]
  }

  /** A wildcard stands for every existing object of its scope. */
  predicate Covers(inventory: Inventory, k: GrantKey, t: GrantKey) {
    if IsStar(k) then InScope(t, k) && Listed(inventory, t) else t == k
  }

  predicate Takes(inventory: Inventory, change: Change, t: GrantKey, p: Privilege, grantor: Option<string>) {
    change.Revoke? && Covers(inventory, change.key, t) && p in change.privileges && change.grantor == grantor
  }

  /** Some revoke takes `p` from the named target `t` as the given grantor. */
  ghost predicate Denotes(changes: seq<Change>, inventory: Inventory, t: GrantKey, p: Privilege,
                          grantor: Option<string>) {
    exists change :: change in changes && Takes(inventory, change, t, p, grantor)
  }

  predicate AssertedAbsent(d: RoleGraph, t: GrantKey, p: Privilege) {
    p in Lookup(d.grantAbsences, t) || p in Lookup(d.grantAbsences, Star(t))
  }

  /** The objects named by exact absence assertions exist. */
  ghost predicate ListsAbsences(inventory: Inventory, d: RoleGraph) {
    forall a :: a in d.grantAbsences && a.name.Some? && !IsStar(a) ==> Listed(inventory, a)
  }

  lemma InPreserved(d: RoleGraph, k: GrantKey, privileges: Privileges, grantor: Option<string>, y: Change)
    requires IsStar(k)
    ensures var wild := privileges * Lookup(d.grantAbsences, Star(k));
      y in PreservedRevoke(d, k, privileges, grantor) <==>
        && y.Revoke? && y.privileges != {} && y.grantor == grantor
        && ((y.key == k && y.privileges == wild)
            || (y.key in ExactAbsences(d, k) && y.privileges == (privileges - wild) * Lookup(d.grantAbsences, y.key)))
  {
    var wild := privileges * Lookup(d.grantAbsences, Star(k));
    var keys := Sorted(ExactAbsences(d, k), GrantKeyLe);
    InFlatMap(keys, ExactFn(d, privileges - wild, grantor), y);
    if y.Revoke? && y.key in ExactAbsences(d, k) {
      assert y.key in keys;
    }
  }

  lemma StarTakes(d: RoleGraph, inventory: Inventory, k: GrantKey, privileges: Privileges, grantor: Option<string>,
                  t: GrantKey, p: Privilege)
    requires IsStar(k) && !IsStar(t) && ListsAbsences(inventory, d)
    ensures Denotes(PreservedRevoke(d, k, privileges, grantor), inventory, t, p, grantor)
      <==> Covers(inventory, k, t) && p in privileges && AssertedAbsent(d, t, p)
  {
    var out := PreservedRevoke(d, k, privileges, grantor);
    var wild := privileges * Lookup(d.grantAbsences, Star(k));
    if Denotes(out, inventory, t, p, grantor) {
      var y :| y in out && Takes(inventory, y, t, p, grantor);
      InPreserved(d, k, privileges, grantor, y);
    }
    if Covers(inventory, k, t) && p in privileges && AssertedAbsent(d, t, p) {
      assert Star(t) == k == Star(k);
      var y := if p in wild then Revoke(k, wild, grantor)
               else Revoke(t, (privileges - wild) * Lookup(d.grantAbsences, t), grantor);
      assert p in y.privileges;
      InPreserved(d, k, privileges, grantor, y);
      assert Takes(inventory, y, t, p, grantor);
    }
  }

  lemma NamedTakes(d: RoleGraph, inventory: Inventory, k: GrantKey, privileges: Privileges, grantor: Option<string>,
                   t: GrantKey, p: Privilege)
    requires !IsStar(k)
    ensures Denotes(PreservedRevoke(d, k, privileges, grantor), inventory, t, p, grantor)
      <==> t == k && p in privileges && AssertedAbsent(d, t, p)
  {
    var kept := privileges * Lookup(d.grantAbsences, Star(k)) + privileges * Lookup(d.grantAbsences, k);
    if t == k && p in kept {
      assert Takes(inventory, Revoke(k, kept, grantor), t, p, grantor);
      assert Revoke(k, kept, grantor) in PreservedRevoke(d, k, privileges, grantor);
    }
  }

  lemma PreservedGrantor(d: RoleGraph, inventory: Inventory, x: Change, t: GrantKey, p: Privilege,
                         grantor: Option<string>)
    requires x.Revoke? && !IsStar(t) && ListsAbsences(inventory, d)
    ensures Denotes(PreservedRevoke(d, x.key, x.privileges, x.grantor), inventory, t, p, grantor)
      <==> Takes(inventory, x, t, p, grantor) && AssertedAbsent(d, t, p)
  {
    if x.grantor == grantor {
      if IsStar(x.key) {
        StarTakes(d, inventory, x.key, x.privileges, grantor, t, p);
      } else {
        NamedTakes(d, inventory, x.key, x.privileges, grantor, t, p);
      }
    } else {
      forall y | y in PreservedRevoke(d, x.key, x.privileges, x.grantor) ensures y.Revoke? && y.grantor == x.grantor {
        PreservedLevel(d, x.key, x.privileges, x.grantor, y);
      }
    }
  }

  /**
   For a brownfield role the filter keeps, of all the revocations a plan
   denotes, exactly those asserted absent for the object or for its wildcard.
   */
  lemma FilterDenotesAbsences(changes: seq<Change>, e: Expanded, d: RoleGraph, inventory: Inventory,
                              t: GrantKey, p: Privilege, grantor: Option<string>)
    requires Preserves(e.roles, t.role.AsString()) && !IsStar(t) && ListsAbsences(inventory, d)
    ensures Denotes(FilterPreserved(changes, e, d), inventory, t, p, grantor)
      <==> Denotes(changes, inventory, t, p, grantor) && AssertedAbsent(d, t, p)
  {
    if Denotes(FilterPreserved(changes, e, d), inventory, t, p, grantor) {
      var y :| y in FilterPreserved(changes, e, d) && Takes(inventory, y, t, p, grantor);
      InFlatMap(changes, PreserveFn(e.roles, d), y);
      var x :| x in changes && y in PreserveFn(e.roles, d)(x);
      KeptIsAsserted(e, d, inventory, x, y, t, p, grantor);
    }
    if Denotes(changes, inventory, t, p, grantor) && AssertedAbsent(d, t, p) {
      var x :| x in changes && Takes(inventory, x, t, p, grantor);
      var y := AssertedIsKept(e, d, inventory, x, t, p, grantor);
      InFlatMap(changes, PreserveFn(e.roles, d), y);
    }
  }

  lemma KeptIsAsserted(e: Expanded, d: RoleGraph, inventory: Inventory, x: Change, y: Change,
                       t: GrantKey, p: Privilege, grantor: Option<string>)
    requires Preserves(e.roles, t.role.AsString()) && !IsStar(t) && ListsAbsences(inventory, d)
    requires y in PreserveFn(e.roles, d)(x) && Takes(inventory, y, t, p, grantor)
    ensures Takes(inventory, x, t, p, grantor) && AssertedAbsent(d, t, p)
  {
    SourceInScope(e, d, x, y);
    assert x.Revoke? && x.key.role == t.role;
    assert Denotes(PreservedRevoke(d, x.key, x.privileges, x.grantor), inventory, t, p, grantor);
    PreservedGrantor(d, inventory, x, t, p, grantor);
  }

  lemma AssertedIsKept(e: Expanded, d: RoleGraph, inventory: Inventory, x: Change,
                       t: GrantKey, p: Privilege, grantor: Option<string>)
    returns (y: Change)
    requires Preserves(e.roles, t.role.AsString()) && !IsStar(t) && ListsAbsences(inventory, d)
    requires Takes(inventory, x, t, p, grantor) && AssertedAbsent(d, t, p)
    ensures y in PreserveFn(e.roles, d)(x) && Takes(inventory, y, t, p, grantor)
  {
    PreservedGrantor(d, inventory, x, t, p, grantor);
    y :| y in PreservedRevoke(d, x.key, x.privileges, x.grantor) && Takes(inventory, y, t, p, grantor);
  }

  lemma SourceInScope(e: Expanded, d: RoleGraph, x: Change, y: Change)
    requires y in PreserveFn(e.roles, d)(x) && y.Revoke?
    ensures x.Revoke? && InScope(y.key, x.key)
  {
    if x.Revoke? && Preserves(e.roles, x.key.role.AsString()) {
      PreservedLevel(d, x.key, x.privileges, x.grantor, y);
    }
  }

  // ---- Everything else ----

  predicate Filters(roles: seq<RoleDefinition>, change: Change) {
    change.Revoke? && Preserves(roles, change.key.role.AsString())
  }

  ghost function Unfiltered(roles: seq<RoleDefinition>): Change -> bool {
    change => !Filters(roles, change)
  }

  lemma OneKept(e: Expanded, d: RoleGraph, x: Change)
    ensures Filter(PreserveFn(e.roles, d)(x), Unfiltered(e.roles)) == Filter([x], Unfiltered(e.roles))
  {
    if Filters(e.roles, x) {
      forall y | y in PreserveFn(e.roles, d)(x) ensures Filters(e.roles, y) {
        PreservedLevel(d, x.key, x.privileges, x.grantor, y);
      }
      FilterNone(PreserveFn(e.roles, d)(x), Unfiltered(e.roles));
      FilterNone([x], Unfiltered(e.roles));
    }
  }

  /** All other changes stay, in order. */
  lemma {:induction false} OthersUntouched(changes: seq<Change>, e: Expanded, d: RoleGraph)
    ensures Filter(FilterPreserved(changes, e, d), Unfiltered(e.roles)) == Filter(changes, Unfiltered(e.roles))
  {
    if changes != [] {
      var init, last := changes[..|changes| - 1], changes[|changes| - 1];
      OthersUntouched(init, e, d);
      FilterConcat(FilterPreserved(init, e, d), PreserveFn(e.roles, d)(last), Unfiltered(e.roles));
      OneKept(e, d, last);
      FilterConcat(init, [last], Unfiltered(e.roles));
      assert changes == init + [last];
    }
  }
}
