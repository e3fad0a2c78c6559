/**
 What inspecting a database under the desired wildcards gives the planner, and
 what two and three rounds make of it.
 */
module Inspection {
  import opened Model
  import opened Diff
  import opened Rounds
  import opened GrantRounds
  import opened OptionRounds
  import opened Convergence
  import opened Wildcards

  /** The patterns to compact under come from the desired wildcards. */
  ghost predicate PatternsOf(patterns: seq<Pattern>, d: RoleGraph) {
    forall w :: w in patterns ==> w.Key() in d.grants && w.privileges <= d.grants[w.Key()]
  }

  /** Entries record what the access lists of named targets hold; outside the inventory no row is compacted. */
  ghost predicate RecordsEntries(db: Database, c: RoleGraph) {
    forall k :: k in c.entryGrantors ==>
      && !IsStar(k)
      && Attributed(c, k) <= if Exists(db.inventory, k) then Lookup(db.acl, k) else Lookup(c.grants, k)
  }

  /** The graph was read from the database, compacted under the wildcards desired. */
  ghost predicate Inspected(db: Database, patterns: seq<Pattern>, c: RoleGraph, d: RoleGraph) {
    Compacted(db, c.grants, patterns) && PatternsOf(patterns, d) && RecordsEntries(db, c)
  }

  /** No privilege is declared on a wildcard and asserted absent on one of its objects. */
  ghost predicate WildcardsDisjoint(d: RoleGraph) {
    forall k :: WildcardPrivileges(d.grants, k) !! Lookup(d.grantAbsences, k)
  }

  /** Wildcards assert absences on the objects of a schema, not on schemas. */
  ghost predicate SchemasNamed(d: RoleGraph) {
    forall k :: k in d.grantAbsences && k.objectType.Schema? ==> !IsStar(k)
  }

  lemma InspectedEntry(db: Database, patterns: seq<Pattern>, c: RoleGraph, d: RoleGraph, k: GrantKey, p: Privilege)
    requires Inspected(db, patterns, c, d) && GrantsDisjoint(d) && WildcardsDisjoint(d)
    requires p in Attributed(c, k) && p !in Lookup(c.grants, k)
    ensures Covered(d, k, p)
  {
    assert k in c.entryGrantors && Exists(db.inventory, k);
    var s := Star(k);
    assert p in Lookup(c.grants, s);
    var w :| w in patterns && w.Key() == s && c.grants[s] <= w.privileges;
    assert s in d.grants && p in d.grants[s] && k.schema.Some?;
    assert p in WildcardPrivileges(d.grants, k) && Star(s) == s;
  }

  /** Every inspected graph is one the planner's convergence is proved for. */
  lemma InspectedIsPlannable(db: Database, patterns: seq<Pattern>, c: RoleGraph, d: RoleGraph)
    requires Inspected(db, patterns, c, d)
    requires GrantsDisjoint(d) && WildcardsDisjoint(d) && SchemasNamed(d) && DefaultsDisjoint(d)
    ensures Plannable(c, d)
  {
    forall k | k in c.grants && IsStar(k) ensures k in d.grants && c.grants[k] <= d.grants[k] {
      var w :| w in patterns && w.Key() == k && c.grants[k] <= w.privileges;
    }
    forall k, p | p in Attributed(c, k) ensures EntryKnown(c, d, k, p) {
      if p !in Lookup(c.grants, k) {
        InspectedEntry(db, patterns, c, d, k, p);
      }
    }
    forall k | k in c.entryGrantors && Transferred(c, d, k) ensures Lookup(d.grantAbsences, Star(k)) == {} {
      assert IsStar(Star(k)) && Star(k).objectType.Schema?;
    }
  }

  /** Whatever is in the database, rounds of planning and applying settle exactly when nothing is held back or stuck. */
  lemma InspectedConverges(db: Database, patterns: seq<Pattern>, c: RoleGraph, d: RoleGraph)
    requires Inspected(db, patterns, c, d)
    requires GrantsDisjoint(d) && WildcardsDisjoint(d) && SchemasNamed(d) && DefaultsDisjoint(d)
    ensures PlanFor(TwoRounds(c, d), d) == []
      <==> (forall k :: !HeldBack(c, d, k)) && (forall p :: !Stuck(c, d, p))
    ensures PlanFor(Round(TwoRounds(c, d), d), d) == [] <==> forall p :: !Stuck(c, d, p)
  {
    InspectedIsPlannable(db, patterns, c, d);
    ConvergesInTwoRounds(c, d);
    ConvergesInThreeRounds(c, d);
  }
}
