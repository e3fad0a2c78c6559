/**
 The manifest check that rejects opposite assertions, and what it guarantees of
 the graph a manifest builds.
 */
module Validation {
  import opened Model
  import opened Manifest
  import opened Diff
  import opened Rounds
  import opened GrantRounds
  import opened Expansion
  import opened OptionRounds
  import opened Convergence
  import opened Wildcards
  import opened Inspection

  /** One privilege of one grant rule. */
  datatype Assertion = Assertion(key: GrantKey, privilege: Privilege, ensure: Ensure)

  // ---- What is a conflict ----

  /** An object of a schema, or all of them. */
  predicate Selects(k: GrantKey) {
    k.schema.Some? && k.name.Some?
  }

  /** One names an object, the other all objects of the same kind and schema. */
  predicate Crosses(k: GrantKey, l: GrantKey) {
    Selects(k) && Selects(l) && Star(k) == Star(l) && IsStar(k) != IsStar(l)
  }

  predicate Conflict(a: Assertion, b: Assertion) {
    a.privilege == b.privilege && a.ensure != b.ensure && (a.key == b.key || Crosses(a.key, b.key))
  }

  ghost predicate Consistent(assertions: set<Assertion>) {
    forall a, b :: a in assertions && b in assertions ==> !Conflict(a, b)
  }

  ghost predicate Joins(assertions: set<Assertion>, a: Assertion) {
    forall b :: b in assertions ==> !Conflict(a, b)
  }

  // ---- What the check remembers ----

  /** The ensures seen on the wildcard of a scope, and on its named objects. */
  datatype Selectors = Selectors(wildPresent: bool, wildAbsent: bool, namedPresent: bool, namedAbsent: bool)

  const NO_SELECTORS := Selectors(false, false, false, false)

  datatype Seen = Seen(assertions: map<(GrantKey, Privilege), Ensure>, selectors: map<(GrantKey, Privilege), Selectors>)

  function SelectorsOf(seen: Seen, s: GrantKey, p: Privilege): Selectors {
    if (s, p) in seen.selectors then seen.selectors[(s, p)] else NO_SELECTORS
  }

  ghost predicate Ensures(assertions: set<Assertion>, s: GrantKey, p: Privilege, wild: bool, ensure: Ensure) {
    exists a :: a in assertions && Selects(a.key) && Star(a.key) == s && IsStar(a.key) == wild
                && a.privilege == p && a.ensure == ensure
  }

  ghost predicate Matches(assertions: set<Assertion>, s: GrantKey, p: Privilege, f: Selectors) {
    && (f.wildPresent <==> Ensures(assertions, s, p, true, EnsurePresent))
    && (f.wildAbsent <==> Ensures(assertions, s, p, true, EnsureAbsent))
    && (f.namedPresent <==> Ensures(assertions, s, p, false, EnsurePresent))
    && (f.namedAbsent <==> Ensures(assertions, s, p, false, EnsureAbsent))
  }

  ghost predicate Tracks(seen: Seen, assertions: set<Assertion>) {
    && (forall k, p, e :: Get(seen.assertions, (k, p)) == Some(e) <==> Assertion(k, p, e) in assertions)
    && (forall s, p :: Matches(assertions, s, p, SelectorsOf(seen, s, p)))
  }

  function Marked(f: Selectors, wild: bool, ensure: Ensure): Selectors {
    Selectors(
      f.wildPresent || (wild && ensure.EnsurePresent?), f.wildAbsent || (wild && ensure.EnsureAbsent?),
      f.namedPresent || (!wild && ensure.EnsurePresent?), f.namedAbsent || (!wild && ensure.EnsureAbsent?))
  }

  lemma EnsuresMore(assertions: set<Assertion>, a: Assertion, s: GrantKey, p: Privilege, wild: bool, ensure: Ensure)
    ensures Ensures(assertions + {a}, s, p, wild, ensure) <==>
      (Ensures(assertions, s, p, wild, ensure)
       || (Selects(a.key) && Star(a.key) == s && IsStar(a.key) == wild && a.privilege == p && a.ensure == ensure))
  {
    assert a in assertions + {a};
  }

  lemma MatchesMore(assertions: set<Assertion>, a: Assertion, s: GrantKey, p: Privilege, f: Selectors)
    requires Matches(assertions, s, p, f)
    ensures Matches(assertions + {a}, s, p,
              if Selects(a.key) && Star(a.key) == s && a.privilege == p then Marked(f, IsStar(a.key), a.ensure) else f)
  {
    EnsuresMore(assertions, a, s, p, true, EnsurePresent);
    EnsuresMore(assertions, a, s, p, true, EnsureAbsent);
    EnsuresMore(assertions, a, s, p, false, EnsurePresent);
    EnsuresMore(assertions, a, s, p, false, EnsureAbsent);
  }

  predicate Clashes(f: Selectors) {
    (f.wildPresent && f.namedAbsent) || (f.wildAbsent && f.namedPresent)
  }

  /** A clash shows two assertions in conflict. */
  lemma ClashIsConflict(assertions: set<Assertion>, s: GrantKey, p: Privilege, f: Selectors)
    requires Matches(assertions, s, p, f) && Clashes(f)
    ensures !Consistent(assertions)
  {
    var ensure := if f.wildPresent && f.namedAbsent then EnsurePresent else EnsureAbsent;
    var other := if f.wildPresent && f.namedAbsent then EnsureAbsent else EnsurePresent;
    var a :| a in assertions && Selects(a.key) && Star(a.key) == s && IsStar(a.key)
             && a.privilege == p && a.ensure == ensure;
    var b :| b in assertions && Selects(b.key) && Star(b.key) == s && !IsStar(b.key)
             && b.privilege == p && b.ensure == other;
    assert Conflict(a, b);
  }

  lemma ConsistentMore(assertions: set<Assertion>, a: Assertion)
    requires Consistent(assertions)
    ensures Consistent(assertions + {a}) <==> Joins(assertions, a)
  {
    assert a in assertions + {a};
    if Joins(assertions, a) {
      forall x, y | x in assertions + {a} && y in assertions + {a} ensures !Conflict(x, y) {
        assert Conflict(x, y) <==> Conflict(y, x);
      }
    }
  }

  /** An assertion across a scope conflicts exactly when its marks clash. */
  lemma CrossIffClash(assertions: set<Assertion>, a: Assertion, f: Selectors)
    requires Consistent(assertions) && Selects(a.key) && Matches(assertions, Star(a.key), a.privilege, f)
    ensures Clashes(Marked(f, IsStar(a.key), a.ensure)) <==>
      exists b :: b in assertions && a.privilege == b.privilege && a.ensure != b.ensure && Crosses(a.key, b.key)
  {
    var s, p := Star(a.key), a.privilege;
    if Clashes(f) {
      ClashIsConflict(assertions, s, p, f);
    }
    var other := if a.ensure.EnsurePresent? then EnsureAbsent else EnsurePresent;
    if Ensures(assertions, s, p, !IsStar(a.key), other) {
      var b :| b in assertions && Selects(b.key) && Star(b.key) == s && IsStar(b.key) == !IsStar(a.key)
               && b.privilege == p && b.ensure == other;
      assert Crosses(a.key, b.key);
    }
    if b :| b in assertions && a.privilege == b.privilege && a.ensure != b.ensure && Crosses(a.key, b.key) {
      assert Ensures(assertions, s, p, !IsStar(a.key), other);
    }
  }

  // ---- The check, assertion by assertion ----

  lemma TracksMore(seen: Seen, assertions: set<Assertion>, a: Assertion, next: Seen)
    requires Tracks(seen, assertions) && Joins(assertions, a)
    requires next.assertions == seen.assertions[(a.key, a.privilege) := a.ensure]
    requires next.selectors ==
      if Selects(a.key)
      then seen.selectors[(Star(a.key), a.privilege) :=
             Marked(SelectorsOf(seen, Star(a.key), a.privilege), IsStar(a.key), a.ensure)]
      else seen.selectors
    ensures Tracks(next, assertions + {a})
  {
    forall k, p, e
      ensures Get(next.assertions, (k, p)) == Some(e) <==> Assertion(k, p, e) in assertions + {a}
    {
      if (k, p) == (a.key, a.privilege) && Assertion(k, p, e) in assertions {
        assert !Conflict(a, Assertion(k, p, e));
      }
    }
    forall s, p ensures Matches(assertions + {a}, s, p, SelectorsOf(next, s, p)) {
      MatchesMore(assertions, a, s, p, SelectorsOf(seen, s, p));
    }
  }

  /** One more assertion is remembered, or conflicts with one seen before. */
  method Assert(seen: Seen, a: Assertion, ghost assertions: set<Assertion>) returns (next: Option<Seen>)
    requires Tracks(seen, assertions) && Consistent(assertions)
    ensures next.Some? <==> Joins(assertions, a)
    ensures next.Some? ==> Tracks(next.value, assertions + {a}) && Consistent(assertions + {a})
  {
    var key := (a.key, a.privilege);
    if key in seen.assertions && seen.assertions[key] != a.ensure {
      assert Get(seen.assertions, key) == Some(seen.assertions[key]);
      assert Conflict(a, Assertion(a.key, a.privilege, seen.assertions[key]));
      return None;
    }
    SameKeyAgrees(seen, assertions, a);
    var selectors := seen.selectors;
    if Selects(a.key) {
      var s := Star(a.key);
      var f := Marked(SelectorsOf(seen, s, a.privilege), IsStar(a.key), a.ensure);
      CrossIffClash(assertions, a, SelectorsOf(seen, s, a.privilege));
      if Clashes(f) {
        return None;
      }
      selectors := selectors[(s, a.privilege) := f];
    }
    ConsistentMore(assertions, a);
    TracksMore(seen, assertions, a, Seen(seen.assertions[key := a.ensure], selectors));
    next := Some(Seen(seen.assertions[key := a.ensure], selectors));
  }

  lemma SameKeyAgrees(seen: Seen, assertions: set<Assertion>, a: Assertion)
    requires Tracks(seen, assertions)
    requires (a.key, a.privilege) in seen.assertions ==> seen.assertions[(a.key, a.privilege)] == a.ensure
    ensures forall b :: b in assertions && b.key == a.key && b.privilege == a.privilege ==> b.ensure == a.ensure
  {
    forall b | b in assertions && b.key == a.key && b.privilege == a.privilege ensures b.ensure == a.ensure {
      assert b == Assertion(a.key, a.privilege, b.ensure);
      assert Get(seen.assertions, (a.key, a.privilege)) == Some(b.ensure);
    }
  }

  function RuleAssertions(rule: GrantRule, privileges: seq<Privilege>): set<Assertion> {
    set p | p in privileges :: Assertion(GrantKeyOf(rule), p, rule.ensure)
  }

  function AssertionsOf(rules: seq<GrantRule>): set<Assertion> {
    set r, p | r in rules && p in r.privileges :: Assertion(GrantKeyOf(r), p, r.ensure)
  }

  lemma AssertionsNext(rules: seq<GrantRule>, i: nat)
    requires i < |rules|
    ensures AssertionsOf(rules[..i + 1]) == AssertionsOf(rules[..i]) + RuleAssertions(rules[i], rules[i].privileges)
    ensures AssertionsOf(rules[..i + 1]) <= AssertionsOf(rules)
  {
    assert rules[..i + 1] == rules[..i] + [rules[i]];
  }

  method AssertRule(seen: Seen, rule: GrantRule, ghost assertions: set<Assertion>) returns (next: Option<Seen>)
    requires Tracks(seen, assertions) && Consistent(assertions)
    ensures var all := assertions + RuleAssertions(rule, rule.privileges);
      (next.Some? <==> Consistent(all)) && (next.Some? ==> Tracks(next.value, all))
  {
    var now := seen;
    ghost var all := assertions;
    for i := 0 to |rule.privileges|
      invariant all == assertions + RuleAssertions(rule, rule.privileges[..i])
      invariant Tracks(now, all) && Consistent(all)
    {
      var a := Assertion(GrantKeyOf(rule), rule.privileges[i], rule.ensure);
      assert rule.privileges[..i + 1] == rule.privileges[..i] + [rule.privileges[i]];
      assert RuleAssertions(rule, rule.privileges[..i + 1]) == RuleAssertions(rule, rule.privileges[..i]) + {a};
      var r := Assert(now, a, all);
      if r.None? {
        ConsistentMore(all, a);
        Inconsistent(all + {a}, assertions + RuleAssertions(rule, rule.privileges));
        return None;
      }
      now, all := r.value, all + {a};
    }
    assert rule.privileges[..|rule.privileges|] == rule.privileges;
    next := Some(now);
  }

  lemma Inconsistent(part: set<Assertion>, whole: set<Assertion>)
    requires part <= whole && !Consistent(part)
    ensures !Consistent(whole)
  {
  }

  /** A manifest passes exactly when no two of its assertions are in conflict. */
  method ValidateEnsureConflicts(rules: seq<GrantRule>) returns (ok: bool)
    ensures ok <==> Consistent(AssertionsOf(rules))
  {
    var seen := Seen(map[], map[]);
    for i := 0 to |rules|
      invariant Tracks(seen, AssertionsOf(rules[..i])) && Consistent(AssertionsOf(rules[..i]))
    {
      AssertionsNext(rules, i);
      var r := AssertRule(seen, rules[i], AssertionsOf(rules[..i]));
      if r.None? {
        Inconsistent(AssertionsOf(rules[..i + 1]), AssertionsOf(rules));
        return false;
      }
      seen := r.value;
    }
    assert rules[..|rules|] == rules;
    ok := true;
  }

  // ---- The graph of a manifest that passes ----

  lemma GrantCarries(rules: seq<GrantRule>, k: GrantKey, p: Privilege, ensure: Ensure)
    ensures p in Lookup(Collect(GrantEntries(rules), ensure), k) <==> Assertion(k, p, ensure) in AssertionsOf(rules)
  {
    var entries := GrantEntries(rules);
    CollectUnites(entries, ensure, k, p);
    if Carries(entries, ensure, k, p) {
      var i :| 0 <= i < |entries| && entries[i].ensure == ensure && entries[i].key == k && p in entries[i].privileges;
      assert rules[i] in rules;
    }
    if Assertion(k, p, ensure) in AssertionsOf(rules) {
      var r :| r in rules && p in r.privileges && GrantKeyOf(r) == k && r.ensure == ensure;
      var i :| 0 <= i < |rules| && rules[i] == r;
      assert entries[i] in entries && entries[i] == GrantEntry(r);
      assert Carries(entries, ensure, k, p) && Declares(entries, ensure, k);
    }
  }

  /** A target without schema or without name, in conflict with a wildcard: the one kind the check does not see. */
  predicate Loose(d: RoleGraph, k: GrantKey, p: Privilege) {
    && !IsStar(k) && !Selects(k)
    && ((p in Lookup(d.grants, k) && p in Lookup(d.grantAbsences, Star(k)))
        || (p in WildcardPrivileges(d.grants, k) && p in Lookup(d.grantAbsences, k)))
  }

  /** The graph declares and asserts exactly these. */
  ghost predicate Builds(d: RoleGraph, assertions: set<Assertion>) {
    forall k, p ::
      && (p in Lookup(d.grants, k) <==> Assertion(k, p, EnsurePresent) in assertions)
      && (p in Lookup(d.grantAbsences, k) <==> Assertion(k, p, EnsureAbsent) in assertions)
  }

  lemma GraphBuilds(e: Expanded, defaultOwner: Option<string>)
    requires Valid(e)
    ensures Builds(GraphOf(e, defaultOwner), AssertionsOf(e.grants))
  {
    var d := GraphOf(e, defaultOwner);
    forall k, p
      ensures p in Lookup(d.grants, k) <==> Assertion(k, p, EnsurePresent) in AssertionsOf(e.grants)
      ensures p in Lookup(d.grantAbsences, k) <==> Assertion(k, p, EnsureAbsent) in AssertionsOf(e.grants)
    {
      GrantCarries(e.grants, k, p, EnsurePresent);
      GrantCarries(e.grants, k, p, EnsureAbsent);
    }
  }

  lemma ConsistentIsDisjoint(d: RoleGraph, assertions: set<Assertion>)
    requires Builds(d, assertions) && Consistent(assertions) && forall k, p :: !Loose(d, k, p)
    ensures GrantsDisjoint(d) && WildcardsDisjoint(d)
  {
    forall k, p ensures !(p in Lookup(d.grants, k) && p in Lookup(d.grantAbsences, k)) {
      assert Conflict(Assertion(k, p, EnsurePresent), Assertion(k, p, EnsureAbsent));
    }
    forall k, p ensures !(p in Lookup(d.grants, k) && p in Lookup(d.grantAbsences, Star(k))) {
      assert !Loose(d, k, p);
      assert Selects(k) || IsStar(k) ==>
        Conflict(Assertion(k, p, EnsurePresent), Assertion(Star(k), p, EnsureAbsent));
    }
    forall k, p ensures !(p in WildcardPrivileges(d.grants, k) && p in Lookup(d.grantAbsences, k)) {
      assert !Loose(d, k, p);
      assert Selects(k) || IsStar(k) ==>
        Conflict(Assertion(Star(k), p, EnsurePresent), Assertion(k, p, EnsureAbsent));
    }
  }

  lemma NoConflict(d: RoleGraph, k: GrantKey, l: GrantKey, p: Privilege)
    requires GrantsDisjoint(d) && WildcardsDisjoint(d)
    ensures p in Lookup(d.grants, k) && p in Lookup(d.grantAbsences, l) ==> k != l && !Crosses(k, l)
  {
    assert Crosses(k, l) ==> Star(k) == l || Star(l) == k;
    assert Star(l) == k && l.schema.Some? ==> WildcardPrivileges(d.grants, l) == Lookup(d.grants, k);
  }

  lemma DisjointIsConsistent(d: RoleGraph, assertions: set<Assertion>)
    requires Builds(d, assertions) && GrantsDisjoint(d) && WildcardsDisjoint(d)
    ensures Consistent(assertions) && forall k, p :: !Loose(d, k, p)
  {
    forall a, b | a in assertions && b in assertions && a.ensure.EnsurePresent? ensures !Conflict(a, b) {
      NoConflict(d, a.key, b.key, a.privilege);
      assert a == Assertion(a.key, a.privilege, EnsurePresent);
      assert b.ensure.EnsureAbsent? ==> b == Assertion(b.key, b.privilege, EnsureAbsent);
    }
    forall a, b | a in assertions && b in assertions ensures !Conflict(a, b) {
      assert Conflict(a, b) <==> Conflict(b, a);
    }
    forall k, p ensures !Loose(d, k, p) {}
  }

  /**
   The graph of a manifest is free of opposite declarations exactly when the
   manifest passes the check and no target without schema or name is in conflict
   with its wildcard.
   */
  lemma AcceptedIffDisjoint(e: Expanded, defaultOwner: Option<string>)
    requires Valid(e)
    ensures var d := GraphOf(e, defaultOwner);
      (GrantsDisjoint(d) && WildcardsDisjoint(d))
        <==> (Consistent(AssertionsOf(e.grants)) && (forall k, p :: !Loose(d, k, p)))
  {
    var d := GraphOf(e, defaultOwner);
    GraphBuilds(e, defaultOwner);
    if GrantsDisjoint(d) && WildcardsDisjoint(d) {
      DisjointIsConsistent(d, AssertionsOf(e.grants));
    }
    if Consistent(AssertionsOf(e.grants)) && (forall k, p :: !Loose(d, k, p)) {
      ConsistentIsDisjoint(d, AssertionsOf(e.grants));
    }
  }

  /** From an accepted manifest and an inspected database to a plan with nothing left to do. */
  lemma ManifestConverges(e: Expanded, defaultOwner: Option<string>, db: Database, patterns: seq<Pattern>,
                          c: RoleGraph)
    requires Valid(e) && Consistent(AssertionsOf(e.grants))
    requires var d := GraphOf(e, defaultOwner);
      && (forall k, p :: !Loose(d, k, p)) && SchemasNamed(d) && DefaultsDisjoint(d)
      && Inspected(db, patterns, c, d)
    ensures var d := GraphOf(e, defaultOwner);
      && (PlanFor(TwoRounds(c, d), d) == [] <==> (forall k :: !HeldBack(c, d, k)) && (forall p :: !Stuck(c, d, p)))
      && (PlanFor(Round(TwoRounds(c, d), d), d) == [] <==> forall p :: !Stuck(c, d, p))
  {
    AcceptedIffDisjoint(e, defaultOwner);
    InspectedConverges(db, patterns, c, GraphOf(e, defaultOwner));
  }

  // ---- The kind of conflict that passes ----

  const LOOSE_RULES := [
    GrantRule("r", [Connect], ObjectType.Database, None, Some("app"), EnsurePresent),
    GrantRule("r", [Connect], ObjectType.Database, None, Some("*"), EnsureAbsent)]

  const LOOSE_KEY := GrantKey(Role("r"), ObjectType.Database, None, Some("app"))

  lemma LooseAssertions()
    ensures AssertionsOf(LOOSE_RULES)
         == {Assertion(LOOSE_KEY, Connect, EnsurePresent), Assertion(Star(LOOSE_KEY), Connect, EnsureAbsent)}
  {
    var a, b := LOOSE_RULES[0], LOOSE_RULES[1];
    assert LOOSE_RULES == [a, b] && a in LOOSE_RULES && b in LOOSE_RULES;
    assert Connect in a.privileges && Connect in b.privileges;
    assert GrantKeyOf(a) == LOOSE_KEY && GrantKeyOf(b) == Star(LOOSE_KEY);
  }

  lemma LooseIsConsistent()
    ensures Consistent(AssertionsOf(LOOSE_RULES))
  {
    LooseAssertions();
  }

  /** Without a schema the check does not compare a name with a wildcard, and no graph ever settles. */
  lemma LooseConflictPasses(e: Expanded, c: RoleGraph)
    requires Valid(e) && e.grants == LOOSE_RULES && LOOSE_KEY !in c.inherent
    ensures Consistent(AssertionsOf(e.grants)) && PlanFor(c, GraphOf(e, None)) != []
  {
    LooseIsConsistent();
    LooseAssertions();
    GraphBuilds(e, None);
    LooseSettlesNothing(c, GraphOf(e, None));
  }

  lemma LooseSettlesNothing(c: RoleGraph, d: RoleGraph)
    requires LOOSE_KEY !in c.inherent
      && Builds(d, {Assertion(LOOSE_KEY, Connect, EnsurePresent), Assertion(Star(LOOSE_KEY), Connect, EnsureAbsent)})
    ensures PlanFor(c, d) != []
  {
    OppositeNeverSettles(c, d, LOOSE_KEY, Connect);
  }
}
