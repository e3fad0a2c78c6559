/**
 Exporting a graph and rebuilding the manifest gives a desired graph that plans
 nothing, exactly when settings and schema owners are in canonical shape.
 */
module RoundTrip {
  import opened Sequences
  import opened Orders
  import opened Model
  import opened Roles
  import opened Manifest
  import opened Diff
  import opened Rounds
  import opened MemberRounds
  import opened Convergence
  import opened DiffLoops
  import opened Guc
  import opened Expansion
  import opened Ownership
  import opened Export

  // ---- Privileges and grantees ----

  lemma {:induction false} InListOf(order: seq<Privilege>, privileges: Privileges, p: Privilege)
    ensures p in ListOf(order, privileges) <==> p in order && p in privileges
  {
    if order != [] {
      InListOf(order[1..], privileges, p);
      assert order == [order[0]] + order[1..];
    }
  }

  lemma EveryPrivilegeListed(p: Privilege)
    ensures p in PRIVILEGE_ORDER
  {
    match p
    case Connect => assert PRIVILEGE_ORDER[0] == p;
    case Create => assert PRIVILEGE_ORDER[1] == p;
    case Delete => assert PRIVILEGE_ORDER[2] == p;
    case Execute => assert PRIVILEGE_ORDER[3] == p;
    case Insert => assert PRIVILEGE_ORDER[4] == p;
    case References => assert PRIVILEGE_ORDER[5] == p;
    case Select => assert PRIVILEGE_ORDER[6] == p;
    case Temporary => assert PRIVILEGE_ORDER[7] == p;
    case Trigger => assert PRIVILEGE_ORDER[8] == p;
    case Truncate => assert PRIVILEGE_ORDER[9] == p;
    case Update => assert PRIVILEGE_ORDER[10] == p;
    case Usage => assert PRIVILEGE_ORDER[11] == p;
  }

  lemma ListsBack(privileges: Privileges)
    ensures Elements(PrivilegeList(privileges)) == privileges
  {
    forall p ensures p in Elements(PrivilegeList(privileges)) <==> p in privileges {
      InListOf(PRIVILEGE_ORDER, privileges, p);
      EveryPrivilegeListed(p);
    }
  }

  /** No role bears the spelling of the pseudo-role. */
  ghost predicate NoPublicRole(g: RoleGraph) {
    && (forall k :: k in g.grants ==> k.role != Role(PUBLIC_ROLE))
    && (forall k :: k in g.defaults ==> k.grantee != Role(PUBLIC_ROLE))
  }

  // ---- Settings ----

  predicate SettingsCanonical(config: map<string, string>) {
    forall p :: p in config ==> AsciiLower(p) == p && SettingOf(p, config[p]) == config[p]
  }

  lemma LowerTwice(s: string)
    ensures AsciiLower(AsciiLower(s)) == AsciiLower(s)
  {
  }

  lemma SettingTwice(p: string, value: string)
    ensures SettingOf(p, SettingOf(p, value)) == SettingOf(p, value)
  {
    CanonicalIsIdempotent(value);
  }

  lemma {:induction false} SettingsKept(config: map<string, string>, names: seq<string>, p: string)
    requires SettingsCanonical(config) && forall n :: n in names ==> n in config
    ensures Get(SettingsFrom(config, names), p) == if p in names then Some(config[p]) else None
  {
    if names != [] {
      var init, last := names[..|names| - 1], names[|names| - 1];
      assert names == init + [last] && last in names;
      SettingsKept(config, init, p);
    }
  }

  lemma {:induction false} SettingsAreCanonical(config: map<string, string>, names: seq<string>, p: string)
    requires p in SettingsFrom(config, names)
    ensures AsciiLower(p) == p && SettingOf(p, SettingsFrom(config, names)[p]) == SettingsFrom(config, names)[p]
  {
    var init, last := names[..|names| - 1], names[|names| - 1];
    if last in config && AsciiLower(last) == p {
      LowerTwice(last);
      SettingTwice(p, config[last]);
    } else {
      SettingsAreCanonical(config, init, p);
    }
  }

  /** Settings survive the round trip exactly when they are canonical. */
  lemma SettingsRoundTrip(config: map<string, string>)
    ensures SettingsFrom(config, Sorted(config.Keys, StringLe)) == config <==> SettingsCanonical(config)
  {
    var names := Sorted(config.Keys, StringLe);
    if SettingsCanonical(config) {
      forall p ensures Get(SettingsFrom(config, names), p) == Get(config, p) {
        SettingsKept(config, names, p);
      }
      SameGets(SettingsFrom(config, names), config);
    }
    if SettingsFrom(config, names) == config {
      forall p | p in config ensures AsciiLower(p) == p && SettingOf(p, config[p]) == config[p] {
        SettingsAreCanonical(config, names, p);
      }
    }
  }

  // ---- Roles and schemas ----

  lemma {:induction false} RolesBack(g: RoleGraph, names: seq<string>, n: string)
    requires forall m :: m in names ==> m in g.roles
    ensures Get(RolesFrom(FlatMap(names, DefinitionFn(g))), n)
      == if n in names then Some(FromDefinition(ToDefinition(n, g.roles[n]))) else None
  {
    if names != [] {
      var init, last := names[..|names| - 1], names[|names| - 1];
      assert names == init + [last] && last in names;
      RolesBack(g, init, n);
      var defs := FlatMap(init, DefinitionFn(g));
      assert (defs + [ToDefinition(last, g.roles[last])])[..|defs|] == defs;
    }
  }

  lemma StateBack(n: string, s: RoleState)
    ensures FromDefinition(ToDefinition(n, s)) == s.(config := SettingsFrom(s.config, Sorted(s.config.Keys, StringLe)))
  {
  }

  lemma {:induction false} SchemasBack(g: RoleGraph, names: seq<string>, n: string)
    requires forall m :: m in names ==> m in g.schemas
    ensures Get(SchemasFrom(FlatMap(names, SchemaRuleFn(g))), n)
      == if n in names then Some(SchemaFrom(SchemaRule(n, g.schemas[n].owner))) else None
  {
    if names != [] {
      var init, last := names[..|names| - 1], names[|names| - 1];
      assert names == init + [last] && last in names;
      SchemasBack(g, init, n);
      var rules := FlatMap(init, SchemaRuleFn(g));
      assert (rules + [SchemaRule(last, g.schemas[last].owner)])[..|rules|] == rules;
    }
  }

  // ---- Grants ----

  /** The entries are the rows of `m` and nothing else, all of them declared present. */
  ghost predicate Rows<K(!new)>(entries: seq<Entry<K>>, m: map<K, Privileges>) {
    && (forall e :: e in entries ==> e.ensure.EnsurePresent? && e.key in m && e.privileges == m[e.key])
    && (forall k :: k in m ==> Entry(k, m[k], EnsurePresent) in entries)
  }

  lemma RowsCollect<K(!new)>(entries: seq<Entry<K>>, m: map<K, Privileges>)
    requires Rows(entries, m)
    ensures Collect(entries, EnsurePresent) == m && Collect(entries, EnsureAbsent) == map[]
  {
    forall k ensures Get(Collect(entries, EnsurePresent), k) == Get(m, k) && k !in Collect(entries, EnsureAbsent) {
      RowCollects(entries, m, k);
    }
    SameGets(Collect(entries, EnsurePresent), m);
  }

  lemma RowCollects<K(!new)>(entries: seq<Entry<K>>, m: map<K, Privileges>, k: K)
    requires Rows(entries, m)
    ensures Get(Collect(entries, EnsurePresent), k) == Get(m, k) && k !in Collect(entries, EnsureAbsent)
  {
    CollectUnites(entries, EnsurePresent, k, Select);
    CollectUnites(entries, EnsureAbsent, k, Select);
    assert !Declares(entries, EnsureAbsent, k);
    if k in m {
      assert Entry(k, m[k], EnsurePresent) in entries;
      assert Declares(entries, EnsurePresent, k);
      forall p ensures p in Collect(entries, EnsurePresent)[k] <==> p in m[k] {
        CollectUnites(entries, EnsurePresent, k, p);
        RowCarries(entries, m, k, p);
      }
      assert Collect(entries, EnsurePresent)[k] == m[k];
    }
  }

  lemma RowCarries<K(!new)>(entries: seq<Entry<K>>, m: map<K, Privileges>, k: K, p: Privilege)
    requires Rows(entries, m) && k in m
    ensures Carries(entries, EnsurePresent, k, p) <==> p in m[k]
  {
    var row := Entry(k, m[k], EnsurePresent);
    if p in m[k] {
      assert row in entries && row.ensure == EnsurePresent && row.key == k && p in row.privileges;
    }
    if Carries(entries, EnsurePresent, k, p) {
      var e :| e in entries && e.ensure == EnsurePresent && e.key == k && p in e.privileges;
      assert e.privileges == m[k];
    }
  }

  ghost function Declarable(g: RoleGraph): map<GrantKey, Privileges> {
    map k | k in g.grants && k !in g.inherent :: g.grants[k]
  }

  lemma GrantEntryBack(k: GrantKey, privileges: Privileges)
    requires k.role != Role(PUBLIC_ROLE)
    ensures GrantEntry(GrantRuleOf(k, privileges)) == Entry(k, privileges, EnsurePresent)
  {
    ListsBack(privileges);
  }

  lemma InExportedGrants(g: RoleGraph, rule: GrantRule)
    ensures rule in Exported(g).grants <==> exists k :: k in Declarable(g) && rule == GrantRuleOf(k, g.grants[k])
  {
    InGrantRules(g, Sorted(g.grants.Keys, GrantKeyLe), rule);
  }

  lemma InGrantRules(g: RoleGraph, keys: seq<GrantKey>, rule: GrantRule)
    requires forall k :: k in keys <==> k in g.grants
    ensures rule in FlatMap(keys, GrantRuleFn(g)) <==>
      exists k :: k in Declarable(g) && rule == GrantRuleOf(k, g.grants[k])
  {
    InFlatMap(keys, GrantRuleFn(g), rule);
    if k :| k in Declarable(g) && rule == GrantRuleOf(k, g.grants[k]) {
      assert k in keys && rule in GrantRuleFn(g)(k);
    }
  }

  lemma GrantsBack(g: RoleGraph)
    requires NoPublicRole(g)
    ensures Rows(GrantEntries(Exported(g).grants), Declarable(g))
  {
    var rules, m := Exported(g).grants, Declarable(g);
    var entries := GrantEntries(rules);
    forall e | e in entries ensures e.ensure.EnsurePresent? && e.key in m && e.privileges == m[e.key] {
      var i :| 0 <= i < |entries| && entries[i] == e;
      assert rules[i] in rules;
      InExportedGrants(g, rules[i]);
      var k :| k in m && rules[i] == GrantRuleOf(k, g.grants[k]);
      GrantEntryBack(k, g.grants[k]);
    }
    forall k | k in m ensures Entry(k, m[k], EnsurePresent) in entries {
      InExportedGrants(g, GrantRuleOf(k, g.grants[k]));
      var i :| 0 <= i < |rules| && rules[i] == GrantRuleOf(k, g.grants[k]);
      GrantEntryBack(k, g.grants[k]);
      assert entries[i] == Entry(k, m[k], EnsurePresent);
    }
  }

  // ---- Default privileges ----

  lemma RuleBack(group: Group, grants: seq<DefaultGrant>)
    ensures RuleOf(group, grants).ResolvedScope() == Some(group.1)
    ensures RuleOf(group, grants).OwnerOr(None) == group.0 && RuleOf(group, grants).grants == grants
  {
  }

  lemma DefaultEntryBack(k: DefaultPrivKey, privileges: Privileges)
    requires k.grantee != Role(PUBLIC_ROLE)
    ensures DefaultEntry(k.owner, k.scope, DefaultGrantOf(k, privileges)) == Entry(k, privileges, EnsurePresent)
  {
    ListsBack(privileges);
  }

  ghost function GroupGrants(g: RoleGraph, group: Group): seq<DefaultGrant> {
    FlatMap(Sorted(g.defaults.Keys, DefaultKeyLe), InGroupFn(g, group))
  }

  lemma InGroupGrants(g: RoleGraph, group: Group, grant: DefaultGrant)
    ensures grant in GroupGrants(g, group) <==>
      exists k :: k in g.defaults && GroupOf(k) == group && grant == DefaultGrantOf(k, g.defaults[k])
  {
    var keys := Sorted(g.defaults.Keys, DefaultKeyLe);
    InFlatMap(keys, InGroupFn(g, group), grant);
    if k :| k in g.defaults && GroupOf(k) == group && grant == DefaultGrantOf(k, g.defaults[k]) {
      assert k in keys && grant in InGroupFn(g, group)(k);
    }
  }

  lemma InExportedDefaults(g: RoleGraph, rule: DefaultRule)
    ensures rule in Exported(g).defaults <==>
      exists group :: group in Groups(g.defaults.Keys) && rule == RuleOf(group, GroupGrants(g, group))
  {
    var groups := Sorted(Groups(g.defaults.Keys), GroupLe);
    InFlatMap(groups, GroupFn(g), rule);
    if group :| group in Groups(g.defaults.Keys) && rule == RuleOf(group, GroupGrants(g, group)) {
      assert group in groups && rule in GroupFn(g)(group);
    }
  }

  lemma ExportIsValid(g: RoleGraph)
    ensures Valid(Exported(g))
  {
    forall rule | rule in Exported(g).defaults ensures RuleValid(rule) {
      InExportedDefaults(g, rule);
      var group :| group in Groups(g.defaults.Keys) && rule == RuleOf(group, GroupGrants(g, group));
      RuleBack(group, GroupGrants(g, group));
      forall grant | grant in rule.grants ensures grant.role.Some? {
        InGroupGrants(g, group, grant);
      }
    }
  }

  predicate FromGrant(rule: DefaultRule, grant: DefaultGrant, e: Entry<DefaultPrivKey>)
    requires RuleValid(rule)
  {
    grant.role.Some? && e == DefaultEntry(rule.OwnerOr(None), rule.ResolvedScope().value, grant)
  }

  /** An entry comes from some grant of some rule. */
  ghost predicate FromRule(rules: seq<DefaultRule>, rule: DefaultRule, grant: DefaultGrant, e: Entry<DefaultPrivKey>) {
    rule in rules && RuleValid(rule) && grant in rule.grants && FromGrant(rule, grant, e)
  }

  lemma {:induction false} InDefaultEntries(rules: seq<DefaultRule>, e: Entry<DefaultPrivKey>)
    requires forall r :: r in rules ==> RuleValid(r)
    ensures e in DefaultEntries(rules, None) <==> exists rule, grant :: FromRule(rules, rule, grant, e)
  {
    if rules != [] {
      var init, last := rules[..|rules| - 1], rules[|rules| - 1];
      assert rules == init + [last] && last in rules;
      InDefaultEntries(init, e);
      InRuleEntries(last, e);
      if e in RuleEntries(last, None) {
        var grant :| grant in last.grants && FromGrant(last, grant, e);
        assert FromRule(rules, last, grant, e);
      }
      if rule, grant :| FromRule(init, rule, grant, e) {
        assert FromRule(rules, rule, grant, e);
      }
      if rule, grant :| FromRule(rules, rule, grant, e) {
        if rule in init {
          assert FromRule(init, rule, grant, e);
        }
      }
    }
  }

  lemma InRuleEntries(rule: DefaultRule, e: Entry<DefaultPrivKey>)
    requires RuleValid(rule)
    ensures e in RuleEntries(rule, None) <==>
      exists grant :: grant in rule.grants && FromGrant(rule, grant, e)
  {
    var entries := RuleEntries(rule, None);
    if e in entries {
      var i :| 0 <= i < |entries| && entries[i] == e;
      assert rule.grants[i] in rule.grants;
    }
    if grant :| grant in rule.grants && FromGrant(rule, grant, e) {
      var i :| 0 <= i < |rule.grants| && rule.grants[i] == grant;
      assert entries[i] == e;
    }
  }

  lemma DefaultsBack(g: RoleGraph)
    requires NoPublicRole(g) && Valid(Exported(g))
    ensures Rows(DefaultEntries(Exported(g).defaults, None), g.defaults)
  {
    var rules := Exported(g).defaults;
    var entries := DefaultEntries(rules, None);
    forall e | e in entries
      ensures e.ensure.EnsurePresent? && e.key in g.defaults && e.privileges == g.defaults[e.key]
    {
      InDefaultEntries(rules, e);
      var rule, grant :| FromRule(rules, rule, grant, e);
      InExportedDefaults(g, rule);
      var group :| group in Groups(g.defaults.Keys) && rule == RuleOf(group, GroupGrants(g, group));
      RuleBack(group, GroupGrants(g, group));
      InGroupGrants(g, group, grant);
      var k :| k in g.defaults && GroupOf(k) == group && grant == DefaultGrantOf(k, g.defaults[k]);
      DefaultEntryBack(k, g.defaults[k]);
    }
    forall k | k in g.defaults ensures Entry(k, g.defaults[k], EnsurePresent) in entries {
      DefaultBack(g, k);
    }
  }

  lemma DefaultBack(g: RoleGraph, k: DefaultPrivKey)
    requires NoPublicRole(g) && Valid(Exported(g)) && k in g.defaults
    ensures Entry(k, g.defaults[k], EnsurePresent) in DefaultEntries(Exported(g).defaults, None)
  {
    var rules, group, grant := Exported(g).defaults, GroupOf(k), DefaultGrantOf(k, g.defaults[k]);
    var rule := RuleOf(group, GroupGrants(g, group));
    assert group in Groups(g.defaults.Keys);
    InExportedDefaults(g, rule);
    RuleBack(group, GroupGrants(g, group));
    InGroupGrants(g, group, grant);
    DefaultEntryBack(k, g.defaults[k]);
    assert FromRule(rules, rule, grant, Entry(k, g.defaults[k], EnsurePresent));
    InDefaultEntries(rules, Entry(k, g.defaults[k], EnsurePresent));
  }

  // ---- Memberships ----

  lemma EdgeExported(g: RoleGraph, e: MembershipEdge)
    requires e in g.memberships
    ensures e in EdgesFrom(Exported(g).memberships)
  {
    var rule := MembershipRule(e.role, FlatMap(Sorted(g.memberships, EdgeLe), MemberFn(e.role)), false);
    assert e.role in GrantedRoles(g.memberships);
    InExportedMembers(g, rule);
    InMembers(g, e.role, SpecOf(e));
    SpecBack(e);
    InEdgesFrom(Exported(g).memberships, rule, SpecOf(e));
  }

  lemma InEdgesFrom(rules: seq<MembershipRule>, rule: MembershipRule, m: MemberSpec)
    requires rule in rules && m in rule.members
    ensures EdgeFrom(rule.role, m) in EdgesFrom(rules)
  {
  }

  lemma SpecBack(e: MembershipEdge)
    ensures EdgeFrom(e.role, SpecOf(e)) == e
  {
  }

  lemma EdgeDeclared(g: RoleGraph, rule: MembershipRule, m: MemberSpec)
    requires rule in Exported(g).memberships && m in rule.members
    ensures EdgeFrom(rule.role, m) in g.memberships
  {
    InExportedMembers(g, rule);
    InMembers(g, rule.role, m);
    var e :| e in g.memberships && e.role == rule.role && m == SpecOf(e);
    SpecBack(e);
  }

  lemma EdgesBack(g: RoleGraph)
    ensures EdgesFrom(Exported(g).memberships) == g.memberships
  {
    var rules := Exported(g).memberships;
    forall e | e in g.memberships ensures e in EdgesFrom(rules) {
      EdgeExported(g, e);
    }
    forall rule, m | rule in rules && m in rule.members ensures EdgeFrom(rule.role, m) in g.memberships {
      EdgeDeclared(g, rule, m);
    }
  }

  lemma InMembers(g: RoleGraph, role: string, m: MemberSpec)
    ensures m in FlatMap(Sorted(g.memberships, EdgeLe), MemberFn(role)) <==>
      exists e :: e in g.memberships && e.role == role && m == SpecOf(e)
  {
    var edges := Sorted(g.memberships, EdgeLe);
    InFlatMap(edges, MemberFn(role), m);
    if e :| e in g.memberships && e.role == role && m == SpecOf(e) {
      assert e in edges && m in MemberFn(role)(e);
    }
  }

  lemma InExportedMembers(g: RoleGraph, rule: MembershipRule)
    ensures rule in Exported(g).memberships <==>
      rule.role in GrantedRoles(g.memberships) && !rule.exclusive
      && rule.members == FlatMap(Sorted(g.memberships, EdgeLe), MemberFn(rule.role))
  {
    var roles := Sorted(GrantedRoles(g.memberships), StringLe);
    InFlatMap(roles, MembershipFn(g), rule);
    if rule.role in GrantedRoles(g.memberships) && !rule.exclusive
       && rule.members == FlatMap(Sorted(g.memberships, EdgeLe), MemberFn(rule.role)) {
      assert rule.role in roles && rule in MembershipFn(g)(rule.role);
    }
  }

  // ---- The rebuilt graph plans nothing ----

  ghost function Rebuilt(g: RoleGraph): RoleGraph
    requires Valid(Exported(g))
  {
    GraphOf(Exported(g), None)
  }

  /** Every part of the rebuilt graph. */
  lemma RebuiltParts(g: RoleGraph)
    requires NoPublicRole(g) && Valid(Exported(g))
    ensures Rebuilt(g).grants == Declarable(g) && Rebuilt(g).grantAbsences == map[]
    ensures Rebuilt(g).defaults == g.defaults && Rebuilt(g).defaultAbsences == map[]
    ensures Rebuilt(g).memberships == g.memberships
    ensures forall n ::
      Get(Rebuilt(g).roles, n) == if n in g.roles then Some(FromDefinition(ToDefinition(n, g.roles[n]))) else None
    ensures forall n ::
      Get(Rebuilt(g).schemas, n) == if n in g.schemas then Some(SchemaFrom(SchemaRule(n, g.schemas[n].owner))) else None
  {
    GrantsBack(g);
    RowsCollect(GrantEntries(Exported(g).grants), Declarable(g));
    DefaultsBack(g);
    RowsCollect(DefaultEntries(Exported(g).defaults, None), g.defaults);
    EdgesBack(g);
    forall n
      ensures Get(Rebuilt(g).roles, n) ==
        if n in g.roles then Some(FromDefinition(ToDefinition(n, g.roles[n]))) else None
    {
      RolesBack(g, Sorted(g.roles.Keys, StringLe), n);
    }
    forall n
      ensures Get(Rebuilt(g).schemas, n) ==
        if n in g.schemas then Some(SchemaFrom(SchemaRule(n, g.schemas[n].owner))) else None
    {
      SchemasBack(g, Sorted(g.schemas.Keys, StringLe), n);
    }
  }

  ghost predicate SettingsReady(g: RoleGraph) {
    forall n :: n in g.roles ==> SettingsCanonical(g.roles[n].config)
  }

  predicate OwnerReady(g: RoleGraph, n: string)
    requires n in g.schemas
  {
    g.schemas[n].owner.Some? ==> OWNER_PRIVILEGES <= g.schemas[n].ownerPrivileges
  }

  ghost predicate OwnersReady(g: RoleGraph) {
    forall n :: n in g.schemas ==> OwnerReady(g, n)
  }

  /** Inspected keys already carry the spellings that aliases resolve to. */
  ghost predicate AliasesReady(g: RoleGraph) {
    forall k :: k in g.grants ==> ResolveKey(g.routineAliases, k) == k
  }

  lemma RoleBack(g: RoleGraph, n: string)
    requires NoPublicRole(g) && Valid(Exported(g)) && n in g.roles
    ensures n in Rebuilt(g).roles
    ensures Rebuilt(g).roles[n] == g.roles[n] <==> SettingsCanonical(g.roles[n].config)
    ensures Rebuilt(g).roles[n].comment == g.roles[n].comment
  {
    RebuiltParts(g);
    assert Get(Rebuilt(g).roles, n) == Some(FromDefinition(ToDefinition(n, g.roles[n])));
    StateBack(n, g.roles[n]);
    SettingsRoundTrip(g.roles[n].config);
  }

  lemma RebuiltRoles(g: RoleGraph)
    requires NoPublicRole(g) && Valid(Exported(g))
    ensures Rebuilt(g).roles == g.roles <==> SettingsReady(g)
  {
    RebuiltParts(g);
    var d := Rebuilt(g);
    if SettingsReady(g) {
      forall n ensures Get(d.roles, n) == Get(g.roles, n) {
        if n in g.roles {
          RoleBack(g, n);
        }
      }
      SameGets(d.roles, g.roles);
    } else {
      var n :| n in g.roles && !SettingsCanonical(g.roles[n].config);
      RoleBack(g, n);
    }
  }

  lemma OwnerBack(g: RoleGraph, d: RoleGraph, n: string)
    requires Get(d.schemas, n) == if n in g.schemas then Some(SchemaFrom(SchemaRule(n, g.schemas[n].owner))) else None
    ensures n in d.schemas <==> n in g.schemas
    ensures n in d.schemas ==> !OwnerMoves(g, d, n)
    ensures n in d.schemas ==>
      (MissingOwnerPrivileges(g, d, n) == {} <==> OwnerReady(g, n))
  {
    if n in g.schemas && OWNER_PRIVILEGES - g.schemas[n].ownerPrivileges == {} {
      forall p | p in OWNER_PRIVILEGES ensures p in g.schemas[n].ownerPrivileges {
        assert p !in OWNER_PRIVILEGES - g.schemas[n].ownerPrivileges;
      }
    }
  }

  lemma OwnersBack(g: RoleGraph, d: RoleGraph)
    requires forall n ::
      Get(d.schemas, n) == if n in g.schemas then Some(SchemaFrom(SchemaRule(n, g.schemas[n].owner))) else None
    ensures SchemasPlaced(g, d) && (OwnersComplete(g, d) <==> OwnersReady(g))
  {
    forall n
      ensures n in d.schemas <==> n in g.schemas
      ensures n in d.schemas ==> !OwnerMoves(g, d, n)
      ensures n in d.schemas ==>
        (MissingOwnerPrivileges(g, d, n) == {} <==> OwnerReady(g, n))
    {
      OwnerBack(g, d, n);
    }
  }

  lemma RebuiltOwners(g: RoleGraph)
    requires NoPublicRole(g) && Valid(Exported(g))
    ensures SchemasPlaced(g, Rebuilt(g))
    ensures OwnersComplete(g, Rebuilt(g)) <==> OwnersReady(g)
  {
    RebuiltParts(g);
    OwnersBack(g, Rebuilt(g));
  }

  lemma RebuiltQuietGrants(g: RoleGraph)
    requires NoPublicRole(g) && Valid(Exported(g))
    ensures Grants(g, Rebuilt(g)) == [] && AllRevokes(g, Rebuilt(g)) == []
  {
    RebuiltParts(g);
    DeclarableIsQuiet(g, Rebuilt(g));
  }

  lemma DeclarableIsQuiet(g: RoleGraph, d: RoleGraph)
    requires d.grants == Declarable(g) && d.grantAbsences == map[]
    ensures Grants(g, d) == [] && AllRevokes(g, d) == []
  {
    QuietGrants(g, d);
    forall k ensures ToRevoke(g, d, k) == {} {
      NothingExcess(g, d, k);
    }
    assert RevokeMap(g, d) == map[];
  }

  lemma NothingExcess(g: RoleGraph, d: RoleGraph, k: GrantKey)
    requires d.grants == Declarable(g) && d.grantAbsences == map[]
    ensures ToRevoke(g, d, k) == {}
  {
    assert Lookup(d.grantAbsences, k) == {};
    if k in g.grants && k !in g.inherent {
      assert g.grants[k] - Lookup(d.grants, k) == {};
    }
  }

  lemma SameDefaultsQuiet(g: RoleGraph, d: RoleGraph, k: DefaultPrivKey)
    requires d.defaults == g.defaults && d.defaultAbsences == map[]
    ensures !RevokesDefault(g, d, k)
  {
    assert Lookup(d.defaultAbsences, k) == {};
    assert DefaultExcess(g, d, k) == {} && DefaultAsserted(g, d, k) == {};
  }

  lemma RebuiltQuietDefaults(g: RoleGraph)
    requires NoPublicRole(g) && Valid(Exported(g))
    ensures SetDefaults(g, Rebuilt(g)) == [] && RevokeDefaults(g, Rebuilt(g)) == []
  {
    RebuiltParts(g);
    var d := Rebuilt(g);
    forall k ensures !RevokesDefault(g, d, k) {
      SameDefaultsQuiet(g, d, k);
    }
    QuietDefaults(g, d);
  }

  lemma RebuiltQuietMembers(g: RoleGraph)
    requires NoPublicRole(g) && Valid(Exported(g))
    ensures Removes(g, Rebuilt(g)) == [] && Adds(g, Rebuilt(g)) == []
  {
    RebuiltParts(g);
    forall p ensures Settled(g, Rebuilt(g), p) {}
    QuietMembers(g, Rebuilt(g));
  }

  lemma RebuiltResolved(g: RoleGraph)
    requires NoPublicRole(g) && Valid(Exported(g)) && AliasesReady(g)
    ensures DiffOf(g, Rebuilt(g)) == PlanFor(g, Rebuilt(g))
  {
    RebuiltParts(g);
    NothingRenamed(g.routineAliases, Rebuilt(g).grants);
    NothingRenamed(g.routineAliases, Rebuilt(g).grantAbsences);
  }

  lemma EmptyParts(c: RoleGraph, d: RoleGraph)
    requires PlanFor(c, d) == []
    ensures Alters(c, d) == [] && OwnerGrants(c, d) == []
  {
    assert Prepare(c, d) == [] && Widen(c, d) == [];
  }

  lemma EmptyAltersKeepRoles(c: RoleGraph, d: RoleGraph)
    requires Alters(c, d) == [] && c.roles.Keys == d.roles.Keys
    ensures c.roles == d.roles
  {
    forall n | n in c.roles ensures c.roles[n] == d.roles[n] {
      EmptyAltersSettle(c, d, n);
    }
  }

  /** An empty plan leaves roles and owners as they are. */
  lemma EmptyPlanSettles(c: RoleGraph, d: RoleGraph)
    requires PlanFor(c, d) == [] && c.roles.Keys == d.roles.Keys
    ensures c.roles == d.roles && OwnersComplete(c, d)
  {
    EmptyParts(c, d);
    EmptyAltersKeepRoles(c, d);
    forall n | n in d.schemas ensures MissingOwnerPrivileges(c, d, n) == {} {
      EmptyOwnersSettle(c, d, n);
    }
  }

  lemma {:induction false} EmptyPiece<A, B>(xs: seq<A>, f: A -> seq<B>, x: A)
    requires FlatMap(xs, f) == [] && x in xs
    ensures f(x) == []
  {
    if x != xs[|xs| - 1] {
      assert x in xs[..|xs| - 1];
      EmptyPiece(xs[..|xs| - 1], f, x);
    }
  }

  lemma EmptyAltersSettle(c: RoleGraph, d: RoleGraph, n: string)
    requires Alters(c, d) == [] && n in c.roles && n in d.roles
    ensures c.roles[n] == d.roles[n]
  {
    var names, f := Sorted(d.roles.Keys, StringLe), AlterFn(c, d);
    assert n in names;
    EmptyPiece(names, f, n);
    DeltaEmpty(c.roles[n], d.roles[n]);
  }

  lemma EmptyOwnersSettle(c: RoleGraph, d: RoleGraph, n: string)
    requires OwnerGrants(c, d) == [] && n in d.schemas
    ensures MissingOwnerPrivileges(c, d, n) == {}
  {
    var names, f := Sorted(d.schemas.Keys, StringLe), OwnerFn(c, d);
    assert n in names;
    EmptyPiece(names, f, n);
  }

  /**
   Export round trip. Rebuilding the exported manifest gives a desired graph
   that needs no change, although owner-inherent grants are not exported,
   exactly when list settings and setting names are canonical and owned
   schemas carry the full owner privileges.
   */
  lemma ExportRoundTrip(g: RoleGraph)
    requires NoPublicRole(g) && AliasesReady(g)
    ensures Valid(Exported(g))
    ensures DiffOf(g, Rebuilt(g)) == [] <==> SettingsReady(g) && OwnersReady(g)
  {
    ExportIsValid(g);
    RebuiltResolved(g);
    RebuiltRoles(g);
    RebuiltOwners(g);
    if SettingsReady(g) && OwnersReady(g) {
      RebuiltIsQuiet(g);
    }
    if DiffOf(g, Rebuilt(g)) == [] {
      RebuiltNames(g);
      EmptyPlanSettles(g, Rebuilt(g));
    }
  }

  lemma RebuiltNames(g: RoleGraph)
    requires NoPublicRole(g) && Valid(Exported(g))
    ensures g.roles.Keys == Rebuilt(g).roles.Keys
  {
    RebuiltParts(g);
    forall n ensures n in g.roles <==> n in Rebuilt(g).roles {
      assert Get(Rebuilt(g).roles, n) ==
        if n in g.roles then Some(FromDefinition(ToDefinition(n, g.roles[n]))) else None;
    }
  }

  lemma RebuiltIsQuiet(g: RoleGraph)
    requires NoPublicRole(g) && Valid(Exported(g))
    requires Rebuilt(g).roles == g.roles && SchemasPlaced(g, Rebuilt(g)) && OwnersComplete(g, Rebuilt(g))
    ensures PlanFor(g, Rebuilt(g)) == []
  {
    QuietRoles(g, Rebuilt(g));
    QuietSchemas(g, Rebuilt(g));
    RebuiltQuietGrants(g);
    RebuiltQuietDefaults(g);
    RebuiltQuietMembers(g);
    EmptyIff(g, Rebuilt(g));
  }
}
