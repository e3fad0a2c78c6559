/**
 Exporting an inspected graph to a flat manifest, and what rebuilding the
 manifest gives back.
 */
module Export {
  import opened Sequences
  import opened Orders
  import opened Model
  import opened Manifest
  import opened Ownership

  // ---- The manifest of a graph ----

  /** Attributes at their default are left unsaid. */
  function Said<T(==)>(value: T, default: T): Option<T> {
    if value == default then None else Some(value)
  }

  function ToDefinition(name: string, s: RoleState): RoleDefinition {
    RoleDefinition(
      name, false, false,
      Said(s.login, DEFAULT_ROLE_STATE.login), Said(s.superuser, DEFAULT_ROLE_STATE.superuser),
      Said(s.createdb, DEFAULT_ROLE_STATE.createdb), Said(s.createrole, DEFAULT_ROLE_STATE.createrole),
      Said(s.inherit, DEFAULT_ROLE_STATE.inherit), Said(s.replication, DEFAULT_ROLE_STATE.replication),
      Said(s.bypassrls, DEFAULT_ROLE_STATE.bypassrls), Said(s.connectionLimit, DEFAULT_ROLE_STATE.connectionLimit),
      s.comment, None, s.validUntil, s.config)
  }

  /** Privileges in the order of their names. */
  const PRIVILEGE_ORDER: seq<Privilege> :=
    [Connect, Create, Delete, Execute, Insert, References, Select, Temporary, Trigger, Truncate, Update, Usage]

  function ListOf(order: seq<Privilege>, privileges: Privileges): seq<Privilege> {
    if order == [] then []
    else (if order[0] in privileges then [order[0]] else []) + ListOf(order[1..], privileges)
  }

  function PrivilegeList(privileges: Privileges): seq<Privilege> {
    ListOf(PRIVILEGE_ORDER, privileges)
  }

  ghost function DefinitionFn(g: RoleGraph): string -> seq<RoleDefinition> {
    n => if n in g.roles then [ToDefinition(n, g.roles[n])] else []
  }

  ghost function SchemaRuleFn(g: RoleGraph): string -> seq<SchemaRule> {
    n => if n in g.schemas then [SchemaRule(n, g.schemas[n].owner)] else []
  }

  function GrantRuleOf(k: GrantKey, privileges: Privileges): GrantRule {
    GrantRule(k.role.AsString(), PrivilegeList(privileges), k.objectType, k.schema, k.name, EnsurePresent)
  }

  /** Owner-inherent entries are nobody's declaration. */
  ghost function GrantRuleFn(g: RoleGraph): GrantKey -> seq<GrantRule> {
    k => if k in g.grants && k !in g.inherent then [GrantRuleOf(k, g.grants[k])] else []
  }

  type Group = (string, DefaultScope)

  predicate GroupLe(a: Group, b: Group) {
    if a.0 != b.0 then StringLe(a.0, b.0) else ScopeLe(a.1, b.1)
  }

  lemma GroupLeTotal()
    ensures TotalOrder(GroupLe)
  {
    StringLeTotal();
    ScopeLeTotal();
  }

  function GroupOf(k: DefaultPrivKey): Group {
    (k.owner, k.scope)
  }

  function DefaultGrantOf(k: DefaultPrivKey, privileges: Privileges): DefaultGrant {
    DefaultGrant(Some(k.grantee.AsString()), PrivilegeList(privileges), k.onType, EnsurePresent)
  }

  ghost function InGroupFn(g: RoleGraph, group: Group): DefaultPrivKey -> seq<DefaultGrant> {
    k => if k in g.defaults && GroupOf(k) == group then [DefaultGrantOf(k, g.defaults[k])] else []
  }

  /** The schema shorthand where it applies, an explicit scope otherwise. */
  function RuleOf(group: Group, grants: seq<DefaultGrant>): DefaultRule {
    match group.1
    case InSchema(schema) => DefaultRule(Some(group.0), Some(schema), None, grants)
    case Global => DefaultRule(Some(group.0), None, Some(ScopeSpec(true, None)), grants)
  }

  function Groups(keys: set<DefaultPrivKey>): set<Group> {
    set k | k in keys :: GroupOf(k)
  }

  ghost function GroupFn(g: RoleGraph): Group -> seq<DefaultRule> {
    group => [RuleOf(group, FlatMap(Sorted(g.defaults.Keys, DefaultKeyLe), InGroupFn(g, group)))]
  }

  function SpecOf(e: MembershipEdge): MemberSpec {
    MemberSpec(e.member, if e.inherit then None else Some(false), if e.admin then Some(true) else None)
  }

  ghost function MemberFn(role: string): MembershipEdge -> seq<MemberSpec> {
    (e: MembershipEdge) => if e.role == role then [SpecOf(e)] else []
  }

  function GrantedRoles(edges: set<MembershipEdge>): set<string> {
    set e | e in edges :: e.role
  }

  ghost function MembershipFn(g: RoleGraph): string -> seq<MembershipRule> {
    role => [MembershipRule(role, FlatMap(Sorted(g.memberships, EdgeLe), MemberFn(role)), false)]
  }

  ghost function Exported(g: RoleGraph): Expanded {
    Expanded(
      FlatMap(Sorted(g.schemas.Keys, StringLe), SchemaRuleFn(g)),
      FlatMap(Sorted(g.roles.Keys, StringLe), DefinitionFn(g)),
      FlatMap(Sorted(g.grants.Keys, GrantKeyLe), GrantRuleFn(g)),
      FlatMap(Sorted(Groups(g.defaults.Keys), GroupLe), GroupFn(g)),
      FlatMap(Sorted(GrantedRoles(g.memberships), StringLe), MembershipFn(g)))
  }

  // ---- As loops ----

  /** Rules of one group collect in key order. */
  ghost predicate Grouped(g: RoleGraph, done: seq<DefaultPrivKey>, groups: map<Group, seq<DefaultGrant>>) {
    && (forall x :: x in groups <==> exists k :: k in done && GroupOf(k) == x)
    && (forall x :: x in groups ==> groups[x] == FlatMap(done, InGroupFn(g, x)))
  }

  lemma {:induction false} NoneInGroup(g: RoleGraph, done: seq<DefaultPrivKey>, group: Group)
    requires forall k :: k in done ==> GroupOf(k) != group
    ensures FlatMap(done, InGroupFn(g, group)) == []
  {
    if done != [] {
      assert done[|done| - 1] in done && forall k :: k in done[..|done| - 1] ==> k in done;
      NoneInGroup(g, done[..|done| - 1], group);
    }
  }

  function Gathered(groups: map<Group, seq<DefaultGrant>>, x: Group): seq<DefaultGrant> {
    if x in groups then groups[x] else []
  }

  lemma GroupValue(g: RoleGraph, xs: seq<DefaultPrivKey>, i: nat, groups: map<Group, seq<DefaultGrant>>, y: Group)
    requires i < |xs| && xs[i] in g.defaults && Grouped(g, xs[..i], groups) && (y in groups || y == GroupOf(xs[i]))
    ensures FlatMap(xs[..i + 1], InGroupFn(g, y)) ==
      Gathered(groups, y) + if y == GroupOf(xs[i]) then [DefaultGrantOf(xs[i], g.defaults[xs[i]])] else []
  {
    if y !in groups {
      NoneInGroup(g, xs[..i], y);
    }
    FlatMapSnoc(xs, i, InGroupFn(g, y));
  }

  lemma GroupOne(g: RoleGraph, xs: seq<DefaultPrivKey>, i: nat, groups: map<Group, seq<DefaultGrant>>)
    requires i < |xs| && xs[i] in g.defaults && Grouped(g, xs[..i], groups)
    ensures var x, grant := GroupOf(xs[i]), DefaultGrantOf(xs[i], g.defaults[xs[i]]);
      Grouped(g, xs[..i + 1], groups[x := Gathered(groups, x) + [grant]])
  {
    var x, grant := GroupOf(xs[i]), DefaultGrantOf(xs[i], g.defaults[xs[i]]);
    var next := groups[x := Gathered(groups, x) + [grant]];
    forall y | y in next ensures next[y] == FlatMap(xs[..i + 1], InGroupFn(g, y)) {
      GroupValue(g, xs, i, groups, y);
      assert y != x ==> groups[y] + [] == groups[y];
    }
    forall y ensures y in next <==> exists k :: k in xs[..i + 1] && GroupOf(k) == y {
      GroupMet(xs, i, y);
    }
  }

  lemma GroupMet(xs: seq<DefaultPrivKey>, i: nat, y: Group)
    requires i < |xs|
    ensures (exists k :: k in xs[..i + 1] && GroupOf(k) == y) <==>
      ((exists k :: k in xs[..i] && GroupOf(k) == y) || GroupOf(xs[i]) == y)
  {
    assert xs[..i + 1] == xs[..i] + [xs[i]];
    if y == GroupOf(xs[i]) {
      assert xs[i] in xs[..i + 1];
    } else if exists k :: k in xs[..i] && GroupOf(k) == y {
      var k :| k in xs[..i] && GroupOf(k) == y;
      assert k in xs[..i + 1];
    }
  }

  method CollectGroups(g: RoleGraph) returns (groups: map<Group, seq<DefaultGrant>>)
    ensures Grouped(g, Sorted(g.defaults.Keys, DefaultKeyLe), groups)
  {
    var keys := SortDefaultKeys(g.defaults.Keys);
    groups := map[];
    for i := 0 to |keys|
      invariant Grouped(g, keys[..i], groups)
    {
      assert keys[i] in keys;
      GroupOne(g, keys, i, groups);
      var x := GroupOf(keys[i]);
      groups := groups[x := Gathered(groups, x) + [DefaultGrantOf(keys[i], g.defaults[keys[i]])]];
    }
    assert keys[..|keys|] == keys;
  }

  lemma GroupedKeys(g: RoleGraph, keys: seq<DefaultPrivKey>, groups: map<Group, seq<DefaultGrant>>)
    requires Grouped(g, keys, groups) && forall k :: k in keys <==> k in g.defaults
    ensures groups.Keys == Groups(g.defaults.Keys)
  {
  }

  method GroupDefaults(g: RoleGraph) returns (rules: seq<DefaultRule>)
    ensures rules == FlatMap(Sorted(Groups(g.defaults.Keys), GroupLe), GroupFn(g))
  {
    var groups := CollectGroups(g);
    GroupedKeys(g, Sorted(g.defaults.Keys, DefaultKeyLe), groups);
    rules := ListGroups(g, groups);
  }

  method SortGroups(s: set<Group>) returns (xs: seq<Group>)
    ensures xs == Sorted(s, GroupLe)
  {
    GroupLeTotal();
    xs := SortKeys(s, GroupLe);
  }

  method ListGroups(g: RoleGraph, groups: map<Group, seq<DefaultGrant>>) returns (rules: seq<DefaultRule>)
    requires forall x :: x in groups ==> groups[x] == FlatMap(Sorted(g.defaults.Keys, DefaultKeyLe), InGroupFn(g, x))
    ensures rules == FlatMap(Sorted(groups.Keys, GroupLe), GroupFn(g))
  {
    rules := [];
    var xs := SortGroups(groups.Keys);
    for i := 0 to |xs|
      invariant rules == FlatMap(xs[..i], GroupFn(g))
    {
      assert xs[i] in xs;
      FlatMapSnoc(xs, i, GroupFn(g));
      rules := rules + [RuleOf(xs[i], groups[xs[i]])];
    }
    assert xs[..|xs|] == xs;
  }

  ghost predicate ByRole(done: seq<MembershipEdge>, m: map<string, seq<MemberSpec>>) {
    && (forall r :: r in m <==> exists e :: e in done && e.role == r)
    && (forall r :: r in m ==> m[r] == FlatMap(done, MemberFn(r)))
  }

  lemma {:induction false} NoneInRole(done: seq<MembershipEdge>, role: string)
    requires forall e :: e in done ==> e.role != role
    ensures FlatMap(done, MemberFn(role)) == []
  {
    if done != [] {
      assert done[|done| - 1] in done && forall e :: e in done[..|done| - 1] ==> e in done;
      NoneInRole(done[..|done| - 1], role);
    }
  }

  lemma RoleValue(xs: seq<MembershipEdge>, i: nat, m: map<string, seq<MemberSpec>>, y: string)
    requires i < |xs| && ByRole(xs[..i], m) && (y in m || y == xs[i].role)
    ensures FlatMap(xs[..i + 1], MemberFn(y)) == Members(m, y) + if y == xs[i].role then [SpecOf(xs[i])] else []
  {
    if y !in m {
      NoneInRole(xs[..i], y);
    }
    FlatMapSnoc(xs, i, MemberFn(y));
  }

  function Members(m: map<string, seq<MemberSpec>>, role: string): seq<MemberSpec> {
    if role in m then m[role] else []
  }

  lemma RoleMet(xs: seq<MembershipEdge>, i: nat, y: string)
    requires i < |xs|
    ensures (exists e :: e in xs[..i + 1] && e.role == y) <==>
      ((exists e :: e in xs[..i] && e.role == y) || xs[i].role == y)
  {
    assert xs[..i + 1] == xs[..i] + [xs[i]];
    if y == xs[i].role {
      assert xs[i] in xs[..i + 1];
    } else if exists e :: e in xs[..i] && e.role == y {
      var e :| e in xs[..i] && e.role == y;
      assert e in xs[..i + 1];
    }
  }

  lemma ByRoleOne(xs: seq<MembershipEdge>, i: nat, m: map<string, seq<MemberSpec>>)
    requires i < |xs| && ByRole(xs[..i], m)
    ensures ByRole(xs[..i + 1], m[xs[i].role := Members(m, xs[i].role) + [SpecOf(xs[i])]])
  {
    var r := xs[i].role;
    var next := m[r := Members(m, r) + [SpecOf(xs[i])]];
    forall y | y in next ensures next[y] == FlatMap(xs[..i + 1], MemberFn(y)) {
      RoleValue(xs, i, m, y);
      assert y != r ==> m[y] + [] == m[y];
    }
    forall y ensures y in next <==> exists e :: e in xs[..i + 1] && e.role == y {
      RoleMet(xs, i, y);
    }
  }

  method CollectByRole(g: RoleGraph) returns (m: map<string, seq<MemberSpec>>)
    ensures ByRole(Sorted(g.memberships, EdgeLe), m)
  {
    var edges := SortEdges(g.memberships);
    m := map[];
    for i := 0 to |edges|
      invariant ByRole(edges[..i], m)
    {
      ByRoleOne(edges, i, m);
      var r := edges[i].role;
      m := m[r := Members(m, r) + [SpecOf(edges[i])]];
    }
    assert edges[..|edges|] == edges;
  }

  lemma ByRoleKeys(g: RoleGraph, edges: seq<MembershipEdge>, m: map<string, seq<MemberSpec>>)
    requires ByRole(edges, m) && forall e :: e in edges <==> e in g.memberships
    ensures m.Keys == GrantedRoles(g.memberships)
  {
  }

  method ListByRole(g: RoleGraph, m: map<string, seq<MemberSpec>>) returns (rules: seq<MembershipRule>)
    requires forall r :: r in m ==> m[r] == FlatMap(Sorted(g.memberships, EdgeLe), MemberFn(r))
    ensures rules == FlatMap(Sorted(m.Keys, StringLe), MembershipFn(g))
  {
    rules := [];
    var roles := SortStrings(m.Keys);
    ghost var f := MembershipFn(g);
    for i := 0 to |roles|
      invariant rules == FlatMap(roles[..i], f)
    {
      assert roles[i] in roles;
      FlatMapSnoc(roles, i, f);
      rules := rules + [MembershipRule(roles[i], m[roles[i]], false)];
    }
    assert roles[..|roles|] == roles;
  }

  method GroupMemberships(g: RoleGraph) returns (rules: seq<MembershipRule>)
    ensures rules == FlatMap(Sorted(GrantedRoles(g.memberships), StringLe), MembershipFn(g))
  {
    var m := CollectByRole(g);
    ByRoleKeys(g, Sorted(g.memberships, EdgeLe), m);
    rules := ListByRole(g, m);
  }

  method ExportGrants(g: RoleGraph) returns (rules: seq<GrantRule>)
    ensures rules == FlatMap(Sorted(g.grants.Keys, GrantKeyLe), GrantRuleFn(g))
  {
    rules := [];
    var keys := SortGrantKeys(g.grants.Keys);
    for i := 0 to |keys|
      invariant rules == FlatMap(keys[..i], GrantRuleFn(g))
    {
      assert keys[i] in keys;
      FlatMapSnoc(keys, i, GrantRuleFn(g));
      if keys[i] !in g.inherent {
        rules := rules + [GrantRuleOf(keys[i], g.grants[keys[i]])];
      }
    }
    assert keys[..|keys|] == keys;
  }

  method ExportNamed(g: RoleGraph) returns (roles: seq<RoleDefinition>, schemas: seq<SchemaRule>)
    ensures roles == FlatMap(Sorted(g.roles.Keys, StringLe), DefinitionFn(g))
    ensures schemas == FlatMap(Sorted(g.schemas.Keys, StringLe), SchemaRuleFn(g))
  {
    roles, schemas := [], [];
    var names := SortStrings(g.roles.Keys);
    for i := 0 to |names|
      invariant roles == FlatMap(names[..i], DefinitionFn(g))
    {
      assert names[i] in names;
      FlatMapSnoc(names, i, DefinitionFn(g));
      roles := roles + [ToDefinition(names[i], g.roles[names[i]])];
    }
    assert names[..|names|] == names;
    var owned := SortStrings(g.schemas.Keys);
    for i := 0 to |owned|
      invariant schemas == FlatMap(owned[..i], SchemaRuleFn(g))
    {
      assert owned[i] in owned;
      FlatMapSnoc(owned, i, SchemaRuleFn(g));
      schemas := schemas + [SchemaRule(owned[i], g.schemas[owned[i]].owner)];
    }
    assert owned[..|owned|] == owned;
  }

  method RoleGraphToManifest(g: RoleGraph) returns (e: Expanded)
    ensures e == Exported(g)
  {
    var roles, schemas := ExportNamed(g);
    var grants := ExportGrants(g);
    var defaults := GroupDefaults(g);
    var memberships := GroupMemberships(g);
    e := Expanded(schemas, roles, grants, defaults, memberships);
  }
}
