/**
 The desired graph that an expanded manifest declares.
 */
module Expansion {
  import opened Orders
  import opened Model
  import opened Manifest
  import opened Steps
  import opened Guc

  // ---- Roles ----

  function Or<T>(o: Option<T>, default: T): T {
    if o.Some? then o.value else default
  }

  function LowerChar(c: char): char {
    if 'A' <= c <= 'Z' then (c as int + 32) as char else c
  }

  function AsciiLower(s: string): string {
    seq(|s|, i requires 0 <= i < |s| => LowerChar(s[i]))
  }

  /** A list parameter is compared element-wise; others verbatim. */
  function SettingOf(parameter: string, value: string): string {
    if IsListQuoteParameter(parameter) then Canonical(value) else value
  }

  /** Settings under lowercase names, later spellings of one name winning. */
  ghost function SettingsFrom(config: map<string, string>, names: seq<string>): map<string, string> {
    if names == [] then map[]
    else
      var n := names[|names| - 1];
      var rest := SettingsFrom(config, names[..|names| - 1]);
      if n in config then rest[AsciiLower(n) := SettingOf(AsciiLower(n), config[n])] else rest
  }

  ghost function FromDefinition(def: RoleDefinition): RoleState {
    RoleState(
      Or(def.login, DEFAULT_ROLE_STATE.login), Or(def.superuser, DEFAULT_ROLE_STATE.superuser),
      Or(def.createdb, DEFAULT_ROLE_STATE.createdb), Or(def.createrole, DEFAULT_ROLE_STATE.createrole),
      Or(def.inherit, DEFAULT_ROLE_STATE.inherit), Or(def.replication, DEFAULT_ROLE_STATE.replication),
      Or(def.bypassrls, DEFAULT_ROLE_STATE.bypassrls), Or(def.connectionLimit, DEFAULT_ROLE_STATE.connectionLimit),
      def.comment, def.validUntil, SettingsFrom(def.config, Sorted(def.config.Keys, StringLe)))
  }

  ghost function RolesFrom(defs: seq<RoleDefinition>): map<string, RoleState> {
    if defs == [] then map[]
    else RolesFrom(defs[..|defs| - 1])[defs[|defs| - 1].name := FromDefinition(defs[|defs| - 1])]
  }

  // ---- Schemas ----

  function SchemaFrom(rule: SchemaRule): SchemaState {
    SchemaState(rule.owner, if rule.owner.Some? then OWNER_PRIVILEGES else {})
  }

  function SchemasFrom(rules: seq<SchemaRule>): map<string, SchemaState> {
    if rules == [] then map[]
    else SchemasFrom(rules[..|rules| - 1])[rules[|rules| - 1].name := SchemaFrom(rules[|rules| - 1])]
  }

  // ---- Grants and default privileges: entries united per key ----

  function Elements(privileges: seq<Privilege>): Privileges {
    set p | p in privileges
  }

  datatype Entry<K> = Entry(key: K, privileges: Privileges, ensure: Ensure)

  function Collect<K>(entries: seq<Entry<K>>, ensure: Ensure): map<K, Privileges> {
    if entries == [] then map[]
    else
      var rest, last := Collect(entries[..|entries| - 1], ensure), entries[|entries| - 1];
      if last.ensure == ensure then Extended(rest, last.key, last.privileges) else rest
  }

  function GrantKeyOf(rule: GrantRule): GrantKey {
    GrantKey(ParseGrantee(rule.role), rule.objectType, rule.schema, rule.name)
  }

  function GrantEntry(rule: GrantRule): Entry<GrantKey> {
    Entry(GrantKeyOf(rule), Elements(rule.privileges), rule.ensure)
  }

  function GrantEntries(rules: seq<GrantRule>): seq<Entry<GrantKey>> {
    seq(|rules|, i requires 0 <= i < |rules| => GrantEntry(rules[i]))
  }

  /** A rule needs a valid scope, and each of its grants a grantee. */
  predicate RuleValid(rule: DefaultRule) {
    rule.ResolvedScope().Some? && forall g :: g in rule.grants ==> g.role.Some?
  }

  function DefaultEntry(owner: string, scope: DefaultScope, g: DefaultGrant): Entry<DefaultPrivKey>
    requires g.role.Some?
  {
    Entry(DefaultPrivKey(owner, scope, g.onType, ParseGrantee(g.role.value)), Elements(g.privileges), g.ensure)
  }

  function RuleEntries(rule: DefaultRule, defaultOwner: Option<string>): seq<Entry<DefaultPrivKey>>
    requires RuleValid(rule)
  {
    seq(|rule.grants|, i requires 0 <= i < |rule.grants| =>
      assert rule.grants[i] in rule.grants;
      DefaultEntry(rule.OwnerOr(defaultOwner), rule.ResolvedScope().value, rule.grants[i]))
  }

  function DefaultEntries(rules: seq<DefaultRule>, defaultOwner: Option<string>): seq<Entry<DefaultPrivKey>>
    requires forall r :: r in rules ==> RuleValid(r)
  {
    if rules == [] then []
    else
      assert forall r :: r in rules[..|rules| - 1] ==> r in rules;
      DefaultEntries(rules[..|rules| - 1], defaultOwner) + RuleEntries(rules[|rules| - 1], defaultOwner)
  }

  // ---- Memberships ----

  function EdgeFrom(role: string, m: MemberSpec): MembershipEdge {
    MembershipEdge(role, m.name, Or(m.inherit, true), Or(m.admin, false))
  }

  function EdgesFrom(rules: seq<MembershipRule>): set<MembershipEdge> {
    set r, m | r in rules && m in r.members :: EdgeFrom(r.role, m)
  }

  function ExclusiveFrom(rules: seq<MembershipRule>): set<string> {
    set r | r in rules && r.exclusive :: r.role
  }

  // ---- The graph ----

  predicate Valid(e: Expanded) {
    forall r :: r in e.defaults ==> RuleValid(r)
  }

  ghost function GraphOf(e: Expanded, defaultOwner: Option<string>): RoleGraph
    requires Valid(e)
  {
    var grants, defaults := GrantEntries(e.grants), DefaultEntries(e.defaults, defaultOwner);
    EMPTY_GRAPH.(
      roles := RolesFrom(e.roles),
      schemas := SchemasFrom(e.schemas),
      grants := Collect(grants, EnsurePresent), grantAbsences := Collect(grants, EnsureAbsent),
      defaults := Collect(defaults, EnsurePresent), defaultAbsences := Collect(defaults, EnsureAbsent),
      memberships := EdgesFrom(e.memberships), exclusiveRoles := ExclusiveFrom(e.memberships))
  }

  // ---- As loops ----

  lemma SettingsNext(config: map<string, string>, names: seq<string>, i: nat)
    requires i < |names| && names[i] in config
    ensures var n := AsciiLower(names[i]);
      SettingsFrom(config, names[..i + 1]) == SettingsFrom(config, names[..i])[n := SettingOf(n, config[names[i]])]
  {
    assert names[..i + 1][..i] == names[..i];
  }

  method DefineSettings(config: map<string, string>) returns (settings: map<string, string>)
    ensures settings == SettingsFrom(config, Sorted(config.Keys, StringLe))
  {
    var names := SortStrings(config.Keys);
    settings := map[];
    for i := 0 to |names|
      invariant settings == SettingsFrom(config, names[..i])
    {
      assert names[i] in names;
      SettingsNext(config, names, i);
      var n := AsciiLower(names[i]);
      settings := settings[n := SettingOf(n, config[names[i]])];
    }
    assert names[..|names|] == names;
  }

  method DefineState(def: RoleDefinition) returns (state: RoleState)
    ensures state == FromDefinition(def)
  {
    var settings := DefineSettings(def.config);
    state := RoleState(
      Or(def.login, DEFAULT_ROLE_STATE.login), Or(def.superuser, DEFAULT_ROLE_STATE.superuser),
      Or(def.createdb, DEFAULT_ROLE_STATE.createdb), Or(def.createrole, DEFAULT_ROLE_STATE.createrole),
      Or(def.inherit, DEFAULT_ROLE_STATE.inherit), Or(def.replication, DEFAULT_ROLE_STATE.replication),
      Or(def.bypassrls, DEFAULT_ROLE_STATE.bypassrls), Or(def.connectionLimit, DEFAULT_ROLE_STATE.connectionLimit),
      def.comment, def.validUntil, settings);
  }

  method CollectEntries<K(==)>(entries: seq<Entry<K>>) returns (present: map<K, Privileges>, absent: map<K, Privileges>)
    ensures present == Collect(entries, EnsurePresent) && absent == Collect(entries, EnsureAbsent)
  {
    present, absent := map[], map[];
    for i := 0 to |entries|
      invariant present == Collect(entries[..i], EnsurePresent) && absent == Collect(entries[..i], EnsureAbsent)
    {
      assert entries[..i + 1][..i] == entries[..i];
      var e := entries[i];
      if e.ensure.EnsurePresent? {
        present := present[e.key := (if e.key in present then present[e.key] else {}) + e.privileges];
      } else {
        absent := absent[e.key := (if e.key in absent then absent[e.key] else {}) + e.privileges];
      }
    }
    assert entries[..|entries|] == entries;
  }

  method DefineRoles(defs: seq<RoleDefinition>) returns (roles: map<string, RoleState>)
    ensures roles == RolesFrom(defs)
  {
    roles := map[];
    for i := 0 to |defs|
      invariant roles == RolesFrom(defs[..i])
    {
      assert defs[..i + 1][..i] == defs[..i];
      var state := DefineState(defs[i]);
      roles := roles[defs[i].name := state];
    }
    assert defs[..|defs|] == defs;
  }

  method DefineSchemas(rules: seq<SchemaRule>) returns (schemas: map<string, SchemaState>)
    ensures schemas == SchemasFrom(rules)
  {
    schemas := map[];
    for i := 0 to |rules|
      invariant schemas == SchemasFrom(rules[..i])
    {
      assert rules[..i + 1][..i] == rules[..i];
      var privileges := if rules[i].owner.Some? then OWNER_PRIVILEGES else {};
      schemas := schemas[rules[i].name := SchemaState(rules[i].owner, privileges)];
    }
    assert rules[..|rules|] == rules;
  }

  /** Nothing when some default privilege rule has no valid scope or a grant without grantee. */
  method FromExpanded(e: Expanded, defaultOwner: Option<string>) returns (g: Option<RoleGraph>)
    ensures g.Some? <==> Valid(e)
    ensures g.Some? ==> g.value == GraphOf(e, defaultOwner)
  {
    if exists r :: r in e.defaults && !RuleValid(r) {
      return None;
    }
    var roles := DefineRoles(e.roles);
    var schemas := DefineSchemas(e.schemas);
    var grants, absences := CollectEntries(GrantEntries(e.grants));
    var defaults, defaultAbsences := CollectEntries(DefaultEntries(e.defaults, defaultOwner));
    g := Some(EMPTY_GRAPH.(
      roles := roles, schemas := schemas, grants := grants, grantAbsences := absences,
      defaults := defaults, defaultAbsences := defaultAbsences,
      memberships := EdgesFrom(e.memberships), exclusiveRoles := ExclusiveFrom(e.memberships)));
  }

  // ---- What collecting gives ----

  ghost predicate Declares<K>(entries: seq<Entry<K>>, ensure: Ensure, k: K) {
    exists e :: e in entries && e.ensure == ensure && e.key == k
  }

  ghost predicate Carries<K>(entries: seq<Entry<K>>, ensure: Ensure, k: K, p: Privilege) {
    exists e :: e in entries && e.ensure == ensure && e.key == k && p in e.privileges
  }

  /** A key is declared when some entry has it, with the privileges of all entries that do. */
  lemma {:induction false} CollectUnites<K>(entries: seq<Entry<K>>, ensure: Ensure, k: K, p: Privilege)
    ensures k in Collect(entries, ensure) <==> Declares(entries, ensure, k)
    ensures k in Collect(entries, ensure) ==> (p in Collect(entries, ensure)[k] <==> Carries(entries, ensure, k, p))
  {
    if entries != [] {
      var init, last := entries[..|entries| - 1], entries[|entries| - 1];
      assert entries == init + [last];
      CollectUnites(init, ensure, k, p);
      EntriesSnoc(init, last, ensure, k, p);
    }
  }

  lemma EntriesSnoc<K>(init: seq<Entry<K>>, last: Entry<K>, ensure: Ensure, k: K, p: Privilege)
    ensures Declares(init + [last], ensure, k) <==>
      (Declares(init, ensure, k) || (last.ensure == ensure && last.key == k))
    ensures Carries(init + [last], ensure, k, p) <==>
      (Carries(init, ensure, k, p) || (last.ensure == ensure && last.key == k && p in last.privileges))
    ensures Carries(init, ensure, k, p) ==> Declares(init, ensure, k)
  {
    assert last in init + [last];
    assert forall e :: e in init ==> e in init + [last];
  }
}
