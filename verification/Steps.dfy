/**
 The effect of one change, and of a plan, on the role graph.
 */
module Steps {
  import opened Sequences
  import opened Model
  import opened Roles

  // ---- Roles ----

  function RolesAfter(roles: map<string, RoleState>, change: Change): map<string, RoleState> {
    match change
    case CreateRole(n, state) => roles[n := state]
    case AlterRole(n, attributes) =>
      if n in roles then roles[n := ApplyAttributes(roles[n], attributes)] else roles
    case SetComment(n, comment) => if n in roles then roles[n := roles[n].(comment := comment)] else roles
    case DropRole(n) => roles - {n}
    case _ => roles
  }

  // ---- Schemas ----

  function Reassign(s: SchemaState, from: string, to: string): SchemaState {
    if s.owner == Some(from) then s.(owner := Some(to)) else s
  }

  function SchemasAfter(schemas: map<string, SchemaState>, change: Change): map<string, SchemaState> {
    match change
    case CreateSchema(n, owner) => schemas[n := SchemaState(owner, {})]
    case AlterSchemaOwner(n, owner) =>
      if n in schemas then schemas[n := schemas[n].(owner := Some(owner))] else schemas
    case EnsureSchemaOwnerPrivileges(n, _, privileges) =>
      if n in schemas
      then schemas[n := schemas[n].(ownerPrivileges := schemas[n].ownerPrivileges + privileges)]
      else schemas
    case ReassignOwned(from, to) => map n | n in schemas :: Reassign(schemas[n], from, to)
    case DropOwned(role) => map n | n in schemas && schemas[n].owner != Some(role) :: schemas[n]
    case _ => schemas
  }

  // ---- Grants ----

  /** A grantor's entry loses privileges and disappears once empty. */
  function ReduceEntry(entries: map<string, Privileges>, g: string, privileges: Privileges): map<string, Privileges> {
    if g !in entries then entries
    else if entries[g] - privileges == {} then entries - {g}
    else entries[g := entries[g] - privileges]
  }

  function ReducedEntries(g: RoleGraph, k: GrantKey, privileges: Privileges, grantor: Option<string>): map<string,
                          Privileges>
    requires k in g.entryGrantors
  {
    if grantor.Some? then ReduceEntry(g.entryGrantors[k], grantor.value, privileges) else g.entryGrantors[k]
  }

  /** What a target still holds: the surviving attributed entries decide when there are any. */
  function AfterRevoke(g: RoleGraph, k: GrantKey, privileges: Privileges, grantor: Option<string>): Privileges
    requires k in g.grants
  {
    if grantor.Some? && k in g.entryGrantors && EntryUnion(ReducedEntries(g, k, privileges, grantor)) != {}
    then EntryUnion(ReducedEntries(g, k, privileges, grantor))
    else g.grants[k] - privileges
  }

  function PutOrDrop<K>(m: map<K, Privileges>, k: K, v: Privileges): map<K, Privileges> {
    if v == {} then m - {k} else m[k := v]
  }

  function EntriesAfter(g: RoleGraph, change: Change): map<GrantKey, map<string, Privileges>> {
    match change
    case Revoke(k, privileges, grantor) =>
      if k !in g.entryGrantors then g.entryGrantors
      else if ReducedEntries(g, k, privileges, grantor) == map[] then g.entryGrantors - {k}
      else g.entryGrantors[k := ReducedEntries(g, k, privileges, grantor)]
    case DropOwned(role) => map k | k in g.entryGrantors && k.role.AsString() != role :: g.entryGrantors[k]
    case _ => g.entryGrantors
  }

  function Extended<K>(m: map<K, Privileges>, k: K, privileges: Privileges): map<K, Privileges> {
    m[k := (if k in m then m[k] else {}) + privileges]
  }

  ghost function GrantsAfter(g: RoleGraph, change: Change): map<GrantKey, Privileges> {
    match change
    case Grant(k, privileges) => Extended(g.grants, k, privileges)
    case Revoke(k, privileges, grantor) =>
      if k in g.grants then PutOrDrop(g.grants, k, AfterRevoke(g, k, privileges, grantor)) else g.grants
    case DropOwned(role) => map k | k in g.grants && k.role.AsString() != role :: g.grants[k]
    case _ => g.grants
  }

  function DefaultsAfter(defaults: map<DefaultPrivKey, Privileges>, change: Change): map<DefaultPrivKey, Privileges> {
    match change
    case SetDefault(k, privileges) => Extended(defaults, k, privileges)
    case RevokeDefault(k, privileges) =>
      if k in defaults then PutOrDrop(defaults, k, defaults[k] - privileges) else defaults
    case DropOwned(role) =>
      map k | k in defaults && k.owner != role && k.grantee.AsString() != role :: defaults[k]
    case _ => defaults
  }

  // ---- Memberships ----

  predicate AnyInherit(options: map<string, MembershipOptions>) {
    exists g :: g in options && options[g].inherit
  }

  predicate AnyAdmin(options: map<string, MembershipOptions>) {
    exists g :: g in options && options[g].admin
  }

  predicate AnySet(options: map<string, MembershipOptions>) {
    exists g :: g in options && options[g].canSet
  }

  function WithoutPair(edges: set<MembershipEdge>, p: Pair): set<MembershipEdge> {
    set e | e in edges && (e.role != p.0 || e.member != p.1)
  }

  function WithEdge(edges: set<MembershipEdge>, p: Pair, options: map<string, MembershipOptions>): set<MembershipEdge> {
    WithoutPair(edges, p) + {MembershipEdge(p.0, p.1, AnyInherit(options), AnyAdmin(options))}
  }

  function Overwrite(o: MembershipOptions, inherit: Option<bool>, admin: Option<bool>): MembershipOptions {
    MembershipOptions(
      if inherit.Some? then inherit.value else o.inherit,
      if admin.Some? then admin.value else o.admin,
      o.canSet)
  }

  const NO_OPTIONS := MembershipOptions(false, false, false)

  /** The update is bound to a tuple that does not exist yet. */
  predicate CreatesTuple(m: Memberships, p: Pair, via: string, binding: Option<OptionBinding>) {
    && m.Complete(p) && via !in m.options[p]
    && binding.Some? && binding.value.expected.Absent?
  }

  /** Bind the new tuple, every option off. */
  function BindTuple(m: Memberships, p: Pair, via: string, binding: Option<OptionBinding>): Memberships {
    if CreatesTuple(m, p, via, binding)
    then m.(options := m.options[p := m.options[p][via := NO_OPTIONS]],
            grantors := m.grantors[p := m.grantors[p] + {via}])
    else m
  }

  /** One grantor's tuple changes; the effective edge follows when all tuples are known. */
  function Overwritten(m: Memberships, p: Pair, via: string, inherit: Option<bool>, admin: Option<bool>): Memberships {
    if p !in m.options || via !in m.options[p] then m
    else
      var options := m.options[p][via := Overwrite(m.options[p][via], inherit, admin)];
      m.(options := m.options[p := options],
         edges := if m.Complete(p) then WithEdge(m.edges, p, options) else m.edges)
  }

  function Updated(m: Memberships, p: Pair, via: string,
                   inherit: Option<bool>, admin: Option<bool>, binding: Option<OptionBinding>): Memberships {
    Overwritten(BindTuple(m, p, via, binding), p, via, inherit, admin)
  }

  /** Edges of other grantors keep the membership alive. */
  predicate Survives(m: Memberships, p: Pair, grantor: Option<string>) {
    grantor.Some? && p in m.grantors && m.grantors[p] - {grantor.value} != {}
  }

  function Removed(m: Memberships, p: Pair, grantor: Option<string>): Memberships {
    if !Survives(m, p, grantor) then
      Memberships(WithoutPair(m.edges, p), m.grantors - {p}, m.options - {p})
    else
      var grantors := m.grantors[p := m.grantors[p] - {grantor.value}];
      if p !in m.options then m.(grantors := grantors)
      else
        var options := m.options[p] - {grantor.value};
        Memberships(if m.Complete(p) then WithEdge(m.edges, p, options) else m.edges,
                    grantors, m.options[p := options])
  }

  function MembershipsAfter(m: Memberships, change: Change): Memberships {
    match change
    case AddMember(role, member, inherit, admin) =>
      m.(edges := m.edges + {MembershipEdge(role, member, inherit, admin)})
    case UpdateMemberOptions(role, member, via, inherit, admin, binding) =>
      Updated(m, (role, member), via, inherit, admin, binding)
    case RemoveMember(role, member, grantor) => Removed(m, (role, member), grantor)
    case DropRole(n) => m.(edges := set e | e in m.edges && e.role != n && e.member != n)
    case _ => m
  }

  // ---- One change, one plan ----

  /** A change acts on each part of the graph on its own. */
  ghost function Apply(g: RoleGraph, change: Change): RoleGraph {
    var m := MembershipsAfter(MembershipsOf(g), change);
    g.(roles := RolesAfter(g.roles, change),
       schemas := SchemasAfter(g.schemas, change),
       grants := GrantsAfter(g, change),
       entryGrantors := EntriesAfter(g, change),
       defaults := DefaultsAfter(g.defaults, change),
       memberships := m.edges, edgeGrantors := m.grantors, edgeOptions := m.options)
  }

  ghost function Run(g: RoleGraph, changes: seq<Change>): RoleGraph {
    Fold(Apply, g, changes)
  }
}
