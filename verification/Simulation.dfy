/**
 Step-by-step simulation of a plan: how each change moves the graph and the
 executor's authority facts, and what the analysis reports along the way.
 */
module Simulation {
  import opened Model
  import opened Steps
  import opened Authority

  // ---- What is known about the executor ----

  datatype MembershipFact = MembershipFact(
    role: string, member: string, setRole: Capability, inherit: Capability, adminOption: Capability)

  datatype ExecutorFacts = ExecutorFacts(
    role: string,
    superuser: bool,
    bootstrapRole: Option<string>,
    createrole: Capability,
    memberships: seq<MembershipFact>,
    newMembershipSetRole: Capability,
    newRoleSetRole: Capability,
    newRoleInherit: Capability,
    newRoleAdminOption: Capability)

  /** SET ROLE, INHERIT and ADMIN facts per edge. */
  datatype Facts = Facts(setRole: EdgeFacts, usage: EdgeFacts, admin: EdgeFacts)

  datatype Context = Context(executor: ExecutorFacts, version: nat, graphComplete: bool)

  /** Before version 16 every membership permits SET ROLE. */
  function SetRoleDefault(version: nat): Capability {
    if version >= 16 then Unknown else Allowed
  }

  // ---- Facts after a change ----

  function Without(f: EdgeFacts, n: string): EdgeFacts {
    map p | p in f && p.0 != n && p.1 != n :: f[p]
  }

  /** All tuples of the pair are known once the update has bound its own. */
  predicate UpdateKnown(m: Memberships, p: Pair, via: string, binding: Option<OptionBinding>) {
    var b := BindTuple(m, p, via, binding);
    b.Complete(p) && via in b.options[p]
  }

  function SetRoleAfter(x: Context, m: Memberships, f: EdgeFacts, change: Change): EdgeFacts {
    match change
    case CreateRole(n, _) =>
      if n == x.executor.role then f else f[(n, x.executor.role) := x.executor.newRoleSetRole]
    case AddMember(role, member, _, _) =>
      f[(role, member) := if x.version >= 16 then x.executor.newMembershipSetRole else Allowed]
    case RemoveMember(role, member, grantor) =>
      var p := (role, member);
      if !Survives(m, p, grantor) then f - {p}
      else if m.Complete(p) then f[p := CapabilityOf(AnySet(m.options[p] - {grantor.value}))]
      else f[p := SetRoleDefault(x.version)]
    case DropRole(n) => Without(f, n)
    case _ => f
  }

  function UsageAfter(x: Context, m: Memberships, f: EdgeFacts, change: Change): EdgeFacts {
    match change
    case CreateRole(n, _) =>
      if n == x.executor.role then f else f[(n, x.executor.role) := x.executor.newRoleInherit]
    case AddMember(role, member, inherit, _) => f[(role, member) := CapabilityOf(inherit)]
    case UpdateMemberOptions(role, member, via, inherit, admin, binding) =>
      var p := (role, member);
      if UpdateKnown(m, p, via, binding)
      then f[p := CapabilityOf(AnyInherit(Updated(m, p, via, inherit, admin, binding).options[p]))]
      else if inherit.Some? then f[p := Unknown]
      else f
    case RemoveMember(role, member, grantor) =>
      var p := (role, member);
      if !Survives(m, p, grantor) then f - {p}
      else if m.Complete(p) then f[p := CapabilityOf(AnyInherit(m.options[p] - {grantor.value}))]
      else f[p := Unknown]
    case DropRole(n) => Without(f, n)
    case _ => f
  }

  function AdminAfter(x: Context, m: Memberships, f: EdgeFacts, change: Change): EdgeFacts {
    match change
    case CreateRole(n, _) =>
      if n == x.executor.role then f else f[(n, x.executor.role) := x.executor.newRoleAdminOption]
    case AddMember(role, member, _, admin) => f[(role, member) := CapabilityOf(admin)]
    case UpdateMemberOptions(role, member, via, inherit, admin, binding) =>
      var p := (role, member);
      if UpdateKnown(m, p, via, binding)
      then f[p := CapabilityOf(AnyAdmin(Updated(m, p, via, inherit, admin, binding).options[p]))]
      else if admin.Some? then f[p := Unknown]
      else f
    case RemoveMember(role, member, grantor) =>
      var p := (role, member);
      if !Survives(m, p, grantor) then f - {p}
      else if m.Complete(p) then f[p := CapabilityOf(AnyAdmin(m.options[p] - {grantor.value}))]
      else f[p := Unknown]
    case DropRole(n) => Without(f, n)
    case _ => f
  }

  function FactsAfter(x: Context, m: Memberships, f: Facts, change: Change): Facts {
    Facts(SetRoleAfter(x, m, f.setRole, change), UsageAfter(x, m, f.usage, change), AdminAfter(x, m, f.admin, change))
  }

  // ---- The executor's attributes ----

  datatype Attributes = Attributes(superuser: bool, createrole: Capability)

  function InitialAttributes(g: RoleGraph, e: ExecutorFacts): Attributes {
    Attributes(
      e.superuser || (e.role in g.roles && g.roles[e.role].superuser),
      if !e.createrole.Unknown? then e.createrole
      else if e.role in g.roles then CapabilityOf(g.roles[e.role].createrole)
      else Unknown)
  }

  function AttributeAfter(a: Attributes, attribute: RoleAttribute): Attributes {
    match attribute
    case Superuser(on) => a.(superuser := on)
    case Createrole(on) => a.(createrole := CapabilityOf(on))
    case _ => a
  }

  function AttributesAfterAll(a: Attributes, attributes: seq<RoleAttribute>): Attributes {
    if attributes == [] then a
    else AttributeAfter(AttributesAfterAll(a, attributes[..|attributes| - 1]), attributes[|attributes| - 1])
  }

  function AttributesAfter(x: Context, a: Attributes, change: Change): Attributes {
    if change.AlterRole? && change.name == x.executor.role then AttributesAfterAll(a, change.attributes) else a
  }

  // ---- The world a plan moves through ----

  datatype World = World(graph: RoleGraph, facts: Facts, attributes: Attributes)

  ghost function WorldStep(x: Context): (World, Change) -> World {
    (w: World, change: Change) =>
      World(Apply(w.graph, change),
            FactsAfter(x, MembershipsOf(w.graph), w.facts, change),
            AttributesAfter(x, w.attributes, change))
  }

  ghost function SetReach(x: Context, w: World): map<string, Status> {
    Reachability(w.graph.roles.Keys, w.facts.setRole, x.executor.role, w.attributes.superuser, x.graphComplete)
  }

  ghost function UsageReach(x: Context, w: World): map<string, Status> {
    Reachability(w.graph.roles.Keys, w.facts.usage, x.executor.role, w.attributes.superuser, x.graphComplete)
  }

  // ---- Changes that can alter reachability ----

  predicate IsReachAttribute(a: RoleAttribute) {
    a.Superuser? || a.Inherit?
  }

  predicate AffectsReachability(change: Change) {
    match change
    case CreateRole(_, _) => true
    case DropRole(_) => true
    case UpdateMemberOptions(_, _, _, _, _, _) => true
    case AddMember(_, _, _, _) => true
    case RemoveMember(_, _, _) => true
    case AlterRole(_, attributes) => exists a :: a in attributes && IsReachAttribute(a)
    case _ => false
  }

  lemma {:induction false} SuperuserKept(a: Attributes, attributes: seq<RoleAttribute>)
    requires forall b :: b in attributes ==> !IsReachAttribute(b)
    ensures AttributesAfterAll(a, attributes).superuser == a.superuser
  {
    if attributes != [] {
      assert attributes[|attributes| - 1] in attributes;
      assert forall b :: b in attributes[..|attributes| - 1] ==> b in attributes;
      SuperuserKept(a, attributes[..|attributes| - 1]);
    }
  }

  /** Everything reachability depends on. */
  ghost predicate SameReachInputs(w: World, w': World) {
    && w'.graph.roles.Keys == w.graph.roles.Keys
    && w'.facts.setRole == w.facts.setRole && w'.facts.usage == w.facts.usage
    && w'.attributes.superuser == w.attributes.superuser
  }

  lemma UnaffectedRoles(roles: map<string, RoleState>, change: Change)
    requires !AffectsReachability(change)
    ensures RolesAfter(roles, change).Keys == roles.Keys
  {
  }

  lemma UnaffectedFacts(x: Context, m: Memberships, f: Facts, change: Change)
    requires !AffectsReachability(change)
    ensures SetRoleAfter(x, m, f.setRole, change) == f.setRole
    ensures UsageAfter(x, m, f.usage, change) == f.usage
  {
  }

  lemma Unaffected(x: Context, w: World, change: Change)
    requires !AffectsReachability(change)
    ensures SameReachInputs(w, WorldStep(x)(w, change))
  {
    UnaffectedRoles(w.graph.roles, change);
    UnaffectedFacts(x, MembershipsOf(w.graph), w.facts, change);
    if change.AlterRole? {
      SuperuserKept(w.attributes, change.attributes);
    }
  }
}
