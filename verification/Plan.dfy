/**
 The canonical plan: retirements added, then filtered by reconciliation mode,
 by external roles and by brownfield roles.
 */
module Plan {
  import opened Sequences
  import opened Orders
  import opened Model
  import opened Manifest
  import opened Diff

  datatype Mode = Authoritative | Additive | Adopt

  // ---- Retirements ----

  /** The last retirement declared for a role. */
  function RetirementOf(retirements: seq<Retirement>, role: string): Option<Retirement> {
    if retirements == [] then None
    else if retirements[|retirements| - 1].role == role then Some(retirements[|retirements| - 1])
    else RetirementOf(retirements[..|retirements| - 1], role)
  }

  function CleanupSteps(r: Retirement, role: string): seq<Change> {
    (if r.terminateSessions then [TerminateSessions(role)] else [])
    + (if r.reassignOwnedTo.Some? then [ReassignOwned(role, r.reassignOwnedTo.value)] else [])
    + (if r.dropOwned then [DropOwned(role)] else [])
  }

  function Cleanup(retirements: seq<Retirement>, role: string): seq<Change> {
    var r := RetirementOf(retirements, role);
    if r.None? then [] else CleanupSteps(r.value, role)
  }

  /** A drop is preceded by its cleanup steps. */
  ghost function RetireFn(retirements: seq<Retirement>): Change -> seq<Change> {
    (change: Change) => if change.DropRole? then Cleanup(retirements, change.name) + [change] else [change]
  }

  ghost function WithRetirements(changes: seq<Change>, retirements: seq<Retirement>): seq<Change> {
    FlatMap(changes, RetireFn(retirements))
  }

  // ---- Reconciliation modes ----

  predicate IsDropOrRetirement(change: Change) {
    change.DropRole? || change.DropOwned? || change.ReassignOwned? || change.TerminateSessions?
  }

  function KeepRaise(o: Option<bool>): Option<bool> {
    if o == Some(false) then None else o
  }

  predicate IsDestructive(change: Change) {
    || IsDropOrRetirement(change) || change.AlterSchemaOwner? || change.Revoke?
    || change.RevokeDefault? || change.RemoveMember?
  }

  predicate OnlySetsConfig(attributes: seq<RoleAttribute>) {
    forall a :: a in attributes ==> a.SetConfig?
  }

  ghost predicate Transfers(changes: seq<Change>, schema: string, owner: string) {
    AlterSchemaOwner(schema, owner) in changes
  }

  ghost predicate CreatesRole(changes: seq<Change>, name: string) {
    exists change :: change in changes && change.CreateRole? && change.name == name
  }

  /** Additive mode keeps only what adds: reductions are dropped or reduced to their raising half. */
  ghost function AdditiveFn(all: seq<Change>): Change -> seq<Change> {
    (change: Change) =>
      match change
      case UpdateMemberOptions(role, member, via, inherit, admin, binding) =>
        if KeepRaise(inherit).None? && KeepRaise(admin).None? then []
        else [UpdateMemberOptions(role, member, via, KeepRaise(inherit), KeepRaise(admin), binding)]
      case EnsureSchemaOwnerPrivileges(name, owner, _) => if Transfers(all, name, owner) then [] else [change]
      case SetDefault(k, _) =>
        if k.scope.InSchema? && Transfers(all, k.scope.schema, k.owner) then [] else [change]
      case AlterRole(name, attributes) =>
        if CreatesRole(all, name) && OnlySetsConfig(attributes) then [change] else []
      case SetComment(_, _) => []
      case _ => if IsDestructive(change) then [] else [change]
  }

  ghost function AdoptFn(): Change -> seq<Change> {
    (change: Change) => if IsDropOrRetirement(change) then [] else [change]
  }

  ghost function FilterMode(changes: seq<Change>, mode: Mode): seq<Change> {
    match mode
    case Authoritative => changes
    case Additive => FlatMap(changes, AdditiveFn(changes))
    case Adopt => FlatMap(changes, AdoptFn())
  }

  // ---- External and predefined roles ----

  predicate Unmanaged(roles: seq<RoleDefinition>, name: string) {
    IsPredefined(name) || exists r :: r in roles && r.external && r.name == name
  }

  predicate DeclaresMember(rule: MembershipRule, member: string) {
    exists m :: m in rule.members && m.name == member
  }

  predicate DeclaredEdge(memberships: seq<MembershipRule>, role: string, member: string) {
    exists rule :: rule in memberships && rule.role == role && DeclaresMember(rule, member)
  }

  predicate ExclusiveRole(memberships: seq<MembershipRule>, role: string) {
    exists rule :: rule in memberships && rule.exclusive && rule.role == role
  }

  /** Changes to an unmanaged role's own object are dropped; its memberships follow declared intent. */
  predicate KeepsExternal(roles: seq<RoleDefinition>, memberships: seq<MembershipRule>, change: Change) {
    match change
    case CreateRole(name, _) => !Unmanaged(roles, name)
    case AlterRole(name, _) => !Unmanaged(roles, name)
    case SetComment(name, _) => !Unmanaged(roles, name)
    case SetPassword(name, _) => !Unmanaged(roles, name)
    case DropRole(name) => !Unmanaged(roles, name)
    case TerminateSessions(role) => !Unmanaged(roles, role)
    case DropOwned(role) => !Unmanaged(roles, role)
    case ReassignOwned(role, _) => !Unmanaged(roles, role)
    case AddMember(role, member, _, _) => !Unmanaged(roles, role) || DeclaredEdge(memberships, role, member)
    case UpdateMemberOptions(role, member, _, _, _, _) =>
      !Unmanaged(roles, role) || DeclaredEdge(memberships, role, member)
    case RemoveMember(role, member, _) =>
      || !Unmanaged(roles, role) || DeclaredEdge(memberships, role, member)
      || (ExclusiveRole(memberships, role) && !IsPredefined(member))
    case _ => true
  }

  ghost function ExternalFn(roles: seq<RoleDefinition>, memberships: seq<MembershipRule>): Change -> seq<Change> {
    (change: Change) => if KeepsExternal(roles, memberships, change) then [change] else []
  }

  ghost function FilterExternal(changes: seq<Change>, e: Expanded): seq<Change> {
    FlatMap(changes, ExternalFn(e.roles, e.memberships))
  }

  // ---- Brownfield roles ----

  predicate Preserves(roles: seq<RoleDefinition>, role: string) {
    exists r :: r in roles && r.preserveUndeclaredGrants && r.name == role
  }

  function RevokeOf(k: GrantKey, privileges: Privileges, grantor: Option<string>): seq<Change> {
    if privileges == {} then [] else [Revoke(k, privileges, grantor)]
  }

  /** The exact absences in the scope of a wildcard. */
  ghost function ExactAbsences(d: RoleGraph, k: GrantKey): set<GrantKey> {
    set a | a in d.grantAbsences && InScope(a, k) && a.name.Some? && a.name.value != "*"
  }

  ghost function ExactFn(d: RoleGraph, privileges: Privileges, grantor: Option<string>): GrantKey -> seq<Change> {
    a => RevokeOf(a, privileges * Lookup(d.grantAbsences, a), grantor)
  }

  /** Of a brownfield revoke only the asserted absences are kept, exact ones split out of a wildcard. */
  ghost function PreservedRevoke(d: RoleGraph, k: GrantKey, privileges: Privileges,
                                 grantor: Option<string>): seq<Change> {
    var wild := privileges * Lookup(d.grantAbsences, Star(k));
    if !IsStar(k) then RevokeOf(k, wild + privileges * Lookup(d.grantAbsences, k), grantor)
    else RevokeOf(k, wild, grantor)
         + FlatMap(Sorted(ExactAbsences(d, k), GrantKeyLe), ExactFn(d, privileges - wild, grantor))
  }

  ghost function PreserveFn(roles: seq<RoleDefinition>, d: RoleGraph): Change -> seq<Change> {
    (change: Change) =>
      if change.Revoke? && Preserves(roles, change.key.role.AsString())
      then PreservedRevoke(d, change.key, change.privileges, change.grantor)
      else [change]
  }

  ghost function FilterPreserved(changes: seq<Change>, e: Expanded, d: RoleGraph): seq<Change> {
    FlatMap(changes, PreserveFn(e.roles, d))
  }

  // ---- The pipeline ----

  ghost function Filtered(changes: seq<Change>, e: Expanded, retirements: seq<Retirement>, mode: Mode,
                          d: RoleGraph): seq<Change> {
    FilterPreserved(FilterExternal(FilterMode(WithRetirements(changes, retirements), mode), e), e, d)
  }

  ghost function PlanChanges(c: RoleGraph, d: RoleGraph, e: Expanded, retirements: seq<Retirement>,
                             mode: Mode): seq<Change> {
    var resolved := Resolve(d, c.routineAliases);
    Filtered(DiffOf(c, resolved), e, retirements, mode, resolved)
  }
}
