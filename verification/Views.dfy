/**
 A plan seen from one key: how a run of changes acts on a single role, schema,
 grant target, default-privilege rule or membership pair. Each view steps on
 its own, so the effect of a plan on a key is a fold over the few changes that
 name it.
 */
module Views {
  import opened Sequences
  import opened Model
  import opened Roles
  import opened Steps

  // ---- One step, key by key ----

  ghost function RoleStep(n: string): (Option<RoleState>, Change) -> Option<RoleState> {
    (v: Option<RoleState>, change: Change) =>
      match change
      case CreateRole(m, state) => if m == n then Some(state) else v
      case AlterRole(m, attributes) =>
        if m == n && v.Some? then Some(ApplyAttributes(v.value, attributes)) else v
      case SetComment(m, comment) => if m == n && v.Some? then Some(v.value.(comment := comment)) else v
      case DropRole(m) => if m == n then None else v
      case _ => v
  }

  ghost function SchemaStep(n: string): (Option<SchemaState>, Change) -> Option<SchemaState> {
    (v: Option<SchemaState>, change: Change) =>
      match change
      case CreateSchema(m, owner) => if m == n then Some(SchemaState(owner, {})) else v
      case AlterSchemaOwner(m, owner) =>
        if m == n && v.Some? then Some(v.value.(owner := Some(owner))) else v
      case EnsureSchemaOwnerPrivileges(m, _, privileges) =>
        if m == n && v.Some? then Some(v.value.(ownerPrivileges := v.value.ownerPrivileges + privileges)) else v
      case ReassignOwned(from, to) => if v.Some? then Some(Reassign(v.value, from, to)) else v
      case DropOwned(role) => if v.Some? && v.value.owner == Some(role) then None else v
      case _ => v
  }

  function Reduced(v: Privileges, privileges: Privileges): Option<Privileges> {
    if v - privileges == {} then None else Some(v - privileges)
  }

  ghost function DefaultStep(k: DefaultPrivKey): (Option<Privileges>, Change) -> Option<Privileges> {
    (v: Option<Privileges>, change: Change) =>
      match change
      case SetDefault(l, privileges) =>
        if l == k then Some((if v.Some? then v.value else {}) + privileges) else v
      case RevokeDefault(l, privileges) => if l == k && v.Some? then Reduced(v.value, privileges) else v
      case DropOwned(role) => if k.owner == role || k.grantee.AsString() == role then None else v
      case _ => v
  }

  // ---- Each view follows the graph ----

  ghost predicate RoleFollows(roles: map<string, RoleState>, change: Change, n: string) {
    Get(RolesAfter(roles, change), n) == RoleStep(n)(Get(roles, n), change)
  }

  lemma RoleLocal(roles: map<string, RoleState>, change: Change, n: string)
    ensures RoleFollows(roles, change, n)
  {
  }

  ghost predicate SchemaFollows(schemas: map<string, SchemaState>, change: Change, n: string) {
    Get(SchemasAfter(schemas, change), n) == SchemaStep(n)(Get(schemas, n), change)
  }

  lemma SchemaLocal(schemas: map<string, SchemaState>, change: Change, n: string)
    ensures SchemaFollows(schemas, change, n)
  {
  }

  ghost predicate DefaultFollows(defaults: map<DefaultPrivKey, Privileges>, change: Change, k: DefaultPrivKey) {
    Get(DefaultsAfter(defaults, change), k) == DefaultStep(k)(Get(defaults, k), change)
  }

  lemma DefaultLocal(defaults: map<DefaultPrivKey, Privileges>, change: Change, k: DefaultPrivKey)
    ensures DefaultFollows(defaults, change, k)
  {
  }

  // ---- Whole runs ----

  lemma {:induction false} RoleRun(g: RoleGraph, changes: seq<Change>, n: string)
    ensures Get(Run(g, changes).roles, n) == Fold(RoleStep(n), Get(g.roles, n), changes)
  {
    if changes != [] {
      RoleRun(g, changes[..|changes| - 1], n);
      RoleLocal(Run(g, changes[..|changes| - 1]).roles, changes[|changes| - 1], n);
    }
  }

  lemma {:induction false} SchemaRun(g: RoleGraph, changes: seq<Change>, n: string)
    ensures Get(Run(g, changes).schemas, n) == Fold(SchemaStep(n), Get(g.schemas, n), changes)
  {
    if changes != [] {
      SchemaRun(g, changes[..|changes| - 1], n);
      SchemaLocal(Run(g, changes[..|changes| - 1]).schemas, changes[|changes| - 1], n);
    }
  }

  lemma {:induction false} DefaultRun(g: RoleGraph, changes: seq<Change>, k: DefaultPrivKey)
    ensures Get(Run(g, changes).defaults, k) == Fold(DefaultStep(k), Get(g.defaults, k), changes)
  {
    if changes != [] {
      DefaultRun(g, changes[..|changes| - 1], k);
      DefaultLocal(Run(g, changes[..|changes| - 1]).defaults, changes[|changes| - 1], k);
    }
  }

  // ---- Membership pairs ----

  /** The part of the memberships that is about one pair. */
  function PairView(m: Memberships, p: Pair): Memberships {
    Memberships(set e | e in m.edges && e.role == p.0 && e.member == p.1,
                map q | q in m.grantors && q == p :: m.grantors[q],
                map q | q in m.options && q == p :: m.options[q])
  }

  predicate Concerns(change: Change, p: Pair) {
    || change.DropRole?
    || ((change.AddMember? || change.UpdateMemberOptions? || change.RemoveMember?)
        && change.role == p.0 && change.member == p.1)
  }

  function PairAfter(p: Pair, v: Memberships, change: Change): Memberships {
    if Concerns(change, p) then MembershipsAfter(v, change) else v
  }

  ghost function PairStep(p: Pair): (Memberships, Change) -> Memberships {
    (v: Memberships, change: Change) => PairAfter(p, v, change)
  }

  ghost predicate PairFollows(m: Memberships, change: Change, p: Pair) {
    PairView(MembershipsAfter(m, change), p) == PairStep(p)(PairView(m, p), change)
  }

  lemma BindLocal(m: Memberships, q: Pair, via: string, binding: Option<OptionBinding>, p: Pair)
    ensures PairView(BindTuple(m, q, via, binding), p)
         == if p == q then BindTuple(PairView(m, p), p, via, binding) else PairView(m, p)
  {
    assert PairView(m, p).Complete(p) == m.Complete(p);
  }

  lemma OverwriteElsewhere(m: Memberships, q: Pair, via: string, inherit: Option<bool>, admin: Option<bool>, p: Pair)
    requires p != q
    ensures PairView(Overwritten(m, q, via, inherit, admin), p) == PairView(m, p)
  {
  }

  lemma OverwriteHere(m: Memberships, p: Pair, via: string, inherit: Option<bool>, admin: Option<bool>)
    ensures PairView(Overwritten(m, p, via, inherit, admin), p)
         == Overwritten(PairView(m, p), p, via, inherit, admin)
  {
    assert PairView(m, p).Complete(p) == m.Complete(p);
  }

  lemma RemoveElsewhere(m: Memberships, q: Pair, grantor: Option<string>, p: Pair)
    requires p != q
    ensures PairView(Removed(m, q, grantor), p) == PairView(m, p)
  {
  }

  lemma RemoveHere(m: Memberships, p: Pair, grantor: Option<string>)
    ensures PairView(Removed(m, p, grantor), p) == Removed(PairView(m, p), p, grantor)
  {
    var v := PairView(m, p);
    assert v.Complete(p) == m.Complete(p) && Survives(v, p, grantor) == Survives(m, p, grantor);
  }

  lemma UpdateLocal(m: Memberships, q: Pair, via: string, inherit: Option<bool>, admin: Option<bool>,
                    binding: Option<OptionBinding>, p: Pair)
    ensures PairView(Updated(m, q, via, inherit, admin, binding), p)
         == if p == q then Updated(PairView(m, p), p, via, inherit, admin, binding) else PairView(m, p)
  {
    var bound := BindTuple(m, q, via, binding);
    BindLocal(m, q, via, binding, p);
    if q == p {
      OverwriteHere(bound, p, via, inherit, admin);
    } else {
      OverwriteElsewhere(bound, q, via, inherit, admin, p);
    }
  }

  lemma PairLocal(m: Memberships, change: Change, p: Pair)
    ensures PairFollows(m, change, p)
  {
    match change
    case UpdateMemberOptions(role, member, via, inherit, admin, binding) =>
      UpdateLocal(m, (role, member), via, inherit, admin, binding, p);
    case RemoveMember(role, member, grantor) =>
      if (role, member) == p {
        RemoveHere(m, p, grantor);
      } else {
        RemoveElsewhere(m, (role, member), grantor, p);
      }
    case _ =>
  }

  lemma {:induction false} PairRun(g: RoleGraph, changes: seq<Change>, p: Pair)
    ensures PairView(MembershipsOf(Run(g, changes)), p)
         == Fold(PairStep(p), PairView(MembershipsOf(g), p), changes)
  {
    if changes != [] {
      PairRun(g, changes[..|changes| - 1], p);
      PairLocal(MembershipsOf(Run(g, changes[..|changes| - 1])), changes[|changes| - 1], p);
    }
  }
}
