/**
 The plan that leads from a current graph to a desired one, in closed form.

 Every section of the plan is a concatenating map over the sorted keys of the
 graphs; the revokes are a map from grant target to privileges, defined key by
 key. DiffLoops builds the same plan the way the planner does, by pushing into
 vectors and accumulating maps.
 */
module Diff {
  import opened Sequences
  import opened Orders
  import opened Model
  import opened Roles

  // ---- Roles ----

  ghost function CreateFn(c: RoleGraph, d: RoleGraph): string -> seq<Change> {
    n => if n in d.roles && n !in c.roles then [CreateRole(n, d.roles[n])] else []
  }

  ghost function ConfigFn(state: RoleState): string -> seq<RoleAttribute> {
    p => if p in state.config then [SetConfig(p, state.config[p])] else []
  }

  ghost function ConfigAttributes(state: RoleState): seq<RoleAttribute> {
    FlatMap(Sorted(state.config.Keys, StringLe), ConfigFn(state))
  }

  /** A created role gets its settings as a follow-up; an existing one its delta. */
  ghost function AlterFn(c: RoleGraph, d: RoleGraph): string -> seq<Change> {
    n => if n !in d.roles then []
         else if n !in c.roles then
           (if d.roles[n].config == map[] then [] else [AlterRole(n, ConfigAttributes(d.roles[n]))])
         else AlterExisting(n, c.roles[n], d.roles[n])
  }

  ghost function AlterExisting(n: string, from: RoleState, to: RoleState): seq<Change> {
    AttributeChanges(n, from, to) + CommentChanges(n, from, to)
  }

  ghost function AttributeChanges(n: string, from: RoleState, to: RoleState): seq<Change> {
    if Delta(from, to) == [] then [] else [AlterRole(n, Delta(from, to))]
  }

  ghost function CommentChanges(n: string, from: RoleState, to: RoleState): seq<Change> {
    if from.comment == to.comment then [] else [SetComment(n, to.comment)]
  }

  ghost function DropFn(d: RoleGraph): string -> seq<Change> {
    n => if n in d.roles then [] else [DropRole(n)]
  }

  ghost function Creates(c: RoleGraph, d: RoleGraph): seq<Change> {
    FlatMap(Sorted(d.roles.Keys, StringLe), CreateFn(c, d))
  }

  ghost function Alters(c: RoleGraph, d: RoleGraph): seq<Change> {
    FlatMap(Sorted(d.roles.Keys, StringLe), AlterFn(c, d))
  }

  ghost function Drops(c: RoleGraph, d: RoleGraph): seq<Change> {
    FlatMap(Sorted(c.roles.Keys, StringLe), DropFn(d))
  }

  // ---- Schemas ----

  /** The plan moves schema `n` to a declared owner it does not have yet. */
  predicate OwnerMoves(c: RoleGraph, d: RoleGraph, n: string) {
    n in c.schemas && n in d.schemas && d.schemas[n].owner.Some? && c.schemas[n].owner != d.schemas[n].owner
  }

  ghost function SchemaFn(c: RoleGraph, d: RoleGraph): string -> seq<Change> {
    n => if n !in d.schemas then []
         else if n !in c.schemas then [CreateSchema(n, d.schemas[n].owner)]
         else if OwnerMoves(c, d, n) then [AlterSchemaOwner(n, d.schemas[n].owner.value)]
         else []
  }

  /** Privileges a declared owner lacks; an incoming owner is owed them all. */
  function MissingOwnerPrivileges(c: RoleGraph, d: RoleGraph, n: string): Privileges {
    if n !in d.schemas || n !in c.schemas || d.schemas[n].owner.None? then {}
    else if c.schemas[n].owner != d.schemas[n].owner then OWNER_PRIVILEGES
    else OWNER_PRIVILEGES - c.schemas[n].ownerPrivileges
  }

  ghost function OwnerFn(c: RoleGraph, d: RoleGraph): string -> seq<Change> {
    n => if MissingOwnerPrivileges(c, d, n) == {} then []
         else [EnsureSchemaOwnerPrivileges(n, d.schemas[n].owner.value, MissingOwnerPrivileges(c, d, n))]
  }

  ghost function SchemaChanges(c: RoleGraph, d: RoleGraph): seq<Change> {
    FlatMap(Sorted(d.schemas.Keys, StringLe), SchemaFn(c, d))
  }

  ghost function OwnerGrants(c: RoleGraph, d: RoleGraph): seq<Change> {
    FlatMap(Sorted(d.schemas.Keys, StringLe), OwnerFn(c, d))
  }

  // ---- Grants ----

  function Lookup<K>(m: map<K, Privileges>, k: K): Privileges {
    if k in m then m[k] else {}
  }

  predicate InScope(a: GrantKey, b: GrantKey) {
    a.role == b.role && a.objectType == b.objectType && a.schema == b.schema
  }

  predicate IsStar(k: GrantKey) {
    k.name == Some("*")
  }

  function Star(k: GrantKey): GrantKey {
    k.(name := Some("*"))
  }

  ghost function GrantFn(c: RoleGraph, d: RoleGraph): GrantKey -> seq<Change> {
    k => if k !in d.grants then []
         else if k !in c.grants then [Grant(k, d.grants[k])]
         else if d.grants[k] - c.grants[k] == {} then []
         else [Grant(k, d.grants[k] - c.grants[k])]
  }

  ghost function Grants(c: RoleGraph, d: RoleGraph): seq<Change> {
    FlatMap(Sorted(d.grants.Keys, GrantKeyLe), GrantFn(c, d))
  }

  /** Privileges a schema-wide declaration covers for a named target. */
  function WildcardPrivileges(m: map<GrantKey, Privileges>, k: GrantKey): Privileges {
    if k.schema.Some? then Lookup(m, Star(k)) else {}
  }

  /** Candidates for revocation that no desired wildcard, present or absent, covers. */
  function Unshadowed(d: RoleGraph, k: GrantKey, candidate: Privileges): Privileges {
    if IsStar(k) then candidate
    else candidate - WildcardPrivileges(d.grants, k) - WildcardPrivileges(d.grantAbsences, k)
  }

  /** Convergence: what a managed, non-owner target holds beyond its declaration. */
  function Excess(c: RoleGraph, d: RoleGraph, k: GrantKey): Privileges {
    if k !in c.grants || k.role.Public? || k in c.inherent then {}
    else Unshadowed(d, k, c.grants[k] - Lookup(d.grants, k))
  }

  /** Everything held in the scope of `k`, owner-inherent entries aside. */
  ghost function HeldInScope(c: RoleGraph, k: GrantKey): Privileges {
    set t, p | t in c.grants && InScope(t, k) && t !in c.inherent && p in c.grants[t] :: p
  }

  ghost function HeldFor(c: RoleGraph, k: GrantKey): Privileges {
    if IsStar(k) then HeldInScope(c, k)
    else if k in c.inherent then {}
    else Lookup(c.grants, k)
  }

  /** Assertion: what is asserted absent and yet held. */
  ghost function Asserted(c: RoleGraph, d: RoleGraph, k: GrantKey): Privileges {
    Lookup(d.grantAbsences, k) * HeldFor(c, k)
  }

  ghost function ToRevoke(c: RoleGraph, d: RoleGraph, k: GrantKey): Privileges {
    Excess(c, d, k) + Asserted(c, d, k)
  }

  ghost function RevokeMap(c: RoleGraph, d: RoleGraph): map<GrantKey, Privileges> {
    map k | k in c.grants.Keys + d.grantAbsences.Keys && ToRevoke(c, d, k) != {} :: ToRevoke(c, d, k)
  }

  // ---- Revokes split by grantor ----

  /** The plan moves the ownership of the schema that `k` grants on. */
  predicate Transferred(c: RoleGraph, d: RoleGraph, k: GrantKey) {
    k.objectType.Schema? && k.name.Some? && OwnerMoves(c, d, k.name.value)
  }

  /** All privileges some grantor's entry on `k` records. */
  function Attributed(c: RoleGraph, k: GrantKey): Privileges {
    Recorded(Get(c.entryGrantors, k))
  }

  ghost function GrantorFn(c: RoleGraph, k: GrantKey, privileges: Privileges): string -> seq<Change> {
    g => if k !in c.entryGrantors || g !in c.entryGrantors[k] || privileges * c.entryGrantors[k][g] == {} then []
         else [Revoke(k, privileges * c.entryGrantors[k][g], Some(g))]
  }

  ghost function Remainder(c: RoleGraph, k: GrantKey, privileges: Privileges): seq<Change> {
    if privileges - Attributed(c, k) == {} then []
    else [Revoke(k, privileges - Attributed(c, k), None)]
  }

  ghost function SplitConcrete(c: RoleGraph, d: RoleGraph, k: GrantKey, privileges: Privileges): seq<Change> {
    if Transferred(c, d, k) || k !in c.entryGrantors then [Revoke(k, privileges, None)]
    else FlatMap(Sorted(c.entryGrantors[k].Keys, StringLe), GrantorFn(c, k, privileges))
         + Remainder(c, k, privileges)
  }

  /** The named targets known in the scope of `k`. */
  ghost function Targets(c: RoleGraph, k: GrantKey): set<GrantKey> {
    set t | t in c.grants.Keys + c.entryGrantors.Keys && InScope(t, k) && !IsStar(t)
  }

  ghost predicate HasInherent(c: RoleGraph, k: GrantKey) {
    exists t :: t in c.inherent && InScope(t, k)
  }

  ghost function HeldOn(c: RoleGraph, t: GrantKey): Privileges {
    Lookup(c.grants, t) + Attributed(c, t)
  }

  ghost function TargetFn(c: RoleGraph, d: RoleGraph, privileges: Privileges): GrantKey -> seq<Change> {
    t => if t in c.inherent || privileges * HeldOn(c, t) == {} then []
         else SplitConcrete(c, d, t, privileges * HeldOn(c, t))
  }

  ghost predicate Expands(c: RoleGraph, k: GrantKey) {
    IsStar(k) && (Targets(c, k) != {} || HasInherent(c, k))
  }

  ghost function Split(c: RoleGraph, d: RoleGraph, k: GrantKey, privileges: Privileges): seq<Change> {
    if Expands(c, k) then FlatMap(Sorted(Targets(c, k), GrantKeyLe), TargetFn(c, d, privileges))
    else SplitConcrete(c, d, k, privileges)
  }

  ghost function RevokeFn(c: RoleGraph, d: RoleGraph): GrantKey -> seq<Change> {
    k => Split(c, d, k, ToRevoke(c, d, k))
  }

  ghost function AllRevokes(c: RoleGraph, d: RoleGraph): seq<Change> {
    FlatMap(Sorted(RevokeMap(c, d).Keys, GrantKeyLe), RevokeFn(c, d))
  }

  /** A revoke from a schema's incoming owner would strip the new owner's entry. */
  predicate FromIncomingOwner(c: RoleGraph, d: RoleGraph, change: Change) {
    && change.Revoke?
    && Transferred(c, d, change.key)
    && change.key.role.AsString() == d.schemas[change.key.name.value].owner.value
  }

  ghost function Kept(c: RoleGraph, d: RoleGraph): Change -> bool {
    change => !FromIncomingOwner(c, d, change)
  }

  ghost function Revokes(c: RoleGraph, d: RoleGraph): seq<Change> {
    Filter(AllRevokes(c, d), Kept(c, d))
  }

  // ---- Default privileges ----

  /** Built-in PUBLIC defaults of an owner this plan creates. */
  function BuiltinDefaults(c: RoleGraph, d: RoleGraph, k: DefaultPrivKey): Privileges {
    if k.owner in c.roles || k.owner !in d.roles || !k.scope.Global? || !k.grantee.Public? then {}
    else if k.onType.Function? then {Execute}
    else if k.onType.Type? then {Usage}
    else {}
  }

  ghost function SetDefaultFn(c: RoleGraph, d: RoleGraph): DefaultPrivKey -> seq<Change> {
    k => if k !in d.defaults then []
         else if k !in c.defaults then [SetDefault(k, d.defaults[k])]
         else if d.defaults[k] - c.defaults[k] == {} then []
         else [SetDefault(k, d.defaults[k] - c.defaults[k])]
  }

  ghost function SetDefaults(c: RoleGraph, d: RoleGraph): seq<Change> {
    FlatMap(Sorted(d.defaults.Keys, DefaultKeyLe), SetDefaultFn(c, d))
  }

  function DefaultExcess(c: RoleGraph, d: RoleGraph, k: DefaultPrivKey): Privileges {
    if k !in c.defaults || k.grantee.Public? then {}
    else c.defaults[k] - Lookup(d.defaults, k)
  }

  function DefaultAsserted(c: RoleGraph, d: RoleGraph, k: DefaultPrivKey): Privileges {
    Lookup(d.defaultAbsences, k) * if k in c.defaults then c.defaults[k] else BuiltinDefaults(c, d, k)
  }

  function DefaultToRevoke(c: RoleGraph, d: RoleGraph, k: DefaultPrivKey): Privileges {
    DefaultExcess(c, d, k) + DefaultAsserted(c, d, k)
  }

  /** A rule nobody declares is revoked even when it is already empty. */
  predicate RevokesDefault(c: RoleGraph, d: RoleGraph, k: DefaultPrivKey) {
    DefaultToRevoke(c, d, k) != {} || (k in c.defaults && k !in d.defaults && !k.grantee.Public?)
  }

  ghost function RevokeDefaultFn(c: RoleGraph, d: RoleGraph): DefaultPrivKey -> seq<Change> {
    k => if RevokesDefault(c, d, k) then [RevokeDefault(k, DefaultToRevoke(c, d, k))] else []
  }

  ghost function RevokeDefaults(c: RoleGraph, d: RoleGraph): seq<Change> {
    FlatMap(Sorted(c.defaults.Keys + d.defaultAbsences.Keys, DefaultKeyLe), RevokeDefaultFn(c, d))
  }

  // ---- Memberships ----

  function Pairs(edges: set<MembershipEdge>): set<Pair> {
    set e | e in edges :: (e.role, e.member)
  }

  /** The edge kept for a pair: the last in set order when several are recorded. */
  function EdgeOf(edges: set<MembershipEdge>, p: Pair): (e: Option<MembershipEdge>)
    ensures e.Some? ==> e.value in edges && e.value.role == p.0 && e.value.member == p.1
    ensures e.None? <==> p !in Pairs(edges)
  {
    if MembershipEdge(p.0, p.1, true, true) in edges then Some(MembershipEdge(p.0, p.1, true, true))
    else if MembershipEdge(p.0, p.1, true, false) in edges then Some(MembershipEdge(p.0, p.1, true, false))
    else if MembershipEdge(p.0, p.1, false, true) in edges then Some(MembershipEdge(p.0, p.1, false, true))
    else if MembershipEdge(p.0, p.1, false, false) in edges then Some(MembershipEdge(p.0, p.1, false, false))
    else None
  }

  predicate IsAttributed(c: RoleGraph, p: Pair) {
    p in c.edgeGrantors && c.edgeGrantors[p] != {}
  }

  ghost function RemoveEdgeFn(c: RoleGraph, p: Pair): string -> seq<Change> {
    g => if (p.0, p.1, g) in c.executorEdges then [] else [RemoveMember(p.0, p.1, Some(g))]
  }

  /** Remove every live edge behind a pair. */
  ghost function RemoveAll(c: RoleGraph, p: Pair): seq<Change> {
    if IsAttributed(c, p) then FlatMap(Sorted(c.edgeGrantors[p], StringLe), RemoveEdgeFn(c, p))
    else [RemoveMember(p.0, p.1, None)]
  }

  function LiveOptions(c: RoleGraph, p: Pair, g: string): Option<MembershipOptions> {
    if p in c.edgeOptions then Get(c.edgeOptions[p], g) else None
  }

  function Lowered(cur: bool, des: bool, supplied: bool): Option<bool> {
    if cur && !des && supplied then Some(false) else None
  }

  function Raised(cur: bool, des: bool): Option<bool> {
    if !cur && des then Some(true) else None
  }

  function LowerInherit(c: RoleGraph, cur: MembershipEdge, des: MembershipEdge, g: string): Option<bool> {
    var live := LiveOptions(c, (cur.role, cur.member), g);
    Lowered(cur.inherit, des.inherit, live.None? || live.value.inherit)
  }

  function LowerAdmin(c: RoleGraph, cur: MembershipEdge, des: MembershipEdge, g: string): Option<bool> {
    var live := LiveOptions(c, (cur.role, cur.member), g);
    Lowered(cur.admin, des.admin,
      (live.None? || live.value.admin) && (cur.role, cur.member, g) !in c.executorEdges)
  }

  ghost function LowerFn(c: RoleGraph, cur: MembershipEdge, des: MembershipEdge): string -> seq<Change> {
    g => if LowerInherit(c, cur, des, g).None? && LowerAdmin(c, cur, des, g).None? then []
         else [UpdateMemberOptions(cur.role, cur.member, g,
                 LowerInherit(c, cur, des, g), LowerAdmin(c, cur, des, g), None)]
  }

  ghost function LowerAll(c: RoleGraph, cur: MembershipEdge, des: MembershipEdge, grantors: set<string>): seq<Change> {
    FlatMap(Sorted(grantors, StringLe), LowerFn(c, cur, des))
  }

  predicate FlagsDiffer(c: RoleGraph, d: RoleGraph, p: Pair) {
    var cur, des := EdgeOf(c.memberships, p), EdgeOf(d.memberships, p);
    cur.Some? && des.Some? && cur != des
  }

  /** Option reductions, or the removal half of a legacy remove-and-re-add. */
  ghost function LowerPairFn(c: RoleGraph, d: RoleGraph): Pair -> seq<Change> {
    p => if !FlagsDiffer(c, d, p) then []
         else if IsAttributed(c, p) then
           LowerAll(c, EdgeOf(c.memberships, p).value, EdgeOf(d.memberships, p).value, c.edgeGrantors[p])
         else RemoveAll(c, p)
  }

  ghost function StalePairFn(c: RoleGraph, d: RoleGraph): Pair -> seq<Change> {
    p => if p in Pairs(d.memberships) then [] else RemoveAll(c, p)
  }

  ghost function AddOf(e: MembershipEdge): Change {
    AddMember(e.role, e.member, e.inherit, e.admin)
  }

  ghost function RaiseOf(c: RoleGraph, p: Pair, cur: MembershipEdge, des: MembershipEdge): seq<Change>
    requires IsAttributed(c, p)
  {
    if Raised(cur.inherit, des.inherit).None? && Raised(cur.admin, des.admin).None? then []
    else [UpdateMemberOptions(p.0, p.1, Least(c.edgeGrantors[p], StringLe),
            Raised(cur.inherit, des.inherit), Raised(cur.admin, des.admin), None)]
  }

  ghost function AddPairFn(c: RoleGraph, d: RoleGraph): Pair -> seq<Change> {
    p => var cur, des := EdgeOf(c.memberships, p), EdgeOf(d.memberships, p);
         if des.None? then []
         else if cur.None? then [AddOf(des.value)]
         else if cur == des then []
         else if IsAttributed(c, p) then RaiseOf(c, p, cur.value, des.value)
         else [AddOf(des.value)]
  }

  ghost function Removes(c: RoleGraph, d: RoleGraph): seq<Change> {
    FlatMap(Sorted(Pairs(d.memberships), PairLe), LowerPairFn(c, d))
    + FlatMap(Sorted(Pairs(c.memberships), PairLe), StalePairFn(c, d))
  }

  ghost function Adds(c: RoleGraph, d: RoleGraph): seq<Change> {
    FlatMap(Sorted(Pairs(d.memberships), PairLe), AddPairFn(c, d))
  }

  // ---- The whole plan ----

  ghost function Prepare(c: RoleGraph, d: RoleGraph): seq<Change> {
    Creates(c, d) + Alters(c, d) + SchemaChanges(c, d)
  }

  ghost function Widen(c: RoleGraph, d: RoleGraph): seq<Change> {
    OwnerGrants(c, d) + Grants(c, d) + SetDefaults(c, d)
  }

  ghost function Narrow(c: RoleGraph, d: RoleGraph): seq<Change> {
    Revokes(c, d) + Removes(c, d)
  }

  ghost function Finish(c: RoleGraph, d: RoleGraph): seq<Change> {
    Adds(c, d) + RevokeDefaults(c, d) + Drops(c, d)
  }

  /** The plan for a desired graph whose routine spellings are already resolved. */
  ghost function PlanFor(c: RoleGraph, d: RoleGraph): seq<Change> {
    Prepare(c, d) + Widen(c, d) + Narrow(c, d) + Finish(c, d)
  }

  // ---- Routine aliases ----

  function ResolveKey(aliases: map<Pair, string>, k: GrantKey): GrantKey {
    if k.objectType.Function? && k.schema.Some? && k.name.Some? && (k.schema.value, k.name.value) in aliases
    then k.(name := Some(aliases[(k.schema.value, k.name.value)]))
    else k
  }

  function ResolvedKeys(aliases: map<Pair, string>, keys: set<GrantKey>): set<GrantKey> {
    set k | k in keys :: ResolveKey(aliases, k)
  }

  /** Keys renamed, privileges of keys that coincide united. */
  ghost function ResolveKeys(aliases: map<Pair, string>, m: map<GrantKey, Privileges>): map<GrantKey, Privileges> {
    map r | r in ResolvedKeys(aliases, m.Keys)
      :: set k, p | k in m && ResolveKey(aliases, k) == r && p in m[k] :: p
  }

  ghost function Resolve(d: RoleGraph, aliases: map<Pair, string>): RoleGraph {
    d.(grants := ResolveKeys(aliases, d.grants), grantAbsences := ResolveKeys(aliases, d.grantAbsences))
  }

  ghost function DiffOf(c: RoleGraph, d: RoleGraph): seq<Change> {
    PlanFor(c, Resolve(d, c.routineAliases))
  }
}
