/**
 The normalized role graph: the state the planner compares and the simulator
 rewrites, and the changes that lead from one state to another.
 */
module Model {
  import opened Orders

  datatype Option<+T> = None | Some(value: T)

  /** The value bound to `k`, if any. */
  function Get<K, V>(m: map<K, V>, k: K): Option<V> {
    if k in m then Some(m[k]) else None
  }

  datatype ObjectType =
    Table | View | MaterializedView | Sequence | Function | Schema | Database | Type

  datatype Privilege =
    | Select | Insert | Update | Delete | Truncate | References
    | Trigger | Execute | Usage | Create | Connect | Temporary

  type Privileges = set<Privilege>

  // ---- Roles ----

  datatype RoleState = RoleState(
    login: bool,
    superuser: bool,
    createdb: bool,
    createrole: bool,
    inherit: bool,
    replication: bool,
    bypassrls: bool,
    connectionLimit: int,
    comment: Option<string>,
    validUntil: Option<string>,
    config: map<string, string>)

  const DEFAULT_ROLE_STATE :=
    RoleState(false, false, false, false, true, false, false, -1, None, None, map[])

  datatype RoleAttribute =
    | Login(on: bool)
    | Superuser(on: bool)
    | Createdb(on: bool)
    | Createrole(on: bool)
    | Inherit(on: bool)
    | Replication(on: bool)
    | Bypassrls(on: bool)
    | ConnectionLimit(limit: int)
    | ValidUntil(until: Option<string>)
    | SetConfig(parameter: string, setting: string)
    | ResetConfig(parameter: string)

  // ---- Schemas, grants, defaults, memberships ----

  datatype SchemaState = SchemaState(owner: Option<string>, ownerPrivileges: Privileges)

  const OWNER_PRIVILEGES: Privileges := {Create, Usage}

  datatype Grantee = Public | Role(name: string)
  {
    function AsString(): string {
      if Public? then PUBLIC_ROLE else name
    }
  }

  const PUBLIC_ROLE := "PUBLIC"

  /** The exact-uppercase spelling is the pseudo-role; all else names a role. */
  function ParseGrantee(s: string): Grantee {
    if s == PUBLIC_ROLE then Public else Role(s)
  }

  datatype GrantKey = GrantKey(
    role: Grantee, objectType: ObjectType, schema: Option<string>, name: Option<string>)

  datatype DefaultScope = Global | InSchema(schema: string)

  datatype DefaultPrivKey = DefaultPrivKey(
    owner: string, scope: DefaultScope, onType: ObjectType, grantee: Grantee)

  datatype MembershipEdge = MembershipEdge(role: string, member: string, inherit: bool, admin: bool)

  /** A membership pair: granted role and member. */
  type Pair = (string, string)

  datatype MembershipOptions = MembershipOptions(inherit: bool, admin: bool, canSet: bool)

  /** Effective edges with the recorded grantors and options behind them. */
  datatype Memberships = Memberships(
    edges: set<MembershipEdge>,
    grantors: map<Pair, set<string>>,
    options: map<Pair, map<string, MembershipOptions>>)
  {
    /** Recorded options cover exactly the recorded grantors of the pair. */
    predicate Complete(p: Pair) {
      p in grantors && p in options && grantors[p] != {} && grantors[p] == options[p].Keys
    }
  }

  /** Privileges recorded by any grantor's entry. */
  function EntryUnion(entries: map<string, Privileges>): Privileges {
    set g, p | g in entries && p in entries[g] :: p
  }

  /** All that the entries of a target record, if it has any. */
  function Recorded(entries: Option<map<string, Privileges>>): Privileges {
    if entries.Some? then EntryUnion(entries.value) else {}
  }

  datatype RoleGraph = RoleGraph(
    routineAliases: map<Pair, string>,
    roles: map<string, RoleState>,
    schemas: map<string, SchemaState>,
    grants: map<GrantKey, Privileges>,
    defaults: map<DefaultPrivKey, Privileges>,
    memberships: set<MembershipEdge>,
    grantAbsences: map<GrantKey, Privileges>,
    defaultAbsences: map<DefaultPrivKey, Privileges>,
    exclusiveRoles: set<string>,
    inherent: set<GrantKey>,
    edgeGrantors: map<Pair, set<string>>,
    edgeOptions: map<Pair, map<string, MembershipOptions>>,
    executorEdges: set<(string, string, string)>,
    entryGrantors: map<GrantKey, map<string, Privileges>>)
  {
    /** Per-grantor options of a pair, when they cover exactly its grantors. */
    function CompleteOptions(pair: Pair): Option<map<string, MembershipOptions>> {
      if MembershipsOf(this).Complete(pair) then Some(edgeOptions[pair]) else None
    }
  }

  function MembershipsOf(g: RoleGraph): Memberships {
    Memberships(g.memberships, g.edgeGrantors, g.edgeOptions)
  }

  const EMPTY_GRAPH :=
    RoleGraph(map[], map[], map[], map[], map[], {}, map[], map[], {}, {}, map[], map[], {}, map[])

  // ---- Changes ----

  datatype ExpectedState = Absent | Present(options: MembershipOptions)

  datatype SetEffect = Preserve | CreateFalse

  datatype OptionBinding = OptionBinding(
    executor: string,
    setEffect: SetEffect,
    expected: ExpectedState,
    expectedEdges: map<string, MembershipOptions>)

  datatype Change =
    | CreateRole(name: string, state: RoleState)
    | CreateSchema(name: string, schemaOwner: Option<string>)
    | AlterSchemaOwner(name: string, owner: string)
    | EnsureSchemaOwnerPrivileges(name: string, owner: string, privileges: Privileges)
    | AlterRole(name: string, attributes: seq<RoleAttribute>)
    | SetComment(name: string, comment: Option<string>)
    | Grant(key: GrantKey, privileges: Privileges)
    | Revoke(key: GrantKey, privileges: Privileges, grantor: Option<string>)
    | SetDefault(defaultKey: DefaultPrivKey, privileges: Privileges)
    | RevokeDefault(defaultKey: DefaultPrivKey, privileges: Privileges)
    | AddMember(role: string, member: string, inherit: bool, admin: bool)
    | UpdateMemberOptions(
        role: string, member: string, viaGrantor: string,
        setInherit: Option<bool>, setAdmin: Option<bool>, binding: Option<OptionBinding>)
    | RemoveMember(role: string, member: string, grantor: Option<string>)
    | ReassignOwned(role: string, successor: string)
    | DropOwned(role: string)
    | TerminateSessions(role: string)
    | SetPassword(name: string, password: string)
    | DropRole(name: string)

  // ---- Key orders ----

  function TypeName(t: ObjectType): string {
    match t
    case Table => "table"
    case View => "view"
    case MaterializedView => "materialized_view"
    case Sequence => "sequence"
    case Function => "function"
    case Schema => "schema"
    case Database => "database"
    case Type => "type"
  }

  /** Object types sort by their display name. */
  predicate TypeLe(a: ObjectType, b: ObjectType) {
    StringLe(TypeName(a), TypeName(b))
  }

  lemma TypeNameInjective(a: ObjectType, b: ObjectType)
    requires TypeName(a) == TypeName(b)
    ensures a == b
  {
    assert |TypeName(a)| == |TypeName(b)| && TypeName(a)[0] == TypeName(b)[0];
    assert TypeName(a)[|TypeName(a)| - 1] == TypeName(b)[|TypeName(b)| - 1];
  }

  lemma TypeLeTotal()
    ensures TotalOrder(TypeLe)
  {
    StringLeTotal();
    forall a, b | TypeLe(a, b) && TypeLe(b, a) ensures a == b {
      TypeNameInjective(a, b);
    }
  }

  /** `None` is least. */
  predicate OptionLe(a: Option<string>, b: Option<string>) {
    a.None? || (b.Some? && StringLe(a.value, b.value))
  }

  lemma OptionLeTotal()
    ensures TotalOrder(OptionLe)
  {
    forall a, b | OptionLe(a, b) && OptionLe(b, a) ensures a == b {
      if !a.None? {
        StringLeAntisymmetric(a.value, b.value);
      }
    }
    forall a, b, c | OptionLe(a, b) && OptionLe(b, c) ensures OptionLe(a, c) {
      if !a.None? {
        StringLeTransitive(a.value, b.value, c.value);
      }
    }
    forall a, b ensures OptionLe(a, b) || OptionLe(b, a) {
      if !a.None? && !b.None? {
        StringLeConnected(a.value, b.value);
      }
    }
    forall a ensures OptionLe(a, a) {
      if !a.None? {
        StringLeConnected(a.value, a.value);
      }
    }
  }

  /** PUBLIC sorts before every role. */
  predicate GranteeLe(a: Grantee, b: Grantee) {
    a.Public? || (b.Role? && StringLe(a.name, b.name))
  }

  lemma GranteeLeTotal()
    ensures TotalOrder(GranteeLe)
  {
    forall a, b | GranteeLe(a, b) && GranteeLe(b, a) ensures a == b {
      if !a.Public? {
        StringLeAntisymmetric(a.name, b.name);
      }
    }
    forall a, b, c | GranteeLe(a, b) && GranteeLe(b, c) ensures GranteeLe(a, c) {
      if !a.Public? {
        StringLeTransitive(a.name, b.name, c.name);
      }
    }
    forall a, b ensures GranteeLe(a, b) || GranteeLe(b, a) {
      if !a.Public? && !b.Public? {
        StringLeConnected(a.name, b.name);
      }
    }
    forall a ensures GranteeLe(a, a) {
      if !a.Public? {
        StringLeConnected(a.name, a.name);
      }
    }
  }

  /** Field by field: grantee, object type, schema, and the name last. */
  predicate GrantKeyLe(a: GrantKey, b: GrantKey) {
    if a.role != b.role then GranteeLe(a.role, b.role)
    else if a.objectType != b.objectType then TypeLe(a.objectType, b.objectType)
    else if a.schema != b.schema then OptionLe(a.schema, b.schema)
    else OptionLe(a.name, b.name)
  }

  lemma GrantKeyLeTotal()
    ensures TotalOrder(GrantKeyLe)
  {
    GranteeLeTotal();
    TypeLeTotal();
    OptionLeTotal();
    forall a, b, c | GrantKeyLe(a, b) && GrantKeyLe(b, c) ensures GrantKeyLe(a, c) {
      GrantKeyLeTransitive(a, b, c);
    }
  }

  lemma GrantKeyLeTransitive(a: GrantKey, b: GrantKey, c: GrantKey)
    requires TotalOrder(GranteeLe) && TotalOrder(TypeLe) && TotalOrder(OptionLe)
    requires GrantKeyLe(a, b) && GrantKeyLe(b, c)
    ensures GrantKeyLe(a, c)
  {
    if a.role != c.role {
    } else if a.role != b.role {
    } else if a.objectType != c.objectType {
    } else if a.objectType != b.objectType {
    } else if a.schema != c.schema {
    } else if a.schema != b.schema {
    }
  }

  predicate ScopeLe(a: DefaultScope, b: DefaultScope) {
    a.Global? || (b.InSchema? && StringLe(a.schema, b.schema))
  }

  lemma ScopeLeTotal()
    ensures TotalOrder(ScopeLe)
  {
    forall a, b | ScopeLe(a, b) && ScopeLe(b, a) ensures a == b {
      if !a.Global? {
        StringLeAntisymmetric(a.schema, b.schema);
      }
    }
    forall a, b, c | ScopeLe(a, b) && ScopeLe(b, c) ensures ScopeLe(a, c) {
      if !a.Global? {
        StringLeTransitive(a.schema, b.schema, c.schema);
      }
    }
    forall a, b ensures ScopeLe(a, b) || ScopeLe(b, a) {
      if !a.Global? && !b.Global? {
        StringLeConnected(a.schema, b.schema);
      }
    }
    forall a ensures ScopeLe(a, a) {
      if !a.Global? {
        StringLeConnected(a.schema, a.schema);
      }
    }
  }

  predicate DefaultKeyLe(a: DefaultPrivKey, b: DefaultPrivKey) {
    if a.owner != b.owner then StringLe(a.owner, b.owner)
    else if a.scope != b.scope then ScopeLe(a.scope, b.scope)
    else if a.onType != b.onType then TypeLe(a.onType, b.onType)
    else GranteeLe(a.grantee, b.grantee)
  }

  lemma DefaultKeyLeTotal()
    ensures TotalOrder(DefaultKeyLe)
  {
    StringLeTotal();
    ScopeLeTotal();
    TypeLeTotal();
    GranteeLeTotal();
    forall a, b, c | DefaultKeyLe(a, b) && DefaultKeyLe(b, c) ensures DefaultKeyLe(a, c) {
      DefaultKeyLeTransitive(a, b, c);
    }
  }

  lemma DefaultKeyLeTransitive(a: DefaultPrivKey, b: DefaultPrivKey, c: DefaultPrivKey)
    requires TotalOrder(StringLe) && TotalOrder(ScopeLe) && TotalOrder(TypeLe) && TotalOrder(GranteeLe)
    requires DefaultKeyLe(a, b) && DefaultKeyLe(b, c)
    ensures DefaultKeyLe(a, c)
  {
    if a.owner != c.owner {
    } else if a.owner != b.owner {
    } else if a.scope != c.scope {
    } else if a.scope != b.scope {
    } else if a.onType != c.onType {
    } else if a.onType != b.onType {
    }
  }

  predicate PairLe(a: Pair, b: Pair) {
    if a.0 != b.0 then StringLe(a.0, b.0) else StringLe(a.1, b.1)
  }

  lemma PairLeTotal()
    ensures TotalOrder(PairLe)
  {
    forall a, b | PairLe(a, b) && PairLe(b, a) ensures a == b {
      if a.0 != b.0 {
        StringLeAntisymmetric(a.0, b.0);
      } else {
        StringLeAntisymmetric(a.1, b.1);
      }
    }
    forall a, b, c | PairLe(a, b) && PairLe(b, c) ensures PairLe(a, c) {
      PairLeTransitive(a, b, c);
    }
    forall a, b ensures PairLe(a, b) || PairLe(b, a) {
      StringLeConnected(a.0, b.0);
      StringLeConnected(a.1, b.1);
    }
    forall a ensures PairLe(a, a) {
      StringLeConnected(a.1, a.1);
    }
  }

  lemma PairLeTransitive(a: Pair, b: Pair, c: Pair)
    requires PairLe(a, b) && PairLe(b, c)
    ensures PairLe(a, c)
  {
    if a.0 == b.0 == c.0 {
      StringLeTransitive(a.1, b.1, c.1);
    } else if a.0 != b.0 && b.0 != c.0 {
      StringLeTransitive(a.0, b.0, c.0);
      if a.0 == c.0 {
        StringLeAntisymmetric(a.0, b.0);
      }
    }
  }

  method SortGrantKeys(s: set<GrantKey>) returns (xs: seq<GrantKey>)
    ensures xs == Sorted(s, GrantKeyLe)
  {
    GrantKeyLeTotal();
    xs := SortKeys(s, GrantKeyLe);
  }

  method SortDefaultKeys(s: set<DefaultPrivKey>) returns (xs: seq<DefaultPrivKey>)
    ensures xs == Sorted(s, DefaultKeyLe)
  {
    DefaultKeyLeTotal();
    xs := SortKeys(s, DefaultKeyLe);
  }

  method SortPairs(s: set<Pair>) returns (xs: seq<Pair>)
    ensures xs == Sorted(s, PairLe)
  {
    PairLeTotal();
    xs := SortKeys(s, PairLe);
  }
}
