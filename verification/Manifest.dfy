/**
 The declarations a desired graph is built from.
 */
module Manifest {
  import opened Model

  datatype RoleDefinition = RoleDefinition(
    name: string,
    external: bool,
    preserveUndeclaredGrants: bool,
    login: Option<bool>,
    superuser: Option<bool>,
    createdb: Option<bool>,
    createrole: Option<bool>,
    inherit: Option<bool>,
    replication: Option<bool>,
    bypassrls: Option<bool>,
    connectionLimit: Option<int>,
    comment: Option<string>,
    password: Option<string>,
    validUntil: Option<string>,
    config: map<string, string>)

  datatype Ensure = EnsurePresent | EnsureAbsent

  datatype GrantRule = GrantRule(
    role: string,
    privileges: seq<Privilege>,
    objectType: ObjectType,
    schema: Option<string>,
    name: Option<string>,
    ensure: Ensure)

  datatype DefaultGrant = DefaultGrant(
    role: Option<string>, privileges: seq<Privilege>, onType: ObjectType, ensure: Ensure)

  /** Explicit scope of a default privilege rule: global, or one schema. */
  datatype ScopeSpec = ScopeSpec(global: bool, schema: Option<string>)

  datatype DefaultRule = DefaultRule(
    owner: Option<string>, schema: Option<string>, scope: Option<ScopeSpec>, grants: seq<DefaultGrant>)
  {
    /** The owner whose defaults the rule sets. */
    function OwnerOr(defaultOwner: Option<string>): string {
      if owner.Some? then owner.value else if defaultOwner.Some? then defaultOwner.value else "postgres"
    }

    /** The schema shorthand or the explicit scope, never both; nothing when the rule names no valid scope. */
    function ResolvedScope(): Option<DefaultScope> {
      if schema.Some? && scope.None? then Some(InSchema(schema.value))
      else if schema.Some? || scope.None? then None
      else if scope.value.global then (if scope.value.schema.None? then Some(Global) else None)
      else if scope.value.schema.Some? then Some(InSchema(scope.value.schema.value))
      else None
    }
  }

  datatype MemberSpec = MemberSpec(name: string, inherit: Option<bool>, admin: Option<bool>)

  datatype MembershipRule = MembershipRule(role: string, members: seq<MemberSpec>, exclusive: bool)

  datatype Retirement = Retirement(
    role: string, reassignOwnedTo: Option<string>, dropOwned: bool, terminateSessions: bool)

  datatype SchemaRule = SchemaRule(name: string, owner: Option<string>)

  /** A manifest with every profile expanded. */
  datatype Expanded = Expanded(
    schemas: seq<SchemaRule>,
    roles: seq<RoleDefinition>,
    grants: seq<GrantRule>,
    defaults: seq<DefaultRule>,
    memberships: seq<MembershipRule>)

  /** Roles the server defines itself. */
  predicate IsPredefined(name: string) {
    "pg_" <= name
  }
}
