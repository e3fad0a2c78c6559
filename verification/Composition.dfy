/**
 Scoped policy documents composed into one policy under single-owner claims.
 */
module Composition {
  import opened Model
  import opened Manifest

  // ---- Documents ----

  datatype Facet = OwnerFacet | BindingsFacet

  datatype ScopedSchema = ScopedSchema(name: string, facets: seq<Facet>)

  datatype SchemaBinding = SchemaBinding(
    name: string, profiles: seq<string>, rolePattern: Option<string>, owner: Option<string>)

  /** What a document expands to: its roles, generated ones included, and its desired graph. */
  datatype Expansion = Expansion(roles: seq<string>, desired: RoleGraph)

  datatype Document = Document(
    docLabel: string,
    rolePattern: Option<string>,
    scopeRoles: seq<string>,
    scopeSchemas: seq<ScopedSchema>,
    schemas: seq<SchemaBinding>,
    roles: seq<string>,
    grants: seq<GrantRule>,
    defaults: seq<DefaultRule>,
    memberships: seq<MembershipRule>,
    retirements: seq<string>,
    expansion: Option<Expansion>)

  // ---- Scope ----

  predicate Declares(scope: seq<ScopedSchema>, schema: string, facet: Facet) {
    exists s :: s in scope && s.name == schema && facet in s.facets
  }

  predicate HasFacet(doc: Document, schema: string, facet: Facet) {
    Declares(doc.scopeSchemas, schema, facet)
  }

  predicate InTable(table: map<string, set<Facet>>, schema: string, facet: Facet) {
    schema in table && facet in table[schema]
  }

  function SchemaOfGrant(g: GrantRule): Option<string> {
    if g.objectType.Database? then None
    else if g.objectType.Schema? then g.name
    else g.schema
  }

  predicate ManagesBindings(s: SchemaBinding) {
    s.profiles != [] || s.rolePattern.Some?
  }

  predicate SchemaInScope(doc: Document, defaultOwner: Option<string>, s: SchemaBinding) {
    && (ManagesBindings(s) ==> HasFacet(doc, s.name, BindingsFacet))
    && (s.owner.Some? || defaultOwner.Some? ==> HasFacet(doc, s.name, OwnerFacet))
  }

  predicate GrantInScope(doc: Document, g: GrantRule) {
    SchemaOfGrant(g).Some? ==> HasFacet(doc, SchemaOfGrant(g).value, BindingsFacet)
  }

  predicate DefaultInScope(doc: Document, defaultOwner: Option<string>, rule: DefaultRule) {
    var scope := rule.ResolvedScope();
    match scope
    case None => false
    case Some(Global) => rule.OwnerOr(defaultOwner) in doc.scopeRoles
    case Some(InSchema(schema)) => HasFacet(doc, schema, BindingsFacet)
  }

  /** Everything a document manages lies in the scope it declares. */
  predicate ScopeValid(doc: Document, defaultOwner: Option<string>) {
    && (forall r :: r in doc.roles ==> r in doc.scopeRoles)
    && (forall r :: r in doc.retirements ==> r in doc.scopeRoles)
    && (forall s :: s in doc.schemas ==> SchemaInScope(doc, defaultOwner, s))
    && (forall g :: g in doc.grants ==> GrantInScope(doc, g))
    && (forall d :: d in doc.defaults ==> DefaultInScope(doc, defaultOwner, d))
  }

  datatype ScopeError =
    | RoleOutOfScope(role: string)
    | BindingsOutOfScope(schema: string)
    | OwnerOutOfScope(schema: string)
    | GlobalDefaultOutOfScope(owner: string)
    | InvalidDefaultScope

  lemma DeclaresMore(scope: seq<ScopedSchema>, i: nat, n: string, f: Facet)
    requires i < |scope|
    ensures Declares(scope[..i + 1], n, f) <==>
      (Declares(scope[..i], n, f) || (scope[i].name == n && f in scope[i].facets))
  {
    assert scope[..i + 1] == scope[..i] + [scope[i]];
    if scope[i].name == n && f in scope[i].facets {
      assert scope[i] in scope[..i + 1];
    }
    if Declares(scope[..i], n, f) {
      var s :| s in scope[..i] && s.name == n && f in s.facets;
      assert s in scope[..i + 1];
    }
  }

  /** The scope of a document as a table: facets declared for each schema, entries united. */
  method ScopeTable(scope: seq<ScopedSchema>) returns (table: map<string, set<Facet>>)
    ensures forall n, f :: InTable(table, n, f) <==> Declares(scope, n, f)
  {
    table := map[];
    for i := 0 to |scope|
      invariant forall n, f :: InTable(table, n, f) <==> Declares(scope[..i], n, f)
    {
      var s := scope[i];
      ghost var before := table;
      var facets := set f | f in s.facets;
      table := table[s.name := (if s.name in table then table[s.name] else {}) + facets];
      forall n, f ensures InTable(table, n, f) <==> Declares(scope[..i + 1], n, f) {
        DeclaresMore(scope, i, n, f);
        assert InTable(table, n, f) <==> (InTable(before, n, f) || (n == s.name && f in s.facets));
      }
    }
    assert scope[..|scope|] == scope;
  }

  method CheckSchemas(doc: Document, defaultOwner: Option<string>, table: map<string, set<Facet>>)
    returns (e: Option<ScopeError>)
    requires forall n, f :: InTable(table, n, f) <==> HasFacet(doc, n, f)
    ensures e.None? <==> forall s :: s in doc.schemas ==> SchemaInScope(doc, defaultOwner, s)
  {
    for i := 0 to |doc.schemas|
      invariant forall s :: s in doc.schemas[..i] ==> SchemaInScope(doc, defaultOwner, s)
    {
      var s := doc.schemas[i];
      assert doc.schemas[..i + 1] == doc.schemas[..i] + [s] && s in doc.schemas;
      if ManagesBindings(s) && !InTable(table, s.name, BindingsFacet) {
        return Some(BindingsOutOfScope(s.name));
      }
      if (s.owner.Some? || defaultOwner.Some?) && !InTable(table, s.name, OwnerFacet) {
        return Some(OwnerOutOfScope(s.name));
      }
    }
    assert doc.schemas[..|doc.schemas|] == doc.schemas;
    e := None;
  }

  method CheckGrants(doc: Document, table: map<string, set<Facet>>) returns (e: Option<ScopeError>)
    requires forall n, f :: InTable(table, n, f) <==> HasFacet(doc, n, f)
    ensures e.None? <==> forall g :: g in doc.grants ==> GrantInScope(doc, g)
  {
    for i := 0 to |doc.grants|
      invariant forall g :: g in doc.grants[..i] ==> GrantInScope(doc, g)
    {
      var g := doc.grants[i];
      assert doc.grants[..i + 1] == doc.grants[..i] + [g] && g in doc.grants;
      var schema := SchemaOfGrant(g);
      if schema.Some? && !InTable(table, schema.value, BindingsFacet) {
        return Some(BindingsOutOfScope(schema.value));
      }
    }
    assert doc.grants[..|doc.grants|] == doc.grants;
    e := None;
  }

  method CheckDefaults(doc: Document, defaultOwner: Option<string>, table: map<string, set<Facet>>)
    returns (e: Option<ScopeError>)
    requires forall n, f :: InTable(table, n, f) <==> HasFacet(doc, n, f)
    ensures e.None? <==> forall d :: d in doc.defaults ==> DefaultInScope(doc, defaultOwner, d)
  {
    for i := 0 to |doc.defaults|
      invariant forall d :: d in doc.defaults[..i] ==> DefaultInScope(doc, defaultOwner, d)
    {
      var d := doc.defaults[i];
      assert doc.defaults[..i + 1] == doc.defaults[..i] + [d] && d in doc.defaults;
      match d.ResolvedScope() {
        case None => return Some(InvalidDefaultScope);
        case Some(InSchema(schema)) =>
          if !InTable(table, schema, BindingsFacet) {
            return Some(BindingsOutOfScope(schema));
          }
        case Some(Global) =>
          if d.OwnerOr(defaultOwner) !in doc.scopeRoles {
            return Some(GlobalDefaultOutOfScope(d.OwnerOr(defaultOwner)));
          }
      }
    }
    assert doc.defaults[..|doc.defaults|] == doc.defaults;
    e := None;
  }

  method CheckRoles(doc: Document, names: seq<string>) returns (e: Option<ScopeError>)
    ensures e.None? <==> forall r :: r in names ==> r in doc.scopeRoles
  {
    for i := 0 to |names|
      invariant forall r :: r in names[..i] ==> r in doc.scopeRoles
    {
      assert names[..i + 1] == names[..i] + [names[i]];
      if names[i] !in doc.scopeRoles {
        return Some(RoleOutOfScope(names[i]));
      }
    }
    assert names[..|names|] == names;
    e := None;
  }

  method ValidateDocumentScope(doc: Document, defaultOwner: Option<string>) returns (e: Option<ScopeError>)
    ensures e.None? <==> ScopeValid(doc, defaultOwner)
  {
    e := CheckRoles(doc, doc.roles);
    if e.Some? { return; }
    e := CheckRoles(doc, doc.retirements);
    if e.Some? { return; }
    var table := ScopeTable(doc.scopeSchemas);
    e := CheckSchemas(doc, defaultOwner, table);
    if e.Some? { return; }
    e := CheckGrants(doc, table);
    if e.Some? { return; }
    e := CheckDefaults(doc, defaultOwner, table);
  }
}
