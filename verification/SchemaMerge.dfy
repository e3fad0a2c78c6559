/**
 Schema bindings merged across documents: the same whatever the order.
 */
module SchemaMerge {
  import opened Sequences
  import opened Model
  import opened Manifest
  import opened Composition
  import opened Ownership
  import opened DocumentOrder

  type Bindings = map<string, SchemaBinding>

  /** A binding as its document contributes it: with the naming convention of the document. */
  datatype Contribution = Contribution(binding: SchemaBinding, fallback: Option<string>)

  function EmptyBinding(name: string): SchemaBinding {
    SchemaBinding(name, [], None, None)
  }

  function Merged(entry: SchemaBinding, x: Contribution): SchemaBinding {
    SchemaBinding(
      entry.name,
      if x.binding.profiles != [] then x.binding.profiles else entry.profiles,
      if ManagesBindings(x.binding)
      then (if x.binding.rolePattern.Some? then x.binding.rolePattern else x.fallback)
      else entry.rolePattern,
      if x.binding.owner.Some? then x.binding.owner else entry.owner)
  }

  function MergeBinding(m: Bindings, x: Contribution): Bindings {
    var n := x.binding.name;
    m[n := Merged(if n in m then m[n] else EmptyBinding(n), x)]
  }

  function Contributions(doc: Document): seq<Contribution> {
    seq(|doc.schemas|, i requires 0 <= i < |doc.schemas| => Contribution(doc.schemas[i], doc.rolePattern))
  }

  ghost function MergeStep(): (Bindings, Contribution) -> Bindings {
    (m: Bindings, x: Contribution) => MergeBinding(m, x)
  }

  ghost function MergeDocument(m: Bindings, doc: Document): Bindings {
    Fold(MergeStep(), m, Contributions(doc))
  }

  ghost function DocumentStep(): (Bindings, Document) -> Bindings {
    (m: Bindings, doc: Document) => MergeDocument(m, doc)
  }

  ghost function MergeAll(docs: seq<Document>): Bindings {
    Fold(DocumentStep(), map[], docs)
  }

  // ---- The composed manifest ----

  datatype Composed = Composed(
    schemas: Bindings,
    roles: seq<string>,
    grants: seq<GrantRule>,
    defaults: seq<DefaultRule>,
    memberships: seq<MembershipRule>,
    retirements: seq<string>)

  const NOTHING_COMPOSED := Composed(map[], [], [], [], [], [])

  /** Lists are appended, schema bindings merged. */
  ghost function AppendDocument(m: Composed, doc: Document): Composed {
    Composed(
      MergeDocument(m.schemas, doc), m.roles + doc.roles, m.grants + doc.grants, m.defaults + doc.defaults,
      m.memberships + doc.memberships, m.retirements + doc.retirements)
  }

  ghost function ManifestOf(docs: seq<Document>): Composed {
    if docs == [] then NOTHING_COMPOSED else AppendDocument(ManifestOf(docs[..|docs| - 1]), docs[|docs| - 1])
  }

  lemma {:induction false} ManifestSchemas(docs: seq<Document>)
    ensures ManifestOf(docs).schemas == MergeAll(docs)
  {
    if docs != [] {
      ManifestSchemas(docs[..|docs| - 1]);
    }
  }

  // ---- The loops ----

  method MergeInto(m: Bindings, doc: Document) returns (r: Bindings)
    ensures r == MergeDocument(m, doc)
  {
    r := m;
    var xs := Contributions(doc);
    for i := 0 to |doc.schemas|
      invariant r == Fold(MergeStep(), m, xs[..i])
    {
      FoldSnoc(MergeStep(), m, xs, i);
      var s := doc.schemas[i];
      var entry := if s.name in r then r[s.name] else EmptyBinding(s.name);
      if s.owner.Some? {
        entry := entry.(owner := s.owner);
      }
      if s.profiles != [] {
        entry := entry.(profiles := s.profiles);
      }
      if s.profiles != [] || s.rolePattern.Some? {
        entry := entry.(rolePattern := if s.rolePattern.Some? then s.rolePattern else doc.rolePattern);
      }
      r := r[s.name := entry];
    }
    assert xs[..|xs|] == xs;
  }

  datatype Outcome =
    | MissingSources
    | Refused(index: nat)
    | InvalidManifest
    | Policy(manifest: Composed, owners: map<Claim, string>)

  /** What composing gives: `expands` says whether the composed manifest itself expands. */
  ghost predicate Composes(sources: seq<string>, docs: seq<Document>, defaultOwner: Option<string>,
                           expands: Composed -> bool, r: Outcome) {
    match r
    case MissingSources => sources == [] || docs == []
    case Refused(i) =>
      && sources != [] && i < |docs|
      && Accepted(docs[..i], defaultOwner) && !MayFollow(docs[..i], docs[i], defaultOwner)
    case InvalidManifest =>
      sources != [] && docs != [] && Accepted(docs, defaultOwner) && !expands(ManifestOf(docs))
    case Policy(manifest, owners) =>
      && sources != [] && docs != [] && Accepted(docs, defaultOwner)
      && manifest == ManifestOf(docs) && expands(manifest)
      && owners == AddDocuments(docs, defaultOwner).value.owners
  }

  /** Validate, register and merge every document, stopping at the first that is refused. */
  method ComposeBundle(sources: seq<string>, docs: seq<Document>, defaultOwner: Option<string>,
                       expands: Composed -> bool)
    returns (r: Outcome)
    ensures Composes(sources, docs, defaultOwner, expands, r)
  {
    if sources == [] || docs == [] {
      return MissingSources;
    }
    var index := new OwnershipIndex();
    var m := NOTHING_COMPOSED;
    for i := 0 to |docs|
      invariant Some(Index(index.owners, index.stanzas)) == AddDocuments(docs[..i], defaultOwner)
      invariant m == ManifestOf(docs[..i])
    {
      assert docs[..i + 1][..i] == docs[..i];
      AcceptedIffEachFollows(docs[..i], defaultOwner);
      DocumentAccepted(docs[..i], docs[i], AddDocuments(docs[..i], defaultOwner).value, defaultOwner);
      var accepted := index.Register(docs[i], defaultOwner);
      if !accepted {
        return Refused(i);
      }
      var schemas := MergeInto(m.schemas, docs[i]);
      m := Composed(schemas, m.roles + docs[i].roles, m.grants + docs[i].grants, m.defaults + docs[i].defaults,
                    m.memberships + docs[i].memberships, m.retirements + docs[i].retirements);
    }
    assert docs[..|docs|] == docs;
    r := if expands(m) then Policy(m, index.owners) else InvalidManifest;
  }

  // ---- Commuting contributions ----

  /** At most one of two contributions to a schema sets its owner, and at most one its bindings. */
  predicate Apart(x: Contribution, y: Contribution) {
    x.binding.name == y.binding.name ==>
      && !(x.binding.owner.Some? && y.binding.owner.Some?)
      && !(ManagesBindings(x.binding) && ManagesBindings(y.binding))
  }

  lemma MergedCommute(entry: SchemaBinding, x: Contribution, y: Contribution)
    requires Apart(x, y) && x.binding.name == y.binding.name
    ensures Merged(Merged(entry, x), y) == Merged(Merged(entry, y), x)
  {
  }

  lemma BindingsCommute(m: Bindings, x: Contribution, y: Contribution)
    requires Apart(x, y)
    ensures MergeBinding(MergeBinding(m, x), y) == MergeBinding(MergeBinding(m, y), x)
  {
    var n := x.binding.name;
    if n == y.binding.name {
      MergedCommute(if n in m then m[n] else EmptyBinding(n), x, y);
    }
  }

  ghost predicate Commute<S(!new), C(!new)>(step: (S, C) -> S, x: C, y: C) {
    forall s :: step(step(s, x), y) == step(step(s, y), x)
  }

  lemma {:induction false} OnePastAll<S(!new), C(!new)>(step: (S, C) -> S, s: S, xs: seq<C>, y: C)
    requires forall x :: x in xs ==> Commute(step, x, y)
    ensures step(Fold(step, s, xs), y) == Fold(step, step(s, y), xs)
  {
    if xs != [] {
      var init, last := xs[..|xs| - 1], xs[|xs| - 1];
      assert last in xs && forall x :: x in init ==> x in xs;
      OnePastAll(step, s, init, y);
      assert Commute(step, last, y);
    }
  }

  lemma {:induction false} AllPastAll<S(!new), C(!new)>(step: (S, C) -> S, s: S, xs: seq<C>, ys: seq<C>)
    requires forall x, y :: x in xs && y in ys ==> Commute(step, x, y)
    ensures Fold(step, Fold(step, s, xs), ys) == Fold(step, Fold(step, s, ys), xs)
  {
    if ys != [] {
      var init, last := ys[..|ys| - 1], ys[|ys| - 1];
      assert last in ys && forall y :: y in init ==> y in ys;
      AllPastAll(step, s, xs, init);
      OnePastAll(step, Fold(step, s, init), xs, last);
    }
  }

  lemma TakeOut<C>(init: seq<C>, left: seq<C>, right: seq<C>, x: C)
    requires multiset(init + [x]) == multiset(left + [x] + right)
    ensures multiset(init) == multiset(left + right)
  {
    assert multiset(left + [x] + right) == multiset(left) + multiset{x} + multiset(right);
    assert multiset(init + [x]) == multiset(init) + multiset{x};
    assert multiset(left + right) == multiset(left) + multiset(right);
    assert multiset(init) == multiset(init + [x]) - multiset{x};
    assert multiset(left + right) == multiset(left + [x] + right) - multiset{x};
  }

  /** A fold of pairwise commuting steps does not depend on their order. */
  lemma {:induction false} FoldPermuted<S(!new), C(!new)>(step: (S, C) -> S, s: S, xs: seq<C>, ys: seq<C>)
    requires forall x, y :: x in xs && y in xs ==> Commute(step, x, y)
    requires multiset(xs) == multiset(ys)
    ensures Fold(step, s, xs) == Fold(step, s, ys)
    decreases |xs|
  {
    if xs == [] {
      assert |multiset(ys)| == 0;
    } else {
      var init, last := xs[..|xs| - 1], xs[|xs| - 1];
      assert xs == init + [last];
      assert last in multiset(ys);
      var i :| 0 <= i < |ys| && ys[i] == last;
      var left, right := ys[..i], ys[i + 1..];
      assert ys == left + [last] + right;
      TakeOut(init, left, right, last);
      forall x | x in right ensures x in xs {
        assert x in left + right && x in multiset(left + right) && x in multiset(init);
      }
      FoldPermuted(step, s, init, left + right);
      FoldConcat(step, s, left, right);
      OnePastAll(step, Fold(step, s, left), right, last);
      FoldConcat(step, s, left + [last], right);
      FoldPush(step, s, left, last);
    }
  }

  // ---- Order does not matter ----

  lemma FacetIsClaimed(doc: Document, n: string, f: Facet)
    requires HasFacet(doc, n, f) && doc.expansion.Some?
    ensures ClaimedBy(doc, FacetClaim(n, f))
  {
    FacetInClaims(doc.scopeSchemas, n, f);
  }

  lemma {:induction false} FacetInClaims(scope: seq<ScopedSchema>, n: string, f: Facet)
    requires Declares(scope, n, f)
    ensures FacetClaim(n, f) in FacetClaims(scope)
  {
    var s :| s in scope && s.name == n && f in s.facets;
    var init, last := scope[..|scope| - 1], scope[|scope| - 1];
    assert scope == init + [last];
    if s == last {
      var i :| 0 <= i < |s.facets| && s.facets[i] == f;
      assert seq(|s.facets|, i requires 0 <= i < |s.facets| => FacetClaim(s.name, s.facets[i]))[i] == FacetClaim(n, f);
    } else {
      assert s in init;
      FacetInClaims(init, n, f);
    }
  }

  /** Documents that pass the scope check and share no claim contribute apart. */
  lemma CompatibleContributionsApart(a: Document, b: Document, defaultOwner: Option<string>, x: Contribution,
                                     y: Contribution)
    requires Sound(a, defaultOwner) && Sound(b, defaultOwner) && ClaimsDisjoint(a, b)
    requires x in Contributions(a) && y in Contributions(b)
    ensures Apart(x, y)
  {
    assert x.binding in a.schemas && y.binding in b.schemas;
    assert SchemaInScope(a, defaultOwner, x.binding) && SchemaInScope(b, defaultOwner, y.binding);
    if x.binding.name == y.binding.name {
      var n := x.binding.name;
      assert !(HasFacet(a, n, OwnerFacet) && HasFacet(b, n, OwnerFacet)) by {
        FacetNotShared(a, b, n, OwnerFacet);
      }
      assert !(HasFacet(a, n, BindingsFacet) && HasFacet(b, n, BindingsFacet)) by {
        FacetNotShared(a, b, n, BindingsFacet);
      }
    }
  }

  lemma FacetNotShared(a: Document, b: Document, n: string, f: Facet)
    requires ClaimsDisjoint(a, b) && a.expansion.Some? && b.expansion.Some?
    ensures !(HasFacet(a, n, f) && HasFacet(b, n, f))
  {
    assert !(ClaimedBy(a, FacetClaim(n, f)) && ClaimedBy(b, FacetClaim(n, f)));
    if HasFacet(a, n, f) {
      FacetIsClaimed(a, n, f);
    }
    if HasFacet(b, n, f) {
      FacetIsClaimed(b, n, f);
    }
  }

  lemma ContributionsCommute(a: Document, b: Document, defaultOwner: Option<string>, x: Contribution, y: Contribution)
    requires Sound(a, defaultOwner) && Sound(b, defaultOwner) && ClaimsDisjoint(a, b)
    requires x in Contributions(a) && y in Contributions(b)
    ensures Commute(MergeStep(), x, y)
  {
    CompatibleContributionsApart(a, b, defaultOwner, x, y);
    forall m ensures MergeStep()(MergeStep()(m, x), y) == MergeStep()(MergeStep()(m, y), x) {
      BindingsCommute(m, x, y);
    }
  }

  lemma BlocksCommute(a: Document, b: Document)
    requires forall x, y :: x in Contributions(a) && y in Contributions(b) ==> Commute(MergeStep(), x, y)
    ensures Commute(DocumentStep(), a, b)
  {
    forall m ensures DocumentStep()(DocumentStep()(m, a), b) == DocumentStep()(DocumentStep()(m, b), a) {
      AllPastAll(MergeStep(), m, Contributions(a), Contributions(b));
    }
  }

  lemma DocumentsCommute(a: Document, b: Document, defaultOwner: Option<string>)
    requires Sound(a, defaultOwner) && Sound(b, defaultOwner) && ClaimsDisjoint(a, b)
    ensures Commute(DocumentStep(), a, b)
  {
    forall x, y | x in Contributions(a) && y in Contributions(b) ensures Commute(MergeStep(), x, y) {
      ContributionsCommute(a, b, defaultOwner, x, y);
    }
    BlocksCommute(a, b);
  }

  /** Accepted documents merge into the same schema bindings in every order, whatever their labels. */
  lemma MergeIsOrderFree(docs: seq<Document>, others: seq<Document>, defaultOwner: Option<string>)
    requires Accepted(docs, defaultOwner) && multiset(docs) == multiset(others)
    ensures MergeAll(docs) == MergeAll(others)
  {
    AcceptedIsApart(docs, defaultOwner);
    forall a, b | a in docs && b in docs ensures Commute(DocumentStep(), a, b) {
      if a != b {
        ApartMembers(docs, a, b);
        DocumentsCommute(a, b, defaultOwner);
      }
    }
    FoldPermuted(DocumentStep(), map[], docs, others);
  }

  /** Of two orders of one bundle that both compose, the schema bindings are the same. */
  lemma ComposedSchemasOrderFree(sources: seq<string>, docs: seq<Document>, others: seq<Document>,
                                 defaultOwner: Option<string>,
                                 expands: Composed -> bool, r: Outcome, s: Outcome)
    requires multiset(docs) == multiset(others) && r.Policy? && s.Policy?
    requires Composes(sources, docs, defaultOwner, expands, r) && Composes(sources, others, defaultOwner, expands, s)
    ensures r.manifest.schemas == s.manifest.schemas
  {
    MergeIsOrderFree(docs, others, defaultOwner);
    ManifestSchemas(docs);
    ManifestSchemas(others);
  }
}
