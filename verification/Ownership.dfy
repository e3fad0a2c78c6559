/**
 Single-owner claims and exclusive member lists of composed documents, and when
 documents are accepted one after the other.
 */
module Ownership {
  import opened Sequences
  import opened Orders
  import opened Model
  import opened Manifest
  import opened Composition

  // ---- Claims ----

  datatype Claim =
    | RoleClaim(role: string)
    | FacetClaim(schema: string, facet: Facet)
    | GrantClaim(key: GrantKey)
    | DefaultClaim(defaultKey: DefaultPrivKey)
    | MemberClaim(role: string, member: string)

  /** Edges in set order: by pair, then options. */
  predicate EdgeLe(a: MembershipEdge, b: MembershipEdge) {
    if (a.role, a.member) != (b.role, b.member) then PairLe((a.role, a.member), (b.role, b.member))
    else if a.inherit != b.inherit then !a.inherit
    else !a.admin || b.admin
  }

  lemma EdgeLeTransitive(a: MembershipEdge, b: MembershipEdge, c: MembershipEdge)
    requires TotalOrder(PairLe) && EdgeLe(a, b) && EdgeLe(b, c)
    ensures EdgeLe(a, c)
  {
    var p, q, r := (a.role, a.member), (b.role, b.member), (c.role, c.member);
    assert p != q ==> !(PairLe(p, q) && PairLe(q, p));
    if p != r && p != q && q != r {
      assert PairLe(p, q) && PairLe(q, r);
    }
  }

  lemma EdgeLeAntisymmetric(a: MembershipEdge, b: MembershipEdge)
    requires TotalOrder(PairLe) && EdgeLe(a, b) && EdgeLe(b, a)
    ensures a == b
  {
    var p, q := (a.role, a.member), (b.role, b.member);
    assert p != q ==> PairLe(p, q) && PairLe(q, p);
  }

  lemma EdgeLeConnected(a: MembershipEdge, b: MembershipEdge)
    requires TotalOrder(PairLe)
    ensures EdgeLe(a, b) || EdgeLe(b, a)
  {
    var p, q := (a.role, a.member), (b.role, b.member);
    assert PairLe(p, q) || PairLe(q, p);
  }

  lemma EdgeLeTotal()
    ensures TotalOrder(EdgeLe)
  {
    PairLeTotal();
    forall a, b, c | EdgeLe(a, b) && EdgeLe(b, c) ensures EdgeLe(a, c) { EdgeLeTransitive(a, b, c); }
    forall a, b | EdgeLe(a, b) && EdgeLe(b, a) ensures a == b { EdgeLeAntisymmetric(a, b); }
    forall a, b ensures EdgeLe(a, b) || EdgeLe(b, a) { EdgeLeConnected(a, b); }
  }

  method SortEdges(s: set<MembershipEdge>) returns (xs: seq<MembershipEdge>)
    ensures xs == Sorted(s, EdgeLe)
  {
    EdgeLeTotal();
    xs := SortKeys(s, EdgeLe);
  }

  function RoleClaims(names: seq<string>): seq<Claim> {
    seq(|names|, i requires 0 <= i < |names| => RoleClaim(names[i]))
  }

  function FacetClaims(scope: seq<ScopedSchema>): seq<Claim> {
    if scope == [] then []
    else
      var s := scope[|scope| - 1];
      FacetClaims(scope[..|scope| - 1])
      + seq(|s.facets|, i requires 0 <= i < |s.facets| => FacetClaim(s.name, s.facets[i]))
  }

  function GrantClaims(keys: seq<GrantKey>): seq<Claim> {
    seq(|keys|, i requires 0 <= i < |keys| => GrantClaim(keys[i]))
  }

  function DefaultClaims(keys: seq<DefaultPrivKey>): seq<Claim> {
    seq(|keys|, i requires 0 <= i < |keys| => DefaultClaim(keys[i]))
  }

  function MemberClaims(edges: seq<MembershipEdge>): seq<Claim> {
    seq(|edges|, i requires 0 <= i < |edges| => MemberClaim(edges[i].role, edges[i].member))
  }

  /** What a document claims, in the order it is registered. Absence keys claim like present ones. */
  ghost function Claims(doc: Document): seq<Claim>
    requires doc.expansion.Some?
  {
    var g := doc.expansion.value.desired;
    RoleClaims(doc.expansion.value.roles) + RoleClaims(doc.retirements) + FacetClaims(doc.scopeSchemas)
    + GrantClaims(Sorted(g.grants.Keys + g.grantAbsences.Keys, GrantKeyLe))
    + DefaultClaims(Sorted(g.defaults.Keys + g.defaultAbsences.Keys, DefaultKeyLe))
    + MemberClaims(Sorted(g.memberships, EdgeLe))
  }

  // ---- The index ----

  /** Granted role to first declaring document and whether any stanza is exclusive. */
  type Stanzas = map<string, (string, bool)>

  function AddClaims(owners: map<Claim, string>, claims: seq<Claim>, owner: string): Option<map<Claim, string>> {
    if claims == [] then Some(owners)
    else
      var init, last := AddClaims(owners, claims[..|claims| - 1], owner), claims[|claims| - 1];
      if init.None? || last in init.value then None else Some(init.value[last := owner])
  }

  /** One stanza: nothing when an exclusive member list is split across documents. */
  function AddStanza(m: Stanzas, s: MembershipRule, owner: string): Option<Stanzas> {
    if s.role !in m then Some(m[s.role := (owner, s.exclusive)])
    else if m[s.role].0 != owner && (m[s.role].1 || s.exclusive) then None
    else Some(m[s.role := (m[s.role].0, m[s.role].1 || s.exclusive)])
  }

  function AddStanzas(m: Stanzas, xs: seq<MembershipRule>, owner: string): Option<Stanzas> {
    if xs == [] then Some(m)
    else
      var init := AddStanzas(m, xs[..|xs| - 1], owner);
      if init.None? then None else AddStanza(init.value, xs[|xs| - 1], owner)
  }

  datatype Index = Index(owners: map<Claim, string>, stanzas: Stanzas)

  ghost function AddDocument(ix: Index, doc: Document, defaultOwner: Option<string>): Option<Index> {
    if !ScopeValid(doc, defaultOwner) || doc.expansion.None? then None
    else
      var owners := AddClaims(ix.owners, Claims(doc), doc.docLabel);
      var stanzas := AddStanzas(ix.stanzas, doc.memberships, doc.docLabel);
      if owners.None? || stanzas.None? then None else Some(Index(owners.value, stanzas.value))
  }

  ghost function AddDocuments(docs: seq<Document>, defaultOwner: Option<string>): Option<Index> {
    if docs == [] then Some(Index(map[], map[]))
    else
      var init := AddDocuments(docs[..|docs| - 1], defaultOwner);
      if init.None? then None else AddDocument(init.value, docs[|docs| - 1], defaultOwner)
  }

  // ---- The class that keeps it ----

  datatype Conflict =
    | DuplicateClaim(claim: Claim, first: string, second: string)
    | ExclusiveSplit(role: string, first: string, second: string)

  class OwnershipIndex {
    var owners: map<Claim, string>
    var stanzas: Stanzas

    constructor ()
      ensures owners == map[] && stanzas == map[]
    {
      owners, stanzas := map[], map[];
    }

    /** Claims are inserted one by one; the first one already owned is a conflict. */
    method RegisterClaims(claims: seq<Claim>, owner: string) returns (e: Option<Conflict>)
      modifies this`owners
      ensures e.None? <==> AddClaims(old(owners), claims, owner).Some?
      ensures e.None? ==> Some(owners) == AddClaims(old(owners), claims, owner)
      ensures e.Some? ==> e.value.DuplicateClaim? && e.value.claim in claims && e.value.second == owner
      ensures e.Some? ==>
        e.value.first == if e.value.claim in old(owners) then old(owners)[e.value.claim] else owner
    {
      for i := 0 to |claims|
        invariant Some(owners) == AddClaims(old(owners), claims[..i], owner)
      {
        assert claims[..i + 1][..i] == claims[..i];
        if claims[i] in owners {
          e := Some(DuplicateClaim(claims[i], owners[claims[i]], owner));
          ClaimsFail(old(owners), claims, i + 1, owner);
          ClaimsAccepted(old(owners), claims[..i], owner);
          assert Get(owners, claims[i]) ==
            if claims[i] in claims[..i] then Some(owner) else Get(old(owners), claims[i]);
          return;
        }
        owners := owners[claims[i] := owner];
      }
      assert claims[..|claims|] == claims;
      e := None;
    }

    method RegisterStanzas(xs: seq<MembershipRule>, owner: string) returns (e: Option<Conflict>)
      modifies this`stanzas
      ensures e.None? <==> AddStanzas(old(stanzas), xs, owner).Some?
      ensures e.None? ==> Some(stanzas) == AddStanzas(old(stanzas), xs, owner)
      ensures e.Some? ==> e.value.ExclusiveSplit? && e.value.first != owner && e.value.second == owner
      ensures e.Some? ==>
        Clashes(old(stanzas), xs, owner, e.value.role) && e.value.first == old(stanzas)[e.value.role].0
    {
      for i := 0 to |xs|
        invariant Some(stanzas) == AddStanzas(old(stanzas), xs[..i], owner)
      {
        assert xs[..i + 1][..i] == xs[..i];
        var role, exclusive := xs[i].role, xs[i].exclusive;
        if role !in stanzas {
          stanzas := stanzas[role := (owner, exclusive)];
        } else {
          var (first, any) := stanzas[role];
          if first != owner && (any || exclusive) {
            e := Some(ExclusiveSplit(role, first, owner));
            StanzasFail(old(stanzas), xs, i + 1, owner);
            StanzaClash(old(stanzas), xs, i, owner);
            return;
          }
          stanzas := stanzas[role := (first, any || exclusive)];
        }
      }
      assert xs[..|xs|] == xs;
      e := None;
    }

    /** Register everything a valid document claims. */
    method Register(doc: Document, defaultOwner: Option<string>) returns (ok: bool)
      modifies this
      ensures ok <==> AddDocument(Index(old(owners), old(stanzas)), doc, defaultOwner).Some?
      ensures ok ==> Some(Index(owners, stanzas)) == AddDocument(Index(old(owners), old(stanzas)), doc, defaultOwner)
    {
      var invalid := ValidateDocumentScope(doc, defaultOwner);
      if invalid.Some? || doc.expansion.None? {
        return false;
      }
      var g := doc.expansion.value.desired;
      var grants := SortGrantKeys(g.grants.Keys + g.grantAbsences.Keys);
      var defaults := SortDefaultKeys(g.defaults.Keys + g.defaultAbsences.Keys);
      var edges := SortEdges(g.memberships);
      var claims := RoleClaims(doc.expansion.value.roles) + RoleClaims(doc.retirements) + FacetClaims(doc.scopeSchemas)
        + GrantClaims(grants) + DefaultClaims(defaults) + MemberClaims(edges);
      var conflict := RegisterClaims(claims, doc.docLabel);
      if conflict.Some? {
        return false;
      }
      conflict := RegisterStanzas(doc.memberships, doc.docLabel);
      return conflict.None?;
    }
  }

  /** A stanza refused after others of its document clashes with the table the document found. */
  lemma StanzaClash(m: Stanzas, xs: seq<MembershipRule>, i: nat, owner: string)
    requires i < |xs| && AddStanzas(m, xs[..i], owner).Some?
    requires AddStanza(AddStanzas(m, xs[..i], owner).value, xs[i], owner).None?
    ensures Clashes(m, xs, owner, xs[i].role)
    ensures AddStanzas(m, xs[..i], owner).value[xs[i].role].0 == m[xs[i].role].0
  {
    StanzasAccepted(m, xs[..i], owner);
    var r, role := AddStanzas(m, xs[..i], owner).value, xs[i].role;
    assert Get(r, role) == StanzaLeft(m, xs[..i], owner, role);
    assert xs[i] in xs && forall s :: s in xs[..i] ==> s in xs;
  }

  lemma {:induction false} ClaimsFail(owners: map<Claim, string>, claims: seq<Claim>, i: nat, owner: string)
    requires i <= |claims| && AddClaims(owners, claims[..i], owner).None?
    ensures AddClaims(owners, claims, owner).None?
    decreases |claims|
  {
    if i < |claims| {
      assert claims[..|claims| - 1][..i] == claims[..i];
      ClaimsFail(owners, claims[..|claims| - 1], i, owner);
    } else {
      assert claims[..i] == claims;
    }
  }

  lemma {:induction false} StanzasFail(m: Stanzas, xs: seq<MembershipRule>, i: nat, owner: string)
    requires i <= |xs| && AddStanzas(m, xs[..i], owner).None?
    ensures AddStanzas(m, xs, owner).None?
    decreases |xs|
  {
    if i < |xs| {
      assert xs[..|xs| - 1][..i] == xs[..i];
      StanzasFail(m, xs[..|xs| - 1], i, owner);
    } else {
      assert xs[..i] == xs;
    }
  }

  // ---- When registration succeeds ----

  /** Claims are accepted exactly when they are distinct and unowned, and then owned by the document. */
  lemma {:induction false} ClaimsAccepted(owners: map<Claim, string>, claims: seq<Claim>, owner: string)
    ensures AddClaims(owners, claims, owner).Some? <==> Distinct(claims) && forall c :: c in claims ==> c !in owners
    ensures AddClaims(owners, claims, owner).Some? ==>
      forall c :: Get(AddClaims(owners, claims, owner).value, c) == if c in claims then Some(owner) else Get(owners, c)
  {
    if claims != [] {
      var init, last := claims[..|claims| - 1], claims[|claims| - 1];
      assert claims == init + [last];
      ClaimsAccepted(owners, init, owner);
      if AddClaims(owners, init, owner).Some? {
        var o := AddClaims(owners, init, owner).value;
        assert Get(o, last) == if last in init then Some(owner) else Get(owners, last);
        DistinctSnoc(init, last);
      } else if Distinct(claims) {
        assert forall i, j :: 0 <= i < j < |init| ==> init[i] == claims[i] && init[j] == claims[j];
      }
    }
  }

  lemma DistinctSnoc<T>(xs: seq<T>, x: T)
    ensures Distinct(xs + [x]) <==> Distinct(xs) && x !in xs
  {
    if Distinct(xs + [x]) {
      assert forall i, j :: 0 <= i < j < |xs| ==> (xs + [x])[i] == xs[i] && (xs + [x])[j] == xs[j];
      forall i | 0 <= i < |xs| ensures xs[i] != x {
        assert (xs + [x])[i] != (xs + [x])[|xs|];
      }
    }
  }

  predicate Exclusive(xs: seq<MembershipRule>, role: string) {
    exists s :: s in xs && s.role == role && s.exclusive
  }

  predicate Stanza(xs: seq<MembershipRule>, role: string) {
    exists s :: s in xs && s.role == role
  }

  /** A document's stanzas clash with those recorded under another label. */
  predicate Clashes(m: Stanzas, xs: seq<MembershipRule>, owner: string, role: string) {
    role in m && m[role].0 != owner && Stanza(xs, role) && (m[role].1 || Exclusive(xs, role))
  }

  /** What the stanzas of a document leave recorded for a role. */
  function StanzaLeft(m: Stanzas, xs: seq<MembershipRule>, owner: string, role: string): Option<(string, bool)> {
    if role in m then Some((m[role].0, m[role].1 || Exclusive(xs, role)))
    else if Stanza(xs, role) then Some((owner, Exclusive(xs, role)))
    else None
  }

  ghost predicate StanzasLeft(m: Stanzas, xs: seq<MembershipRule>, owner: string, r: Stanzas) {
    forall role :: Get(r, role) == StanzaLeft(m, xs, owner, role)
  }

  lemma StanzaSnoc(xs: seq<MembershipRule>, s: MembershipRule, role: string)
    ensures Stanza(xs + [s], role) <==> (Stanza(xs, role) || s.role == role)
    ensures Exclusive(xs + [s], role) <==> (Exclusive(xs, role) || (s.role == role && s.exclusive))
    ensures Exclusive(xs, role) ==> Stanza(xs, role)
  {
    assert s in xs + [s];
    assert forall t :: t in xs ==> t in xs + [s];
  }

  /** Stanzas are accepted exactly when none of them clashes, whatever labels the table holds. */
  lemma {:induction false} StanzasAccepted(m: Stanzas, xs: seq<MembershipRule>, owner: string)
    ensures AddStanzas(m, xs, owner).Some? <==> forall role :: !Clashes(m, xs, owner, role)
    ensures AddStanzas(m, xs, owner).Some? ==> StanzasLeft(m, xs, owner, AddStanzas(m, xs, owner).value)
  {
    if xs != [] {
      var init, last := xs[..|xs| - 1], xs[|xs| - 1];
      assert xs == init + [last];
      StanzasAccepted(m, init, owner);
      if AddStanzas(m, init, owner).Some? {
        StanzaStep(m, init, last, owner, AddStanzas(m, init, owner).value);
      } else {
        var role :| Clashes(m, init, owner, role);
        StanzaSnoc(init, last, role);
        assert Clashes(m, xs, owner, role);
      }
    }
  }

  lemma StanzaStep(m: Stanzas, init: seq<MembershipRule>, last: MembershipRule, owner: string, r: Stanzas)
    requires (forall role :: !Clashes(m, init, owner, role)) && StanzasLeft(m, init, owner, r)
    ensures AddStanza(r, last, owner).Some? <==> forall role :: !Clashes(m, init + [last], owner, role)
    ensures AddStanza(r, last, owner).Some? ==> StanzasLeft(m, init + [last], owner, AddStanza(r, last, owner).value)
  {
    var xs := init + [last];
    StanzaSnoc(init, last, last.role);
    assert Get(r, last.role) == StanzaLeft(m, init, owner, last.role);
    if Clashes(m, xs, owner, last.role) {
      assert AddStanza(r, last, owner).None?;
    } else {
      forall role ensures !Clashes(m, xs, owner, role) {
        StanzaSnoc(init, last, role);
        assert !Clashes(m, init, owner, role);
      }
      var n := AddStanza(r, last, owner).value;
      forall role ensures Get(n, role) == StanzaLeft(m, xs, owner, role) {
        StanzaSnoc(init, last, role);
        assert Get(r, role) == StanzaLeft(m, init, owner, role);
      }
    }
  }

  // ---- The documents together ----

  /** What a document must satisfy on its own. */
  ghost predicate Sound(doc: Document, defaultOwner: Option<string>) {
    ScopeValid(doc, defaultOwner) && doc.expansion.Some? && Distinct(Claims(doc))
  }

  ghost predicate ClaimedBy(doc: Document, c: Claim) {
    doc.expansion.Some? && c in Claims(doc)
  }

  ghost predicate ClaimsDisjoint(a: Document, b: Document) {
    forall c :: !(ClaimedBy(a, c) && ClaimedBy(b, c))
  }

  /** No earlier document claims what `doc` claims. */
  ghost predicate Unclaimed(docs: seq<Document>, doc: Document) {
    forall a :: a in docs ==> ClaimsDisjoint(a, doc)
  }

  /** The label of the first document with a stanza for the role. */
  ghost function FirstLabel(docs: seq<Document>, role: string): Option<string> {
    if docs == [] then None
    else
      var init, last := FirstLabel(docs[..|docs| - 1], role), docs[|docs| - 1];
      if init.Some? then init else if Stanza(last.memberships, role) then Some(last.docLabel) else None
  }

  ghost predicate AnyExclusive(docs: seq<Document>, role: string) {
    exists a :: a in docs && Exclusive(a.memberships, role)
  }

  /** A stanza of `doc` meets one first declared under another label, and one of all these is exclusive. */
  ghost predicate ClashesWith(docs: seq<Document>, doc: Document, role: string) {
    && FirstLabel(docs, role).Some? && FirstLabel(docs, role).value != doc.docLabel
    && Stanza(doc.memberships, role) && (AnyExclusive(docs, role) || Exclusive(doc.memberships, role))
  }

  /** `doc` may follow `docs`. */
  ghost predicate MayFollow(docs: seq<Document>, doc: Document, defaultOwner: Option<string>) {
    Sound(doc, defaultOwner) && Unclaimed(docs, doc) && forall role :: !ClashesWith(docs, doc, role)
  }

  ghost function StanzaOf(docs: seq<Document>, role: string): Option<(string, bool)> {
    var first := FirstLabel(docs, role);
    if first.Some? then Some((first.value, AnyExclusive(docs, role))) else None
  }

  /** The index after a list of documents: each claim owned by its document, each stanza recorded. */
  ghost predicate Indexed(docs: seq<Document>, ix: Index) {
    && (forall a, c :: a in docs && ClaimedBy(a, c) ==> c in ix.owners && ix.owners[c] == a.docLabel)
    && (forall c :: c in ix.owners ==> exists a :: a in docs && ClaimedBy(a, c))
    && (forall role :: Get(ix.stanzas, role) == StanzaOf(docs, role))
  }

  lemma {:induction false} FirstLabelFrom(docs: seq<Document>, role: string)
    ensures FirstLabel(docs, role).Some? <==> exists a :: a in docs && Stanza(a.memberships, role)
    ensures FirstLabel(docs, role).Some? ==>
      exists a :: a in docs && Stanza(a.memberships, role) && a.docLabel == FirstLabel(docs, role).value
    ensures AnyExclusive(docs, role) ==> FirstLabel(docs, role).Some?
  {
    if docs != [] {
      var init, last := docs[..|docs| - 1], docs[|docs| - 1];
      assert docs == init + [last];
      FirstLabelFrom(init, role);
      if FirstLabel(init, role).Some? {
        var a :| a in init && Stanza(a.memberships, role) && a.docLabel == FirstLabel(init, role).value;
        assert a in docs;
      } else if Stanza(last.memberships, role) {
        assert last in docs;
      }
    }
  }

  lemma ClaimsFit(docs: seq<Document>, doc: Document, ix: Index)
    requires Indexed(docs, ix) && doc.expansion.Some?
    ensures AddClaims(ix.owners, Claims(doc), doc.docLabel).Some? <==> Distinct(Claims(doc)) && Unclaimed(docs, doc)
  {
    ClaimsAccepted(ix.owners, Claims(doc), doc.docLabel);
    if Unclaimed(docs, doc) {
      forall c | c in ix.owners ensures c !in Claims(doc) {
        var a :| a in docs && ClaimedBy(a, c);
        assert ClaimsDisjoint(a, doc) && !(ClaimedBy(a, c) && ClaimedBy(doc, c));
      }
    }
    if forall c :: c in Claims(doc) ==> c !in ix.owners {
      forall a | a in docs ensures ClaimsDisjoint(a, doc) {
        forall c ensures !(ClaimedBy(a, c) && ClaimedBy(doc, c)) {}
      }
    }
  }

  lemma StanzasFit(docs: seq<Document>, doc: Document, ix: Index)
    requires Indexed(docs, ix)
    ensures AddStanzas(ix.stanzas, doc.memberships, doc.docLabel).Some? <==>
      forall role :: !ClashesWith(docs, doc, role)
  {
    StanzasAccepted(ix.stanzas, doc.memberships, doc.docLabel);
    forall role ensures Clashes(ix.stanzas, doc.memberships, doc.docLabel, role) <==> ClashesWith(docs, doc, role) {
      assert Get(ix.stanzas, role) == StanzaOf(docs, role);
    }
  }

  lemma StanzaPushed(docs: seq<Document>, doc: Document, m: Stanzas, role: string)
    requires Get(m, role) == StanzaOf(docs, role)
    ensures StanzaOf(docs + [doc], role) == StanzaLeft(m, doc.memberships, doc.docLabel, role)
  {
    var more := docs + [doc];
    assert more[..|more| - 1] == docs && more[|more| - 1] == doc;
    assert AnyExclusive(more, role) <==> (AnyExclusive(docs, role) || Exclusive(doc.memberships, role)) by {
      assert doc in more && forall a :: a in docs ==> a in more;
    }
    FirstLabelFrom(docs, role);
  }

  lemma OwnersIndexed(docs: seq<Document>, doc: Document, owners: map<Claim, string>, next: map<Claim, string>)
    requires forall a, c :: a in docs && ClaimedBy(a, c) ==> c in owners && owners[c] == a.docLabel
    requires forall c :: c in owners ==> exists a :: a in docs && ClaimedBy(a, c)
    requires doc.expansion.Some? && Unclaimed(docs, doc)
    requires forall c :: Get(next, c) == if c in Claims(doc) then Some(doc.docLabel) else Get(owners, c)
    ensures forall a, c :: a in docs + [doc] && ClaimedBy(a, c) ==> c in next && next[c] == a.docLabel
    ensures forall c :: c in next ==> exists a :: a in docs + [doc] && ClaimedBy(a, c)
  {
    forall a, c | a in docs + [doc] && ClaimedBy(a, c) ensures c in next && next[c] == a.docLabel {
      assert Get(next, c) == if c in Claims(doc) then Some(doc.docLabel) else Get(owners, c);
      if a in docs {
        assert ClaimsDisjoint(a, doc) && !(ClaimedBy(a, c) && ClaimedBy(doc, c));
      } else {
        assert a == doc;
      }
    }
    forall c | c in next ensures exists a :: a in docs + [doc] && ClaimedBy(a, c) {
      assert Get(next, c) == if c in Claims(doc) then Some(doc.docLabel) else Get(owners, c);
      if c in Claims(doc) {
        assert doc in docs + [doc] && ClaimedBy(doc, c);
      } else {
        var a :| a in docs && ClaimedBy(a, c);
        assert a in docs + [doc];
      }
    }
  }

  lemma DocumentIndexed(docs: seq<Document>, doc: Document, ix: Index, defaultOwner: Option<string>)
    requires Indexed(docs, ix) && AddDocument(ix, doc, defaultOwner).Some?
    ensures Indexed(docs + [doc], AddDocument(ix, doc, defaultOwner).value)
  {
    var next := AddDocument(ix, doc, defaultOwner).value;
    ClaimsAccepted(ix.owners, Claims(doc), doc.docLabel);
    ClaimsFit(docs, doc, ix);
    OwnersIndexed(docs, doc, ix.owners, next.owners);
    StanzasAccepted(ix.stanzas, doc.memberships, doc.docLabel);
    forall role ensures Get(next.stanzas, role) == StanzaOf(docs + [doc], role) {
      assert Get(ix.stanzas, role) == StanzaOf(docs, role);
      StanzaPushed(docs, doc, ix.stanzas, role);
    }
  }

  lemma DocumentAccepted(docs: seq<Document>, doc: Document, ix: Index, defaultOwner: Option<string>)
    requires Indexed(docs, ix)
    ensures AddDocument(ix, doc, defaultOwner).Some? <==> MayFollow(docs, doc, defaultOwner)
  {
    if ScopeValid(doc, defaultOwner) && doc.expansion.Some? {
      ClaimsFit(docs, doc, ix);
      StanzasFit(docs, doc, ix);
    }
  }

  /** A list is accepted in its order, whatever its labels, exactly when each document may follow those before it. */
  lemma {:induction false} AcceptedIffEachFollows(docs: seq<Document>, defaultOwner: Option<string>)
    ensures AddDocuments(docs, defaultOwner).Some? <==>
      forall j :: 0 <= j < |docs| ==> MayFollow(docs[..j], docs[j], defaultOwner)
    ensures AddDocuments(docs, defaultOwner).Some? ==> Indexed(docs, AddDocuments(docs, defaultOwner).value)
  {
    if docs != [] {
      var n := |docs| - 1;
      var init, last := docs[..n], docs[n];
      assert docs == init + [last];
      AcceptedIffEachFollows(init, defaultOwner);
      forall j | 0 <= j < n ensures init[..j] == docs[..j] && init[j] == docs[j] {}
      if AddDocuments(init, defaultOwner).Some? {
        var ix := AddDocuments(init, defaultOwner).value;
        DocumentAccepted(init, last, ix, defaultOwner);
        if AddDocument(ix, last, defaultOwner).Some? {
          DocumentIndexed(init, last, ix, defaultOwner);
        }
      }
    } else {
      forall role ensures StanzaOf(docs, role) == None {}
    }
  }

  /** An otherwise empty document with one membership stanza. */
  ghost function StanzaOnly(name: string, exclusive: bool): Document {
    Document(name, None, [], [], [], [], [], [], [MembershipRule("r", [], exclusive)], [],
             Some(Expansion([], EMPTY_GRAPH)))
  }

  lemma StanzaOnlyStep(ix: Index, name: string, exclusive: bool)
    ensures AddDocument(ix, StanzaOnly(name, exclusive), None)
      == var m := AddStanza(ix.stanzas, MembershipRule("r", [], exclusive), name);
         if m.None? then None else Some(Index(ix.owners, m.value))
  {
    var doc := StanzaOnly(name, exclusive);
    assert Claims(doc) == [];
    assert doc.memberships[..0] == [];
    assert AddStanzas(ix.stanzas, doc.memberships, name) == AddStanza(ix.stanzas, doc.memberships[0], name);
  }

  /** Under a shared label a second document may slip past the exclusive check in one order and not in another. */
  lemma SharedLabelsDependOnOrder()
    ensures var a, b, a' := StanzaOnly("a", false), StanzaOnly("b", false), StanzaOnly("a", true);
      AddDocuments([a, b, a'], None).Some? && AddDocuments([b, a, a'], None).None?
  {
    TwoStanzas("a", "b");
    TwoStanzas("b", "a");
    var a, b, a' := StanzaOnly("a", false), StanzaOnly("b", false), StanzaOnly("a", true);
    DocumentsPush([a, b], a');
    DocumentsPush([b, a], a');
    assert [a, b] + [a'] == [a, b, a'] && [b, a] + [a'] == [b, a, a'];
    StanzaOnlyStep(AddDocuments([a, b], None).value, "a", true);
    StanzaOnlyStep(AddDocuments([b, a], None).value, "a", true);
  }

  lemma DocumentsPush(docs: seq<Document>, doc: Document)
    ensures AddDocuments(docs + [doc], None)
      == var init := AddDocuments(docs, None); if init.None? then None else AddDocument(init.value, doc, None)
  {
    assert (docs + [doc])[..|docs|] == docs;
  }

  /** Two open stanzas for one role: the first document is remembered. */
  lemma TwoStanzas(first: string, second: string)
    ensures AddDocuments([StanzaOnly(first, false), StanzaOnly(second, false)], None)
      == Some(Index(map[], map["r" := (first, false)]))
  {
    var a, b := StanzaOnly(first, false), StanzaOnly(second, false);
    DocumentsPush([], a);
    DocumentsPush([a], b);
    assert [] + [a] == [a] && [a] + [b] == [a, b];
    StanzaOnlyStep(Index(map[], map[]), first, false);
    var m: Stanzas := map["r" := (first, false)];
    assert map[]["r" := (first, false)] == m && m["r" := (first, false)] == m;
    StanzaOnlyStep(Index(map[], map["r" := (first, false)]), second, false);
  }
}
