/**
 Which bundles are accepted in every order of their documents, and what an
 accepted bundle's index says, whatever the labels.
 */
module DocumentOrder {
  import opened Model
  import opened Manifest
  import opened Composition
  import opened Ownership

  // ---- The condition, said without an order ----

  /** No two positions claim the same thing. */
  ghost predicate ClaimsApart(docs: seq<Document>) {
    forall i, j :: 0 <= i < j < |docs| ==> ClaimsDisjoint(docs[i], docs[j])
  }

  /** Neither document declares a role exclusive that both have stanzas for. */
  ghost predicate Unsplit(a: Document, b: Document) {
    forall role :: Stanza(a.memberships, role) && Stanza(b.memberships, role) ==>
      !Exclusive(a.memberships, role) && !Exclusive(b.memberships, role)
  }

  /** Every document is sound, no claim is made twice, and no exclusive member list is split across labels. */
  ghost predicate Agreeable(docs: seq<Document>, defaultOwner: Option<string>) {
    && (forall a :: a in docs ==> Sound(a, defaultOwner))
    && ClaimsApart(docs)
    && (forall a, b :: a in docs && b in docs && a.docLabel != b.docLabel ==> Unsplit(a, b))
  }

  ghost predicate Accepted(docs: seq<Document>, defaultOwner: Option<string>) {
    AddDocuments(docs, defaultOwner).Some?
  }

  // ---- Sufficient ----

  lemma AgreeableNoClash(docs: seq<Document>, doc: Document, role: string)
    requires forall a :: a in docs && a.docLabel != doc.docLabel ==> Unsplit(a, doc)
    requires forall a, b :: a in docs && b in docs && a.docLabel != b.docLabel ==> Unsplit(a, b)
    ensures !ClashesWith(docs, doc, role)
  {
    FirstLabelFrom(docs, role);
    var first := FirstLabel(docs, role);
    if first.Some? && first.value != doc.docLabel && Stanza(doc.memberships, role) {
      var a :| a in docs && Stanza(a.memberships, role) && a.docLabel == first.value;
      assert Unsplit(a, doc);
      forall e | e in docs ensures !Exclusive(e.memberships, role) {
        StanzaSnoc(e.memberships, MembershipRule(role, [], false), role);
        assert e.docLabel != doc.docLabel ==> Unsplit(e, doc);
        assert e.docLabel == doc.docLabel ==> Unsplit(a, e);
      }
    }
  }

  lemma AgreeableIsAccepted(docs: seq<Document>, defaultOwner: Option<string>)
    requires Agreeable(docs, defaultOwner)
    ensures Accepted(docs, defaultOwner)
  {
    forall j | 0 <= j < |docs| ensures MayFollow(docs[..j], docs[j], defaultOwner) {
      assert docs[j] in docs && forall a :: a in docs[..j] ==> a in docs;
      forall a | a in docs[..j] ensures ClaimsDisjoint(a, docs[j]) {
        var i :| 0 <= i < j && docs[i] == a;
      }
      forall role ensures !ClashesWith(docs[..j], docs[j], role) {
        AgreeableNoClash(docs[..j], docs[j], role);
      }
    }
    AcceptedIffEachFollows(docs, defaultOwner);
  }

  // ---- The same for every order ----

  lemma {:induction false} CountOfTwo<T>(xs: seq<T>, i: nat, j: nat)
    requires i < j < |xs| && xs[i] == xs[j]
    ensures multiset(xs)[xs[i]] >= 2
  {
    var a, b := xs[..j], xs[j..];
    assert xs == a + b && a[i] in a && b[0] in b;
    assert multiset(xs) == multiset(a) + multiset(b);
  }

  lemma {:induction false} TwoOfCount<T>(xs: seq<T>, x: T) returns (i: nat, j: nat)
    requires multiset(xs)[x] >= 2
    ensures i < j < |xs| && xs[i] == xs[j] == x
  {
    assert x in multiset(xs);
    i :| 0 <= i < |xs| && xs[i] == x;
    var left, right := xs[..i], xs[i + 1..];
    assert xs == left + [x] + right;
    assert multiset(xs) == multiset(left) + multiset{x} + multiset(right);
    if x in multiset(left) {
      j := i;
      i :| 0 <= i < |left| && left[i] == x;
    } else {
      assert x in multiset(right);
      j :| 0 <= j < |right| && right[j] == x;
      j := i + 1 + j;
    }
  }

  lemma SameMembers<T>(xs: seq<T>, ys: seq<T>)
    requires multiset(xs) == multiset(ys)
    ensures forall x :: x in xs <==> x in ys
  {
    forall x ensures x in xs <==> x in ys {
      assert x in xs <==> x in multiset(xs);
      assert x in ys <==> x in multiset(ys);
    }
  }

  /** Different documents of a list with claims apart share no claim, and neither do two copies of one. */
  lemma ApartMembers(docs: seq<Document>, a: Document, b: Document)
    requires ClaimsApart(docs) && a in docs && b in docs && (a == b ==> multiset(docs)[a] >= 2)
    ensures ClaimsDisjoint(a, b)
  {
    if a == b {
      var i, j := TwoOfCount(docs, a);
    } else {
      var i :| 0 <= i < |docs| && docs[i] == a;
      var j :| 0 <= j < |docs| && docs[j] == b;
      assert ClaimsDisjoint(if i < j then a else b, if i < j then b else a);
    }
  }

  lemma ApartPermuted(docs: seq<Document>, others: seq<Document>)
    requires ClaimsApart(docs) && multiset(docs) == multiset(others)
    ensures ClaimsApart(others)
  {
    SameMembers(docs, others);
    forall i, j | 0 <= i < j < |others| ensures ClaimsDisjoint(others[i], others[j]) {
      if others[i] == others[j] {
        CountOfTwo(others, i, j);
      }
      ApartMembers(docs, others[i], others[j]);
    }
  }

  lemma AgreeablePermuted(docs: seq<Document>, others: seq<Document>, defaultOwner: Option<string>)
    requires Agreeable(docs, defaultOwner) && multiset(docs) == multiset(others)
    ensures Agreeable(others, defaultOwner)
  {
    SameMembers(docs, others);
    ApartPermuted(docs, others);
  }

  // ---- Necessary ----

  lemma AcceptedIsApart(docs: seq<Document>, defaultOwner: Option<string>)
    requires Accepted(docs, defaultOwner)
    ensures ClaimsApart(docs) && forall a :: a in docs ==> Sound(a, defaultOwner)
  {
    AcceptedIffEachFollows(docs, defaultOwner);
    forall i, j | 0 <= i < j < |docs| ensures ClaimsDisjoint(docs[i], docs[j]) {
      assert MayFollow(docs[..j], docs[j], defaultOwner) && docs[..j][i] in docs[..j];
    }
    forall a | a in docs ensures Sound(a, defaultOwner) {
      var j :| 0 <= j < |docs| && docs[j] == a;
      assert MayFollow(docs[..j], docs[j], defaultOwner);
    }
  }

  lemma Without<T>(xs: seq<T>, x: T) returns (rest: seq<T>)
    requires x in xs
    ensures multiset(xs) == multiset{x} + multiset(rest)
  {
    var i :| 0 <= i < |xs| && xs[i] == x;
    rest := xs[..i] + xs[i + 1..];
    assert xs == xs[..i] + [x] + xs[i + 1..];
  }

  /** Two chosen documents put first. */
  lemma PutFirst(docs: seq<Document>, a: Document, b: Document) returns (others: seq<Document>)
    requires a in docs && b in docs && a != b
    ensures multiset(others) == multiset(docs) && |others| >= 2 && others[0] == a && others[1] == b
  {
    var rest := Without(docs, a);
    assert b in multiset(docs) && b in multiset(rest);
    var rest' := Without(rest, b);
    others := [a, b] + rest';
    assert multiset([a, b]) == multiset{a} + multiset{b};
  }

  /** Behind a document that declares a role exclusive, no other label may have a stanza for it. */
  lemma ExclusiveFirstClashes(others: seq<Document>, defaultOwner: Option<string>, role: string)
    requires |others| >= 2 && others[0].docLabel != others[1].docLabel
    requires Exclusive(others[0].memberships, role) && Stanza(others[1].memberships, role)
    ensures !Accepted(others, defaultOwner)
  {
    var a, b := others[0], others[1];
    AcceptedIffEachFollows(others, defaultOwner);
    assert others[..1] == [a] && [a][..0] == [];
    StanzaSnoc(a.memberships, MembershipRule(role, [], false), role);
    assert FirstLabel([a], role) == Some(a.docLabel);
    assert a in [a] && AnyExclusive([a], role);
    assert ClashesWith(others[..1], others[1], role);
  }

  lemma SplitIsRefused(docs: seq<Document>, defaultOwner: Option<string>, a: Document, b: Document, role: string)
    returns (others: seq<Document>)
    requires a in docs && b in docs && a.docLabel != b.docLabel
    requires Exclusive(a.memberships, role) && Stanza(b.memberships, role)
    ensures multiset(others) == multiset(docs) && !Accepted(others, defaultOwner)
  {
    others := PutFirst(docs, a, b);
    ExclusiveFirstClashes(others, defaultOwner, role);
  }

  /**
   A bundle is accepted in every order of its documents, shared labels
   included, exactly when every document is sound, no claim is made twice and
   no exclusive member list is split across labels.
   */
  lemma AcceptedInEveryOrder(docs: seq<Document>, defaultOwner: Option<string>)
    ensures (forall others :: multiset(others) == multiset(docs) ==> Accepted(others, defaultOwner))
      <==> Agreeable(docs, defaultOwner)
  {
    if Agreeable(docs, defaultOwner) {
      forall others | multiset(others) == multiset(docs) ensures Accepted(others, defaultOwner) {
        AgreeablePermuted(docs, others, defaultOwner);
        AgreeableIsAccepted(others, defaultOwner);
      }
    }
    if forall others :: multiset(others) == multiset(docs) ==> Accepted(others, defaultOwner) {
      AcceptedIsApart(docs, defaultOwner);
      forall a, b | a in docs && b in docs && a.docLabel != b.docLabel ensures Unsplit(a, b) {
        EveryOrderUnsplit(docs, defaultOwner, a, b);
      }
    }
  }

  lemma EveryOrderUnsplit(docs: seq<Document>, defaultOwner: Option<string>, a: Document, b: Document)
    requires forall others :: multiset(others) == multiset(docs) ==> Accepted(others, defaultOwner)
    requires a in docs && b in docs && a.docLabel != b.docLabel
    ensures Unsplit(a, b)
  {
    forall role | Stanza(a.memberships, role) && Stanza(b.memberships, role)
      ensures !Exclusive(a.memberships, role) && !Exclusive(b.memberships, role)
    {
      if Exclusive(a.memberships, role) {
        var others := SplitIsRefused(docs, defaultOwner, a, b, role);
      } else if Exclusive(b.memberships, role) {
        var others := SplitIsRefused(docs, defaultOwner, b, a, role);
      }
    }
  }

  // ---- Distinct labels: one order decides for all ----

  ghost predicate DistinctLabels(docs: seq<Document>) {
    forall i, j :: 0 <= i < j < |docs| ==> docs[i].docLabel != docs[j].docLabel
  }

  lemma FollowerUnsplit(docs: seq<Document>, defaultOwner: Option<string>, i: nat, j: nat)
    requires DistinctLabels(docs) && Accepted(docs, defaultOwner) && i < j < |docs|
    ensures Unsplit(docs[i], docs[j])
  {
    AcceptedIffEachFollows(docs, defaultOwner);
    assert MayFollow(docs[..j], docs[j], defaultOwner) && docs[..j][i] in docs[..j];
    forall role | Stanza(docs[i].memberships, role) && Stanza(docs[j].memberships, role)
      ensures !Exclusive(docs[i].memberships, role) && !Exclusive(docs[j].memberships, role)
    {
      FirstLabelFrom(docs[..j], role);
      var a :| a in docs[..j] && a.docLabel == FirstLabel(docs[..j], role).value;
      var h :| 0 <= h < j && docs[h] == a;
      assert !ClashesWith(docs[..j], docs[j], role);
    }
  }

  /** With distinct labels, a bundle accepted in one order is accepted in every order. */
  lemma DistinctLabelsOrderFree(docs: seq<Document>, others: seq<Document>, defaultOwner: Option<string>)
    requires DistinctLabels(docs) && multiset(docs) == multiset(others) && Accepted(docs, defaultOwner)
    ensures Accepted(others, defaultOwner)
  {
    AcceptedIsApart(docs, defaultOwner);
    forall a, b | a in docs && b in docs && a.docLabel != b.docLabel ensures Unsplit(a, b) {
      var i :| 0 <= i < |docs| && docs[i] == a;
      var j :| 0 <= j < |docs| && docs[j] == b;
      if i < j {
        FollowerUnsplit(docs, defaultOwner, i, j);
      } else {
        FollowerUnsplit(docs, defaultOwner, j, i);
      }
    }
    AcceptedInEveryOrder(docs, defaultOwner);
  }

  // ---- One owner ----

  /** In an accepted bundle every claimed key belongs to exactly one position, and the index names its document. */
  lemma EveryClaimHasOneOwner(docs: seq<Document>, defaultOwner: Option<string>, c: Claim)
    requires Accepted(docs, defaultOwner)
    ensures var owners := AddDocuments(docs, defaultOwner).value.owners;
      && (c in owners <==> exists i :: 0 <= i < |docs| && ClaimedBy(docs[i], c))
      && (forall i :: 0 <= i < |docs| && ClaimedBy(docs[i], c) ==> owners[c] == docs[i].docLabel)
      && (forall i, j :: 0 <= i < j < |docs| ==> !(ClaimedBy(docs[i], c) && ClaimedBy(docs[j], c)))
  {
    AcceptedIffEachFollows(docs, defaultOwner);
    AcceptedIsApart(docs, defaultOwner);
    IndexedOwners(docs, AddDocuments(docs, defaultOwner).value, c);
    forall i, j | 0 <= i < j < |docs| ensures !(ClaimedBy(docs[i], c) && ClaimedBy(docs[j], c)) {
      assert ClaimsDisjoint(docs[i], docs[j]);
    }
  }

  lemma IndexedOwners(docs: seq<Document>, ix: Index, c: Claim)
    requires Indexed(docs, ix)
    ensures c in ix.owners <==> exists i :: 0 <= i < |docs| && ClaimedBy(docs[i], c)
    ensures forall i :: 0 <= i < |docs| && ClaimedBy(docs[i], c) ==> ix.owners[c] == docs[i].docLabel
  {
    assert forall i :: 0 <= i < |docs| ==> docs[i] in docs;
    if c in ix.owners {
      var a :| a in docs && ClaimedBy(a, c);
      var i :| 0 <= i < |docs| && docs[i] == a;
    }
  }

}
