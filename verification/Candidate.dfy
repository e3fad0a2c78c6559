/**
 Canonical candidate content: a JSON value with object keys sorted and empty
 members dropped.
 */
module Candidate {
  import opened Orders

  /** A JSON value; object members in the order they are written. */
  datatype Value =
    | Null
    | Bool(on: bool)
    | Number(number: string)
    | Text(text: string)
    | Array(items: seq<Value>)
    | Object(members: seq<Member>)

  datatype Member = Member(key: string, value: Value)

  predicate IsEmpty(v: Value) {
    match v
    case Null => true
    case Object(members) => members == []
    case Array(items) => items == []
    case _ => false
  }

  function MembersOf(m: map<string, Value>, keys: seq<string>): seq<Member>
    requires forall k :: k in keys ==> k in m
  {
    seq(|keys|, i requires 0 <= i < |keys| => assert keys[i] in keys; Member(keys[i], m[keys[i]]))
  }

  /** The members of a sorted map, in key order. */
  ghost function Listed(m: map<string, Value>): seq<Member> {
    MembersOf(m, Sorted(m.Keys, StringLe))
  }

  /** What is kept of the members: each canonical, empty ones left out. */
  ghost function Kept(members: seq<Member>): map<string, Value> {
    if members == [] then map[]
    else
      var last := members[|members| - 1];
      var kept, entry := Kept(members[..|members| - 1]), Canonical(last.value);
      if IsEmpty(entry) then kept else kept[last.key := entry]
  }

  ghost function Canonical(v: Value): Value {
    match v
    case Object(members) => Object(Listed(Kept(members)))
    case Array(items) => Array(seq(|items|, i requires 0 <= i < |items| => Canonical(items[i])))
    case _ => v
  }

  // ---- As a recursion with a loop ----

  method ListMembers(m: map<string, Value>) returns (members: seq<Member>)
    ensures members == Listed(m)
  {
    var keys := SortStrings(m.Keys);
    members := MembersOf(m, keys);
  }

  method Canonicalize(v: Value) returns (r: Value)
    ensures r == Canonical(v)
  {
    match v {
      case Object(members) =>
        var sorted: map<string, Value> := map[];
        for i := 0 to |members|
          invariant sorted == Kept(members[..i])
        {
          assert members[..i + 1][..i] == members[..i];
          var entry := Canonicalize(members[i].value);
          if !IsEmpty(entry) {
            sorted := sorted[members[i].key := entry];
          }
        }
        assert members[..|members|] == members;
        var listed := ListMembers(sorted);
        r := Object(listed);
      case Array(items) =>
        var done: seq<Value> := [];
        for i := 0 to |items|
          invariant |done| == i && forall j :: 0 <= j < i ==> done[j] == Canonical(items[j])
        {
          var item := Canonicalize(items[i]);
          done := done + [item];
        }
        assert done == seq(|items|, i requires 0 <= i < |items| => Canonical(items[i]));
        r := Array(done);
      case _ => r := v;
    }
  }

  // ---- Values as a parser gives them: no key twice in one object ----

  ghost predicate DistinctKeys(members: seq<Member>) {
    forall i, j :: 0 <= i < j < |members| ==> members[i].key != members[j].key
  }

  ghost predicate Parsed(v: Value) {
    match v
    case Object(members) => DistinctKeys(members) && forall i :: 0 <= i < |members| ==> Parsed(members[i].value)
    case Array(items) => forall i :: 0 <= i < |items| ==> Parsed(items[i])
    case _ => true
  }

  /** Some member has the key and survives. */
  ghost predicate Survives(members: seq<Member>, i: nat, k: string) {
    i < |members| && members[i].key == k && !IsEmpty(Canonical(members[i].value))
  }

  lemma {:induction false} KeptMember(members: seq<Member>, k: string, i: nat)
    requires DistinctKeys(members) && Survives(members, i, k)
    ensures k in Kept(members) && Kept(members)[k] == Canonical(members[i].value)
  {
    var n := |members| - 1;
    if i < n {
      assert members[..n][i] == members[i];
      assert forall a, b :: 0 <= a < b < n ==> members[..n][a] == members[a] && members[..n][b] == members[b];
      KeptMember(members[..n], k, i);
      assert members[n].key != k;
    }
  }

  lemma {:induction false} KeptFrom(members: seq<Member>, k: string) returns (i: nat)
    requires k in Kept(members)
    ensures Survives(members, i, k) && Kept(members)[k] == Canonical(members[i].value)
  {
    var n := |members| - 1;
    if members[n].key == k && !IsEmpty(Canonical(members[n].value)) {
      i := n;
    } else {
      i := KeptFrom(members[..n], k);
      assert members[..n][i] == members[i];
    }
  }

  // ---- Listing a map ----

  lemma InListed(m: map<string, Value>, i: nat)
    requires i < |Listed(m)|
    ensures Listed(m)[i].key in m && Listed(m)[i].value == m[Listed(m)[i].key]
  {
    var keys := Sorted(m.Keys, StringLe);
    assert keys[i] in keys;
  }

  lemma ListedAt(m: map<string, Value>, k: string) returns (i: nat)
    requires k in m
    ensures i < |Listed(m)| && Listed(m)[i] == Member(k, m[k])
  {
    var keys := Sorted(m.Keys, StringLe);
    assert k in keys;
    i :| 0 <= i < |keys| && keys[i] == k;
  }

  lemma ListedDistinct(m: map<string, Value>)
    ensures DistinctKeys(Listed(m))
  {
  }

  lemma ListedInjective(m: map<string, Value>, n: map<string, Value>)
    requires Listed(m) == Listed(n)
    ensures m == n
  {
    forall k ensures k in m ==> k in n && m[k] == n[k] {
      if k in m {
        var i := ListedAt(m, k);
        InListed(n, i);
      }
    }
    forall k ensures k in n ==> k in m {
      if k in n {
        var i := ListedAt(n, k);
        InListed(m, i);
      }
    }
  }

  // ---- Members that vanish ----

  /** Null, an empty array, or an object of which nothing is left. */
  ghost predicate Vanishes(v: Value) {
    match v
    case Null => true
    case Array(items) => items == []
    case Object(members) => forall i :: 0 <= i < |members| ==> Vanishes(members[i].value)
    case _ => false
  }

  lemma {:induction false} EmptyIffVanishes(v: Value)
    ensures IsEmpty(Canonical(v)) <==> Vanishes(v)
  {
    if v.Object? {
      forall i | 0 <= i < |v.members| ensures IsEmpty(Canonical(v.members[i].value)) <==> Vanishes(v.members[i].value) {
        EmptyIffVanishes(v.members[i].value);
      }
      var kept := Kept(v.members);
      if !Vanishes(v) {
        var i :| 0 <= i < |v.members| && !Vanishes(v.members[i].value);
        var k := SomethingKept(v.members, i);
        var j := ListedAt(kept, k);
      } else if kept != map[] {
        var k :| k in kept;
        var i := KeptFrom(v.members, k);
        assert false;
      }
      if kept == map[] {
        assert Listed(kept) == [];
      }
    }
  }

  /** A member that survives leaves its key behind. */
  lemma {:induction false} SomethingKept(members: seq<Member>, i: nat) returns (k: string)
    requires i < |members| && !IsEmpty(Canonical(members[i].value))
    ensures k in Kept(members)
  {
    var n := |members| - 1;
    if i == n {
      k := members[n].key;
    } else {
      assert members[..n][i] == members[i];
      k := SomethingKept(members[..n], i);
    }
  }

  // ---- Idempotence ----

  lemma KeptIsCanonical(members: seq<Member>, k: string)
    requires k in Kept(members)
    requires forall i :: 0 <= i < |members| ==> Canonical(Canonical(members[i].value)) == Canonical(members[i].value)
    ensures Canonical(Kept(members)[k]) == Kept(members)[k] && !IsEmpty(Kept(members)[k])
  {
    var i := KeptFrom(members, k);
  }

  /** Keeping what has been kept keeps it all. */
  lemma KeptAgain(m: map<string, Value>)
    requires forall k :: k in m ==> Canonical(m[k]) == m[k] && !IsEmpty(m[k])
    ensures Kept(Listed(m)) == m
  {
    var listed := Listed(m);
    ListedDistinct(m);
    forall k | k in m ensures k in Kept(listed) && Kept(listed)[k] == m[k] {
      var i := ListedAt(m, k);
      KeptMember(listed, k, i);
    }
    forall k | k in Kept(listed) ensures k in m {
      var i := KeptFrom(listed, k);
      InListed(m, i);
    }
  }

  lemma {:induction false} CanonicalIsIdempotent(v: Value)
    ensures Canonical(Canonical(v)) == Canonical(v)
  {
    match v
    case Object(members) =>
      forall i | 0 <= i < |members| ensures Canonical(Canonical(members[i].value)) == Canonical(members[i].value) {
        CanonicalIsIdempotent(members[i].value);
      }
      forall k | k in Kept(members)
        ensures Canonical(Kept(members)[k]) == Kept(members)[k] && !IsEmpty(Kept(members)[k])
      {
        KeptIsCanonical(members, k);
      }
      KeptAgain(Kept(members));
    case Array(items) =>
      forall i | 0 <= i < |items| ensures Canonical(Canonical(items[i])) == Canonical(items[i]) {
        CanonicalIsIdempotent(items[i]);
      }
    case _ =>
  }

  // ---- What the canonical form identifies ----

  /** Equal up to the order of keys and members that vanish. */
  ghost predicate Same(v: Value, w: Value) {
    match v
    case Object(members) =>
      && w.Object?
      && (forall i :: 0 <= i < |members| && !Vanishes(members[i].value) ==>
            exists j :: 0 <= j < |w.members| && w.members[j].key == members[i].key && !Vanishes(w.members[j].value)
              && Same(members[i].value, w.members[j].value))
      && (forall j :: 0 <= j < |w.members| && !Vanishes(w.members[j].value) ==>
            exists i :: 0 <= i < |members| && members[i].key == w.members[j].key && !Vanishes(members[i].value))
    case Array(items) =>
      w.Array? && |w.items| == |items| && forall i :: 0 <= i < |items| ==> Same(items[i], w.items[i])
    case _ => v == w
  }

  /** Members `i` and `j` have the same key and both survive. */
  ghost predicate Matches(v: seq<Member>, i: int, w: seq<Member>, j: int) {
    0 <= i < |v| && 0 <= j < |w| && w[j].key == v[i].key && !Vanishes(v[i].value) && !Vanishes(w[j].value)
  }

  /** The canonical form decides the members of `v` against those of `w`. */
  ghost predicate Decided(v: seq<Member>, w: seq<Member>) {
    forall i, j :: Matches(v, i, w, j) ==>
      (Canonical(v[i].value) == Canonical(w[j].value) <==> Same(v[i].value, w[j].value))
  }

  lemma SurvivesIff(members: seq<Member>, i: nat, k: string)
    ensures Survives(members, i, k) <==> i < |members| && members[i].key == k && !Vanishes(members[i].value)
  {
    if i < |members| {
      EmptyIffVanishes(members[i].value);
    }
  }

  lemma SameKeepsSame(v: Value, w: Value)
    requires v.Object? && w.Object? && DistinctKeys(v.members) && DistinctKeys(w.members)
    requires Decided(v.members, w.members) && Same(v, w)
    ensures Kept(v.members) == Kept(w.members)
  {
    forall k | k in Kept(v.members) ensures k in Kept(w.members) && Kept(w.members)[k] == Kept(v.members)[k] {
      KeptThere(v, w, k);
    }
    forall k | k in Kept(w.members) ensures k in Kept(v.members) {
      KeptHere(v, w, k);
    }
  }

  lemma KeptThere(v: Value, w: Value, k: string)
    requires v.Object? && w.Object? && DistinctKeys(v.members) && DistinctKeys(w.members)
    requires Decided(v.members, w.members) && Same(v, w) && k in Kept(v.members)
    ensures k in Kept(w.members) && Kept(w.members)[k] == Kept(v.members)[k]
  {
    var i := KeptFrom(v.members, k);
    SurvivesIff(v.members, i, k);
    var j :| 0 <= j < |w.members| && w.members[j].key == v.members[i].key && !Vanishes(w.members[j].value)
      && Same(v.members[i].value, w.members[j].value);
    SurvivesIff(w.members, j, k);
    KeptMember(w.members, k, j);
    assert Matches(v.members, i, w.members, j);
  }

  lemma KeptHere(v: Value, w: Value, k: string)
    requires v.Object? && w.Object? && DistinctKeys(v.members) && DistinctKeys(w.members)
    requires Same(v, w) && k in Kept(w.members)
    ensures k in Kept(v.members)
  {
    var j := KeptFrom(w.members, k);
    SurvivesIff(w.members, j, k);
    var i :| 0 <= i < |v.members| && v.members[i].key == w.members[j].key && !Vanishes(v.members[i].value);
    SurvivesIff(v.members, i, k);
    KeptMember(v.members, k, i);
  }

  lemma KeptSameIsSame(v: Value, w: Value)
    requires v.Object? && w.Object? && DistinctKeys(v.members) && DistinctKeys(w.members)
    requires Decided(v.members, w.members) && Kept(v.members) == Kept(w.members)
    ensures Same(v, w)
  {
    forall i | 0 <= i < |v.members| && !Vanishes(v.members[i].value)
      ensures exists j ::
        0 <= j < |w.members| && w.members[j].key == v.members[i].key && !Vanishes(w.members[j].value)
        && Same(v.members[i].value, w.members[j].value)
    {
      var k := v.members[i].key;
      SurvivesIff(v.members, i, k);
      KeptMember(v.members, k, i);
      var j := KeptFrom(w.members, k);
      SurvivesIff(w.members, j, k);
      assert Matches(v.members, i, w.members, j);
    }
    forall j | 0 <= j < |w.members| && !Vanishes(w.members[j].value)
      ensures exists i :: 0 <= i < |v.members| && v.members[i].key == w.members[j].key && !Vanishes(v.members[i].value)
    {
      var k := w.members[j].key;
      SurvivesIff(w.members, j, k);
      KeptMember(w.members, k, j);
      var i := KeptFrom(v.members, k);
      SurvivesIff(v.members, i, k);
    }
  }

  /**
   Two parsed values have the same canonical form exactly when they differ only
   in key order and in members that vanish.
   */
  lemma {:induction false} CanonicalDecides(v: Value, w: Value)
    requires Parsed(v) && Parsed(w)
    ensures Canonical(v) == Canonical(w) <==> Same(v, w)
  {
    match v
    case Object(members) =>
      if w.Object? {
        forall i, j | Matches(members, i, w.members, j)
          ensures Canonical(members[i].value) == Canonical(w.members[j].value) <==>
            Same(members[i].value, w.members[j].value)
        {
          CanonicalDecides(members[i].value, w.members[j].value);
        }
        if Same(v, w) {
          SameKeepsSame(v, w);
        }
        if Canonical(v) == Canonical(w) {
          ListedInjective(Kept(members), Kept(w.members));
          KeptSameIsSame(v, w);
        }
      }
    case Array(items) =>
      if w.Array? && |w.items| == |items| {
        forall i | 0 <= i < |items|
          ensures Canonical(items[i]) == Canonical(w.items[i]) <==> Same(items[i], w.items[i])
        {
          CanonicalDecides(items[i], w.items[i]);
        }
      }
      if w.Array? {
        ArrayDecides(v, w);
      }
    case _ =>
  }

  lemma ArrayDecides(v: Value, w: Value)
    requires v.Array? && w.Array?
    ensures Canonical(v) == Canonical(w) <==>
      (|v.items| == |w.items| && forall i :: 0 <= i < |v.items| ==> Canonical(v.items[i]) == Canonical(w.items[i]))
  {
    var a, b := Canonical(v).items, Canonical(w).items;
    assert |a| == |v.items| && |b| == |w.items|;
    if Canonical(v) == Canonical(w) {
      forall i | 0 <= i < |v.items| ensures Canonical(v.items[i]) == Canonical(w.items[i]) {
        assert a[i] == b[i];
      }
    }
    if |v.items| == |w.items| && forall i :: 0 <= i < |v.items| ==> Canonical(v.items[i]) == Canonical(w.items[i]) {
      assert a == b;
    }
  }
}
