/**
 The grant section of the plan as the planner builds it: range scans over
 sorted keys, revokes accumulated per key, and a recursive split by grantor.
 */
module RevokeLoops {
  import opened Sequences
  import opened Orders
  import opened Model
  import opened Diff

  // ---- Range scans ----

  ghost function ScopeFn(k: GrantKey): GrantKey -> bool {
    (t: GrantKey) => InScope(t, k)
  }

  function ScanStart(k: GrantKey): GrantKey {
    k.(name := None)
  }

  /** The name is the last field of the order and `None` its least value. */
  lemma ScopeStarts(k: GrantKey, t: GrantKey)
    requires InScope(t, k)
    ensures GrantKeyLe(ScanStart(k), t)
  {
  }

  /** Between the start of a scope and a key of the scope lie only keys of the scope. */
  lemma ScopeConvex(k: GrantKey, x: GrantKey, y: GrantKey)
    requires GrantKeyLe(ScanStart(k), x) && GrantKeyLe(x, y) && InScope(y, k)
    ensures InScope(x, k)
  {
    if x.role != k.role {
      GranteeLeTotal();
    } else if x.objectType != k.objectType {
      TypeLeTotal();
    } else if x.schema != k.schema {
      OptionLeTotal();
    }
  }

  lemma GrantKeysAscend(s: set<GrantKey>)
    ensures Ascending(Sorted(s, GrantKeyLe), GrantKeyLe)
  {
    GrantKeyLeTotal();
    SortedAscends(s, GrantKeyLe);
  }

  lemma GrantKeyLeTrans(a: GrantKey, b: GrantKey, c: GrantKey)
    requires GrantKeyLe(a, b) && GrantKeyLe(b, c)
    ensures GrantKeyLe(a, c)
  {
    GrantKeyLeTotal();
  }

  lemma FilterCut<A>(xs: seq<A>, i: nat, p: A -> bool)
    requires i <= |xs| && forall j :: i <= j < |xs| ==> !p(xs[j])
    ensures Filter(xs, p) == Filter(xs[..i], p)
  {
    assert xs == xs[..i] + xs[i..];
    FilterNone(xs[i..], p);
    FilterConcat(xs[..i], xs[i..], p);
  }

  /** Nothing of the scope is left once the scan has met a key outside it. */
  lemma ScanEnds(xs: seq<GrantKey>, i: nat, k: GrantKey, j: nat)
    requires Ascending(xs, GrantKeyLe) && i <= j < |xs| && GrantKeyLe(ScanStart(k), xs[i]) && !InScope(xs[i], k)
    ensures !InScope(xs[j], k)
  {
    if i < j && InScope(xs[j], k) {
      assert GrantKeyLe(xs[i], xs[j]);
      ScopeConvex(k, xs[i], xs[j]);
    }
  }

  lemma SeekStep(xs: seq<GrantKey>, i: nat, k: GrantKey)
    requires i < |xs| && !GrantKeyLe(ScanStart(k), xs[i]) && Filter(xs[..i], ScopeFn(k)) == []
    ensures Filter(xs[..i + 1], ScopeFn(k)) == []
  {
    FilterSnoc(xs, i, ScopeFn(k));
    if InScope(xs[i], k) {
      ScopeStarts(k, xs[i]);
    }
  }

  /** The first key not below the start of the scope. */
  method Seek(xs: seq<GrantKey>, k: GrantKey) returns (i: nat)
    ensures i <= |xs| && Filter(xs[..i], ScopeFn(k)) == []
    ensures i < |xs| ==> GrantKeyLe(ScanStart(k), xs[i])
  {
    i := 0;
    while i < |xs| && !GrantKeyLe(ScanStart(k), xs[i])
      invariant 0 <= i <= |xs| && Filter(xs[..i], ScopeFn(k)) == []
    {
      SeekStep(xs, i, k);
      i := i + 1;
    }
  }

  /** The keys from `start` on, as long as they are in scope. */
  method TakeWhile(xs: seq<GrantKey>, start: nat, k: GrantKey) returns (next: nat)
    requires start <= |xs|
    ensures start <= next <= |xs| && (next < |xs| ==> !InScope(xs[next], k))
    ensures forall j :: start <= j < next ==> InScope(xs[j], k)
  {
    next := start;
    while next < |xs| && InScope(xs[next], k)
      invariant start <= next <= |xs|
      invariant forall j :: start <= j < next ==> InScope(xs[j], k)
    {
      next := next + 1;
    }
  }

  lemma StillPast(xs: seq<GrantKey>, start: nat, next: nat, k: GrantKey)
    requires Ascending(xs, GrantKeyLe) && start <= next < |xs| && GrantKeyLe(ScanStart(k), xs[start])
    ensures GrantKeyLe(ScanStart(k), xs[next])
  {
    if start < next {
      assert GrantKeyLe(xs[start], xs[next]);
      GrantKeyLeTrans(ScanStart(k), xs[start], xs[next]);
    }
  }

  lemma FilterRange<A>(xs: seq<A>, start: nat, next: nat, p: A -> bool)
    requires start <= next <= |xs| && Filter(xs[..start], p) == [] && forall j :: start <= j < next ==> p(xs[j])
    ensures Filter(xs[..next], p) == xs[start..next]
  {
    assert xs[..next] == xs[..start] + xs[start..next];
    FilterConcat(xs[..start], xs[start..next], p);
    FilterAll(xs[start..next], p);
  }

  /** The scanned range is the whole scope. */
  lemma ScanIsFilter(xs: seq<GrantKey>, start: nat, next: nat, k: GrantKey)
    requires Ascending(xs, GrantKeyLe) && start <= next <= |xs| && Filter(xs[..start], ScopeFn(k)) == []
    requires start < |xs| ==> GrantKeyLe(ScanStart(k), xs[start])
    requires forall j :: start <= j < next ==> InScope(xs[j], k)
    requires next < |xs| ==> !InScope(xs[next], k)
    ensures Filter(xs, ScopeFn(k)) == xs[start..next]
  {
    FilterRange(xs, start, next, ScopeFn(k));
    if next < |xs| {
      StillPast(xs, start, next, k);
    }
    forall j | next <= j < |xs| ensures !InScope(xs[j], k) {
      ScanEnds(xs, next, k, j);
    }
    FilterCut(xs, next, ScopeFn(k));
  }

  /** Seek to the start of the scope, take while in it: exactly the keys of the scope, in order. */
  method ScanScope(keys: set<GrantKey>, k: GrantKey) returns (hits: seq<GrantKey>)
    ensures hits == Filter(Sorted(keys, GrantKeyLe), ScopeFn(k))
  {
    var xs := SortGrantKeys(keys);
    GrantKeysAscend(keys);
    var start := Seek(xs, k);
    var next := TakeWhile(xs, start, k);
    ScanIsFilter(xs, start, next, k);
    hits := xs[start..next];
  }

  lemma InScan(keys: set<GrantKey>, k: GrantKey, t: GrantKey)
    ensures t in Filter(Sorted(keys, GrantKeyLe), ScopeFn(k)) <==> t in keys && InScope(t, k)
  {
    InFilter(Sorted(keys, GrantKeyLe), ScopeFn(k), t);
  }

  // ---- What a scope holds ----

  /** The privileges that the rows of `xs` hold, owner-inherent ones aside. */
  ghost predicate HeldBy(c: RoleGraph, xs: seq<GrantKey>, held: Privileges) {
    forall p :: p in held <==> exists t :: t in xs && t !in c.inherent && p in Lookup(c.grants, t)
  }

  lemma HeldOne(c: RoleGraph, xs: seq<GrantKey>, held: Privileges, t: GrantKey)
    requires HeldBy(c, xs, held)
    ensures HeldBy(c, xs + [t], if t in c.inherent then held else held + Lookup(c.grants, t))
  {
    forall p, u | u in xs && u !in c.inherent && p in Lookup(c.grants, u)
      ensures exists v :: v in xs + [t] && v !in c.inherent && p in Lookup(c.grants, v)
    {
      assert u in xs + [t];
    }
    assert t in xs + [t];
  }

  lemma HeldAll(c: RoleGraph, k: GrantKey, xs: seq<GrantKey>, held: Privileges)
    requires HeldBy(c, xs, held) && forall t :: t in xs <==> t in c.grants && InScope(t, k)
    ensures held == HeldInScope(c, k)
  {
    forall p ensures p in held <==> p in HeldInScope(c, k) {
      if p in HeldInScope(c, k) {
        var t :| t in c.grants && InScope(t, k) && t !in c.inherent && p in c.grants[t];
        assert t in xs && p in Lookup(c.grants, t);
      }
    }
  }

  method CollectRows(c: RoleGraph, xs: seq<GrantKey>) returns (held: Privileges)
    requires forall t :: t in xs ==> t in c.grants
    ensures HeldBy(c, xs, held)
  {
    held := {};
    for i := 0 to |xs|
      invariant HeldBy(c, xs[..i], held)
    {
      assert xs[..i + 1] == xs[..i] + [xs[i]];
      HeldOne(c, xs[..i], held, xs[i]);
      if xs[i] !in c.inherent {
        held := held + c.grants[xs[i]];
      }
    }
    assert xs[..|xs|] == xs;
  }

  method CollectHeld(c: RoleGraph, k: GrantKey) returns (held: Privileges)
    ensures held == HeldInScope(c, k)
  {
    var hits := ScanScope(c.grants.Keys, k);
    forall t ensures t in hits <==> t in c.grants && InScope(t, k) {
      InScan(c.grants.Keys, k, t);
    }
    held := CollectRows(c, hits);
    HeldAll(c, k, hits, held);
  }

  /** What the entry rows of `xs` record, by named target. */
  ghost predicate RecordedIn(c: RoleGraph, xs: seq<GrantKey>, m: map<GrantKey, Privileges>) {
    && (forall t :: t in m <==> t in xs && !IsStar(t))
    && (forall t :: t in m ==> m[t] == Attributed(c, t))
  }

  lemma RecordOne(c: RoleGraph, xs: seq<GrantKey>, m: map<GrantKey, Privileges>, t: GrantKey)
    requires RecordedIn(c, xs, m)
    ensures RecordedIn(c, xs + [t], if IsStar(t) then m else m[t := Lookup(m, t) + Attributed(c, t)])
  {
  }

  method RecordRows(c: RoleGraph, xs: seq<GrantKey>) returns (concrete: map<GrantKey, Privileges>)
    requires forall t :: t in xs ==> t in c.entryGrantors
    ensures RecordedIn(c, xs, concrete)
  {
    concrete := map[];
    for i := 0 to |xs|
      invariant RecordedIn(c, xs[..i], concrete)
    {
      var t := xs[i];
      assert xs[..i + 1] == xs[..i] + [t];
      RecordOne(c, xs[..i], concrete, t);
      if !IsStar(t) {
        concrete := concrete[t := Lookup(concrete, t) + EntryUnion(c.entryGrantors[t])];
      }
    }
    assert xs[..|xs|] == xs;
  }

  method RecordEntries(c: RoleGraph, k: GrantKey) returns (concrete: map<GrantKey, Privileges>)
    ensures RecordedIn(c, Filter(Sorted(c.entryGrantors.Keys, GrantKeyLe), ScopeFn(k)), concrete)
  {
    var hits := ScanScope(c.entryGrantors.Keys, k);
    forall t | t in hits ensures t in c.entryGrantors {
      InScan(c.entryGrantors.Keys, k, t);
    }
    concrete := RecordRows(c, hits);
  }

  /** The entry rows, with what the grant rows of `xs` hold added. */
  ghost predicate Merged(c: RoleGraph, base: map<GrantKey, Privileges>, xs: seq<GrantKey>,
                         m: map<GrantKey, Privileges>) {
    && (forall t :: t in m <==> t in base || (t in xs && !IsStar(t)))
    && (forall t :: t in m ==> m[t] == Lookup(base, t) + if t in xs then Lookup(c.grants, t) else {})
  }

  lemma MergeOne(c: RoleGraph, base: map<GrantKey, Privileges>, xs: seq<GrantKey>, m: map<GrantKey, Privileges>,
                 t: GrantKey)
    requires Merged(c, base, xs, m) && forall u :: u in base ==> !IsStar(u)
    ensures Merged(c, base, xs + [t], if IsStar(t) then m else m[t := Lookup(m, t) + Lookup(c.grants, t)])
  {
    var n := if IsStar(t) then m else m[t := Lookup(m, t) + Lookup(c.grants, t)];
    forall u | u in n
      ensures n[u] == Lookup(base, u) + if u in xs + [t] then Lookup(c.grants, u) else {}
    {
      if u == t && t in m {
        assert m[t] == Lookup(base, t) + if t in xs then Lookup(c.grants, t) else {};
      }
    }
  }

  method MergeRows(c: RoleGraph, xs: seq<GrantKey>, base: map<GrantKey, Privileges>)
    returns (concrete: map<GrantKey, Privileges>)
    requires (forall t :: t in base ==> !IsStar(t)) && forall t :: t in xs ==> t in c.grants
    ensures Merged(c, base, xs, concrete)
  {
    concrete := base;
    for i := 0 to |xs|
      invariant Merged(c, base, xs[..i], concrete)
    {
      var t := xs[i];
      assert xs[..i + 1] == xs[..i] + [t];
      MergeOne(c, base, xs[..i], concrete, t);
      assert c.grants[t] == Lookup(c.grants, t);
      if !IsStar(t) {
        concrete := concrete[t := Lookup(concrete, t) + c.grants[t]];
      }
    }
    assert xs[..|xs|] == xs;
  }

  method MergeHeld(c: RoleGraph, k: GrantKey, base: map<GrantKey, Privileges>)
    returns (concrete: map<GrantKey, Privileges>)
    requires forall t :: t in base ==> !IsStar(t)
    ensures Merged(c, base, Filter(Sorted(c.grants.Keys, GrantKeyLe), ScopeFn(k)), concrete)
  {
    var hits := ScanScope(c.grants.Keys, k);
    forall t | t in hits ensures t in c.grants {
      InScan(c.grants.Keys, k, t);
    }
    concrete := MergeRows(c, hits, base);
  }

  lemma MergedIsTargets(c: RoleGraph, k: GrantKey, xs: seq<GrantKey>, ys: seq<GrantKey>,
                        base: map<GrantKey, Privileges>, m: map<GrantKey, Privileges>, t: GrantKey)
    requires RecordedIn(c, xs, base) && Merged(c, base, ys, m)
    requires (t in xs <==> t in c.entryGrantors && InScope(t, k)) && (t in ys <==> t in c.grants && InScope(t, k))
    ensures t in m <==> t in Targets(c, k)
    ensures t in m ==> m[t] == HeldOn(c, t)
  {
  }

  /** The named targets of a wildcard and what is recorded on each. */
  method ConcreteTargets(c: RoleGraph, k: GrantKey) returns (concrete: map<GrantKey, Privileges>)
    ensures concrete.Keys == Targets(c, k)
    ensures forall t :: t in concrete ==> concrete[t] == HeldOn(c, t)
  {
    var base := RecordEntries(c, k);
    concrete := MergeHeld(c, k, base);
    forall t
      ensures t in concrete <==> t in Targets(c, k)
      ensures t in concrete ==> concrete[t] == HeldOn(c, t)
    {
      InScan(c.entryGrantors.Keys, k, t);
      InScan(c.grants.Keys, k, t);
      MergedIsTargets(c, k, Filter(Sorted(c.entryGrantors.Keys, GrantKeyLe), ScopeFn(k)),
        Filter(Sorted(c.grants.Keys, GrantKeyLe), ScopeFn(k)), base, concrete, t);
    }
  }

  method ScanInherent(c: RoleGraph, k: GrantKey) returns (found: bool)
    ensures found <==> HasInherent(c, k)
  {
    var hits := ScanScope(c.inherent, k);
    found := hits != [];
    forall t ensures t in hits <==> t in c.inherent && InScope(t, k) {
      InScan(c.inherent, k, t);
    }
    if found {
      assert hits[0] in hits;
    }
  }

  // ---- Splitting one revoke ----

  /** The requested privileges that the entries of `grantors` record. */
  ghost predicate Covers(entries: map<string, Privileges>, grantors: seq<string>, privileges: Privileges,
                         covered: Privileges) {
    forall p :: p in covered <==> p in privileges && exists g :: g in grantors && p in Lookup(entries, g)
  }

  lemma CoversOne(entries: map<string, Privileges>, grantors: seq<string>, privileges: Privileges,
                  covered: Privileges, g: string)
    requires Covers(entries, grantors, privileges, covered)
    ensures Covers(entries, grantors + [g], privileges, covered + privileges * Lookup(entries, g))
  {
    forall p | p in privileges && p in Lookup(entries, g)
      ensures exists h :: h in grantors + [g] && p in Lookup(entries, h)
    {
      assert g in grantors + [g];
    }
    forall p | p in privileges && exists h :: h in grantors && p in Lookup(entries, h)
      ensures exists h :: h in grantors + [g] && p in Lookup(entries, h)
    {
      var h :| h in grantors && p in Lookup(entries, h);
      assert h in grantors + [g];
    }
  }

  lemma CoversNext(entries: map<string, Privileges>, grantors: seq<string>, i: nat, privileges: Privileges,
                   covered: Privileges)
    requires i < |grantors| && Covers(entries, grantors[..i], privileges, covered)
    ensures Covers(entries, grantors[..i + 1], privileges, covered + privileges * Lookup(entries, grantors[i]))
  {
    CoversOne(entries, grantors[..i], privileges, covered, grantors[i]);
    assert grantors[..i + 1] == grantors[..i] + [grantors[i]];
  }

  lemma CoversAll(c: RoleGraph, key: GrantKey, grantors: seq<string>, privileges: Privileges, covered: Privileges)
    requires key in c.entryGrantors && Covers(c.entryGrantors[key], grantors, privileges, covered)
    requires forall g :: g in grantors <==> g in c.entryGrantors[key]
    ensures privileges - covered == privileges - Attributed(c, key)
  {
    forall p | p in privileges
      ensures p in covered <==> p in Attributed(c, key)
    {
      if p in covered {
        var g :| g in grantors && p in Lookup(c.entryGrantors[key], g);
      }
      if p in Attributed(c, key) {
        var g :| g in c.entryGrantors[key] && p in c.entryGrantors[key][g];
        assert g in grantors && p in Lookup(c.entryGrantors[key], g);
      }
    }
  }

  method PushGrantor(c: RoleGraph, key: GrantKey, privileges: Privileges, g: string, out: seq<Change>,
                     before: Privileges)
    returns (r: seq<Change>, covered: Privileges)
    requires key in c.entryGrantors && g in c.entryGrantors[key]
    ensures r == out + GrantorFn(c, key, privileges)(g)
    ensures covered == before + privileges * Lookup(c.entryGrantors[key], g)
  {
    r, covered := out, before;
    var subset := privileges * c.entryGrantors[key][g];
    if subset != {} {
      covered := covered + subset;
      r := r + [Revoke(key, subset, Some(g))];
    }
  }

  method PushGrantors(c: RoleGraph, key: GrantKey, privileges: Privileges, out: seq<Change>)
    returns (r: seq<Change>, covered: Privileges)
    requires key in c.entryGrantors
    ensures r == out + FlatMap(Sorted(c.entryGrantors[key].Keys, StringLe), GrantorFn(c, key, privileges))
    ensures Covers(c.entryGrantors[key], Sorted(c.entryGrantors[key].Keys, StringLe), privileges, covered)
  {
    var grantors := SortStrings(c.entryGrantors[key].Keys);
    r, covered := PushEachGrantor(c, key, privileges, grantors, out);
  }

  method PushEachGrantor(c: RoleGraph, key: GrantKey, privileges: Privileges, grantors: seq<string>, out: seq<Change>)
    returns (r: seq<Change>, covered: Privileges)
    requires key in c.entryGrantors && forall g :: g in grantors ==> g in c.entryGrantors[key]
    ensures r == out + FlatMap(grantors, GrantorFn(c, key, privileges))
    ensures Covers(c.entryGrantors[key], grantors, privileges, covered)
  {
    r, covered := out, {};
    ghost var f := GrantorFn(c, key, privileges);
    for i := 0 to |grantors|
      invariant r == out + FlatMap(grantors[..i], f)
      invariant Covers(c.entryGrantors[key], grantors[..i], privileges, covered)
    {
      assert grantors[i] in grantors;
      PushPiece(out, grantors, i, f);
      CoversNext(c.entryGrantors[key], grantors, i, privileges, covered);
      r, covered := PushGrantor(c, key, privileges, grantors[i], r, covered);
    }
    assert grantors[..|grantors|] == grantors;
  }

  method PushConcrete(c: RoleGraph, d: RoleGraph, key: GrantKey, privileges: Privileges, out: seq<Change>)
    returns (r: seq<Change>)
    ensures r == out + SplitConcrete(c, d, key, privileges)
  {
    if Transferred(c, d, key) || key !in c.entryGrantors {
      r := out + [Revoke(key, privileges, None)];
    } else {
      var covered;
      r, covered := PushGrantors(c, key, privileges, out);
      CoversAll(c, key, Sorted(c.entryGrantors[key].Keys, StringLe), privileges, covered);
      var remainder := privileges - covered;
      if remainder != {} {
        r := r + [Revoke(key, remainder, None)];
      }
      Assoc(out, FlatMap(Sorted(c.entryGrantors[key].Keys, StringLe), GrantorFn(c, key, privileges)),
            Remainder(c, key, privileges));
    }
  }

  /** Named targets with what is recorded on each. */
  ghost predicate Tabled(c: RoleGraph, concrete: map<GrantKey, Privileges>) {
    forall t :: t in concrete ==> !IsStar(t) && concrete[t] == HeldOn(c, t)
  }

  method PushTarget(c: RoleGraph, d: RoleGraph, t: GrantKey, held: Privileges, privileges: Privileges, out: seq<Change>)
    returns (r: seq<Change>)
    requires !IsStar(t) && held == HeldOn(c, t)
    ensures r == out + TargetFn(c, d, privileges)(t)
    decreases 1
  {
    r := out;
    if t !in c.inherent && privileges * held != {} {
      r := PushRevokes(c, d, t, privileges * held, r);
    }
  }

  method PushEach(c: RoleGraph, d: RoleGraph, targets: seq<GrantKey>, concrete: map<GrantKey, Privileges>,
                  privileges: Privileges, out: seq<Change>)
    returns (r: seq<Change>)
    requires Tabled(c, concrete) && forall t :: t in targets ==> t in concrete
    ensures r == out + FlatMap(targets, TargetFn(c, d, privileges))
    decreases 2
  {
    r := out;
    ghost var f := TargetFn(c, d, privileges);
    for i := 0 to |targets|
      invariant r == out + FlatMap(targets[..i], f)
    {
      PushPiece(out, targets, i, f);
      var t := targets[i];
      assert !IsStar(t) && concrete[t] == HeldOn(c, t);
      r := PushTarget(c, d, t, concrete[t], privileges, r);
    }
    assert targets[..|targets|] == targets;
  }

  /** The recursion over the named targets of a wildcard. */
  method PushTargets(c: RoleGraph, d: RoleGraph, concrete: map<GrantKey, Privileges>, privileges: Privileges,
                     out: seq<Change>)
    returns (r: seq<Change>)
    requires Tabled(c, concrete)
    ensures r == out + FlatMap(Sorted(concrete.Keys, GrantKeyLe), TargetFn(c, d, privileges))
    decreases 3
  {
    var targets := SortGrantKeys(concrete.Keys);
    r := PushEach(c, d, targets, concrete, privileges, out);
  }

  /** Push the revokes of one target; a wildcard recurses into its named targets and no further. */
  method PushRevokes(c: RoleGraph, d: RoleGraph, key: GrantKey, privileges: Privileges, out: seq<Change>)
    returns (r: seq<Change>)
    ensures r == out + Split(c, d, key, privileges)
    decreases if IsStar(key) then 4 else 0
  {
    if IsStar(key) {
      var concrete := ConcreteTargets(c, key);
      var hasInherent := ScanInherent(c, key);
      if concrete.Keys != {} || hasInherent {
        r := PushTargets(c, d, concrete, privileges, out);
        return;
      }
    }
    r := PushConcrete(c, d, key, privileges, out);
  }
}
