/**
 One round of planning and applying, seen from a membership pair.
 */
module MemberRounds {
  import opened Sequences
  import opened Orders
  import opened Model
  import opened Diff
  import opened Steps
  import opened Views
  import opened Sections
  import opened Rounds

  /** The effective edge the recorded tuples supply. */
  function Effective(p: Pair, options: map<string, MembershipOptions>): MembershipEdge {
    MembershipEdge(p.0, p.1, AnyInherit(options), AnyAdmin(options))
  }

  /** All tuples of the pair are recorded and agree with its effective edge. */
  predicate Coherent(m: Memberships, p: Pair) {
    m.Complete(p) && EdgeOf(m.edges, p) == Some(Effective(p, m.options[p]))
  }

  /** If options must change in place, the tuples behind them are known. */
  predicate Ready(c: RoleGraph, d: RoleGraph, p: Pair) {
    FlagsDiffer(c, d, p) && IsAttributed(c, p) ==> Coherent(MembershipsOf(c), p)
  }

  predicate Executor(c: RoleGraph, p: Pair, g: string) {
    (p.0, p.1, g) in c.executorEdges
  }

  // ---- The sections that concern a pair ----

  /** A step that sees nothing but the changes of the pair, and drops. */
  ghost predicate Blind<S(!new)>(step: (S, Change) -> S, p: Pair) {
    forall change, s :: !Concerns(change, p) ==> step(s, change) == s
  }

  lemma Unconcerned(change: Change, p: Pair)
    ensures KindOf(change) != MemberKind && KindOf(change) != DropKind ==> !Concerns(change, p)
    ensures forall q :: OnPair(change, q) && q != p ==> !Concerns(change, p)
  {
  }

  lemma BlindIgnores<S(!new)>(step: (S, Change) -> S, p: Pair, kind: Kind)
    requires Blind(step, p) && kind != MemberKind && kind != DropKind
    ensures Ignores(step, kind)
  {
    forall change, s | KindOf(change) == kind ensures step(s, change) == s {
      Unconcerned(change, p);
    }
  }

  lemma BlindSections<S(!new)>(step: (S, Change) -> S, c: RoleGraph, d: RoleGraph, p: Pair, v: S)
    requires Blind(step, p)
    ensures Fold(step, v, PlanFor(c, d))
         == Fold(step, Fold(step, Fold(step, v, Removes(c, d)), Adds(c, d)), Drops(c, d))
  {
    FoldSections(step, v, c, d);
    SectionKinds(c, d);
    BlindSkip(step, p, v, Creates(c, d), Creation);
    BlindSkip(step, p, v, Alters(c, d), Alteration);
    BlindSkip(step, p, v, SchemaChanges(c, d), SchemaKind);
    BlindSkip(step, p, v, OwnerGrants(c, d), OwnerKind);
    BlindSkip(step, p, v, Grants(c, d), GrantKind);
    BlindSkip(step, p, v, SetDefaults(c, d), SetDefaultKind);
    BlindSkip(step, p, v, Revokes(c, d), RevokeKind);
    BlindSkip(step, p, Fold(step, Fold(step, v, Removes(c, d)), Adds(c, d)), RevokeDefaults(c, d), RevokeDefaultKind);
  }

  lemma BlindSkip<S(!new)>(step: (S, Change) -> S, p: Pair, s: S, changes: seq<Change>, kind: Kind)
    requires Blind(step, p) && kind != MemberKind && kind != DropKind && AllOf(changes, kind)
    ensures Fold(step, s, changes) == s
  {
    BlindIgnores(step, p, kind);
    Skip(step, s, changes, kind);
  }

  lemma BlindElsewhere<S(!new)>(step: (S, Change) -> S, p: Pair, q: Pair, changes: seq<Change>)
    requires Blind(step, p) && q != p && forall change :: change in changes ==> OnPair(change, q)
    ensures Inert(step, changes)
  {
    forall change, s | change in changes ensures step(s, change) == s {
      Unconcerned(change, p);
    }
  }

  lemma PairFnsLocal<S(!new)>(step: (S, Change) -> S, c: RoleGraph, d: RoleGraph, p: Pair, q: Pair)
    requires Blind(step, p) && q != p
    ensures Inert(step, LowerPairFn(c, d)(q)) && Inert(step, StalePairFn(c, d)(q)) && Inert(step, AddPairFn(c, d)(q))
  {
    forall change | change in LowerPairFn(c, d)(q) ensures OnPair(change, q) { InLowerPair(c, d, q, change); }
    forall change | change in StalePairFn(c, d)(q) ensures OnPair(change, q) { InStalePair(c, d, q, change); }
    forall change | change in AddPairFn(c, d)(q) ensures OnPair(change, q) { InAddPair(c, d, q, change); }
    BlindElsewhere(step, p, q, LowerPairFn(c, d)(q));
    BlindElsewhere(step, p, q, StalePairFn(c, d)(q));
    BlindElsewhere(step, p, q, AddPairFn(c, d)(q));
  }

  /** The changes on pair `p` before any role is dropped. */
  ghost function PairChanges(c: RoleGraph, d: RoleGraph, p: Pair): seq<Change> {
    if p in Pairs(d.memberships) then LowerPairFn(c, d)(p) + AddPairFn(c, d)(p)
    else if p in Pairs(c.memberships) then RemoveAll(c, p)
    else []
  }

  /** An option update of the pair through one of the given grantors, not bound yet. */
  predicate Updates(change: Change, p: Pair, grantors: set<string>) {
    && change.UpdateMemberOptions? && (change.role, change.member) == p
    && change.viaGrantor in grantors && change.binding.None?
  }

  /** An attributed pair whose options differ is only ever updated. */
  lemma PairUpdates(c: RoleGraph, d: RoleGraph, p: Pair, change: Change)
    requires FlagsDiffer(c, d, p) && IsAttributed(c, p) && change in PairChanges(c, d, p)
    ensures Updates(change, p, c.edgeGrantors[p])
  {
    var cur, des := EdgeOf(c.memberships, p).value, EdgeOf(d.memberships, p).value;
    if change in LowerPairFn(c, d)(p) {
      LowerUpdates(c, cur, des, c.edgeGrantors[p], change);
    } else {
      assert change in RaiseOf(c, p, cur, des);
    }
  }

  lemma LowerUpdates(c: RoleGraph, cur: MembershipEdge, des: MembershipEdge, grantors: set<string>, change: Change)
    requires change in LowerAll(c, cur, des, grantors)
    ensures Updates(change, (cur.role, cur.member), grantors)
  {
    InFlatMap(Sorted(grantors, StringLe), LowerFn(c, cur, des), change);
  }

  lemma BlindReduces<S(!new)>(step: (S, Change) -> S, c: RoleGraph, d: RoleGraph, p: Pair, v: S)
    requires Blind(step, p)
    ensures Fold(step, Fold(step, v, Removes(c, d)), Adds(c, d)) == Fold(step, v, PairChanges(c, d, p))
  {
    forall q | q != p
      ensures Inert(step, LowerPairFn(c, d)(q)) && Inert(step, StalePairFn(c, d)(q)) && Inert(step, AddPairFn(c, d)(q))
    {
      PairFnsLocal(step, c, d, p, q);
    }
    var des, cur := Sorted(Pairs(d.memberships), PairLe), Sorted(Pairs(c.memberships), PairLe);
    FoldConcat(step, v, FlatMap(des, LowerPairFn(c, d)), FlatMap(cur, StalePairFn(c, d)));
    FoldFlatMapOne(step, v, des, LowerPairFn(c, d), p);
    var v1 := Fold(step, v, FlatMap(des, LowerPairFn(c, d)));
    FoldFlatMapOne(step, v1, cur, StalePairFn(c, d), p);
    var v2 := Fold(step, v1, FlatMap(cur, StalePairFn(c, d)));
    FoldFlatMapOne(step, v2, des, AddPairFn(c, d), p);
    FoldConcat(step, v, LowerPairFn(c, d)(p), AddPairFn(c, d)(p));
  }

  /** Of a whole plan a pair sees its own changes, then the drops. */
  lemma BlindFold<S(!new)>(step: (S, Change) -> S, c: RoleGraph, d: RoleGraph, p: Pair, v: S)
    requires Blind(step, p)
    ensures Fold(step, v, PlanFor(c, d)) == Fold(step, Fold(step, v, PairChanges(c, d, p)), Drops(c, d))
  {
    BlindSections(step, c, d, p, v);
    BlindReduces(step, c, d, p, v);
  }

  // ---- Removing every edge of an undeclared pair ----

  /** Every edge of the view is about the pair. */
  ghost predicate OnlyPair(v: Memberships, p: Pair) {
    forall e :: e in v.edges ==> e.role == p.0 && e.member == p.1
  }

  /** What remains of a pair once the removable grantors in `xs` are gone. */
  ghost function Remaining(c: RoleGraph, p: Pair, xs: seq<string>): set<string>
    requires p in c.edgeGrantors
  {
    set g | g in c.edgeGrantors[p] && (g !in xs || Executor(c, p, g))
  }

  ghost predicate RemovedTo(c: RoleGraph, p: Pair, xs: seq<string>, w: Memberships)
    requires p in c.edgeGrantors
  {
    && OnlyPair(w, p)
    && (Remaining(c, p, xs) != {} ==> p in w.grantors && w.grantors[p] == Remaining(c, p, xs))
    && (Remaining(c, p, xs) == {} ==> w.edges == {})
  }

  lemma {:induction false} RemoveFold(c: RoleGraph, p: Pair, v: Memberships, xs: seq<string>)
    requires IsAttributed(c, p) && OnlyPair(v, p) && p in v.grantors && v.grantors[p] == c.edgeGrantors[p]
    requires Distinct(xs) && forall g :: g in xs ==> g in c.edgeGrantors[p]
    ensures RemovedTo(c, p, xs, Fold(PairStep(p), v, FlatMap(xs, RemoveEdgeFn(c, p))))
  {
    if xs == [] {
      assert Remaining(c, p, xs) == c.edgeGrantors[p];
    } else {
      var init, last := xs[..|xs| - 1], xs[|xs| - 1];
      assert xs == init + [last] && last in xs && last !in init;
      RemoveFold(c, p, v, init);
      var done := FlatMap(init, RemoveEdgeFn(c, p));
      var w := Fold(PairStep(p), v, done);
      if Executor(c, p, last) {
        assert done + [] == done;
        assert Remaining(c, p, xs) == Remaining(c, p, init);
      } else {
        FoldPush(PairStep(p), v, done, RemoveMember(p.0, p.1, Some(last)));
        assert last in Remaining(c, p, init);
        assert Remaining(c, p, xs) == Remaining(c, p, init) - {last};
        RemoveOne(p, w, last);
      }
    }
  }

  lemma RemoveOne(p: Pair, w: Memberships, g: string)
    requires OnlyPair(w, p) && p in w.grantors
    ensures var r := PairStep(p)(w, RemoveMember(p.0, p.1, Some(g)));
      && OnlyPair(r, p)
      && (w.grantors[p] - {g} != {} ==> p in r.grantors && r.grantors[p] == w.grantors[p] - {g})
      && (w.grantors[p] - {g} == {} ==> r.edges == {})
  {
  }

  // ---- Lowering options tuple by tuple ----

  /** One grantor's tuple once the reductions on it are applied. */
  function LoweredTuple(c: RoleGraph, cur: MembershipEdge, des: MembershipEdge, g: string,
                        o: MembershipOptions): MembershipOptions {
    Overwrite(o, LowerInherit(c, cur, des, g), LowerAdmin(c, cur, des, g))
  }

  ghost predicate LoweredTo(c: RoleGraph, p: Pair, cur: MembershipEdge, des: MembershipEdge,
                            v: Memberships, xs: seq<string>, w: Memberships)
    requires v.Complete(p)
  {
    && Coherent(w, p) && w.grantors[p] == v.grantors[p] && OnlyPair(w, p)
    && forall g :: g in v.options[p] ==>
         w.options[p][g] == if g in xs then LoweredTuple(c, cur, des, g, v.options[p][g]) else v.options[p][g]
  }

  lemma EdgeOfWithEdge(edges: set<MembershipEdge>, p: Pair, options: map<string, MembershipOptions>)
    ensures EdgeOf(WithEdge(edges, p, options), p) == Some(Effective(p, options))
  {
  }

  lemma OverwriteOne(p: Pair, w: Memberships, g: string, inherit: Option<bool>, admin: Option<bool>)
    requires Coherent(w, p) && g in w.options[p] && OnlyPair(w, p)
    ensures var r := PairStep(p)(w, UpdateMemberOptions(p.0, p.1, g, inherit, admin, None));
      && Coherent(r, p) && r.grantors[p] == w.grantors[p] && OnlyPair(r, p)
      && r.options[p] == w.options[p][g := Overwrite(w.options[p][g], inherit, admin)]
  {
    var options := w.options[p][g := Overwrite(w.options[p][g], inherit, admin)];
    EdgeOfWithEdge(w.edges, p, options);
    assert options.Keys == w.options[p].Keys;
  }

  lemma {:induction false} LowerFold(c: RoleGraph, p: Pair, cur: MembershipEdge, des: MembershipEdge,
                                     v: Memberships, xs: seq<string>)
    requires Coherent(v, p) && OnlyPair(v, p) && cur.role == p.0 && cur.member == p.1
    requires Distinct(xs) && forall g :: g in xs ==> g in v.grantors[p]
    ensures LoweredTo(c, p, cur, des, v, xs, Fold(PairStep(p), v, FlatMap(xs, LowerFn(c, cur, des))))
  {
    if xs != [] {
      var init, last := xs[..|xs| - 1], xs[|xs| - 1];
      assert xs == init + [last] && last in xs && last !in init && Distinct(init);
      LowerFold(c, p, cur, des, v, init);
      var done := FlatMap(init, LowerFn(c, cur, des));
      FoldConcat(PairStep(p), v, done, LowerFn(c, cur, des)(last));
      LowerNext(c, p, cur, des, v, init, last, Fold(PairStep(p), v, done));
    }
  }

  /** One more grantor. */
  lemma LowerNext(c: RoleGraph, p: Pair, cur: MembershipEdge, des: MembershipEdge, v: Memberships, xs: seq<string>,
                  g: string, w: Memberships)
    requires v.Complete(p) && LoweredTo(c, p, cur, des, v, xs, w) && g in v.grantors[p] && g !in xs
    requires cur.role == p.0 && cur.member == p.1
    ensures LoweredTo(c, p, cur, des, v, xs + [g], Fold(PairStep(p), w, LowerFn(c, cur, des)(g)))
  {
    var inherit, admin := LowerInherit(c, cur, des, g), LowerAdmin(c, cur, des, g);
    if inherit.Some? || admin.Some? {
      FoldSingle(PairStep(p), w, UpdateMemberOptions(p.0, p.1, g, inherit, admin, None));
      OverwriteOne(p, w, g, inherit, admin);
    }
  }

  // ---- Where a pair ends up ----

  /** A reduction the planner leaves standing: ADMIN survives on the executor's own edges only. */
  ghost predicate ExecutorHolds(c: RoleGraph, p: Pair, des: MembershipEdge, w: Memberships) {
    && Coherent(w, p)
    && AnyInherit(w.options[p]) == des.inherit && AnyAdmin(w.options[p]) && !des.admin
    && forall g :: g in w.options[p] && w.options[p][g].admin ==> Executor(c, p, g)
  }

  ghost predicate Outcome(c: RoleGraph, d: RoleGraph, p: Pair, w: Memberships) {
    var des := EdgeOf(d.memberships, p);
    && OnlyPair(w, p)
    && (des.Some? ==> EdgeOf(w.edges, p) == des || ExecutorHolds(c, p, des.value, w))
    && (des.None? ==>
          || w.edges == {}
          || (p in w.grantors && w.grantors[p] != {} && forall g :: g in w.grantors[p] ==> Executor(c, p, g)))
  }

  lemma ViewEdge(g: RoleGraph, p: Pair)
    ensures EdgeOf(PairView(MembershipsOf(g), p).edges, p) == EdgeOf(g.memberships, p)
    ensures OnlyPair(PairView(MembershipsOf(g), p), p)
    ensures Coherent(MembershipsOf(g), p) <==> Coherent(PairView(MembershipsOf(g), p), p)
    ensures IsAttributed(g, p) <==> p in PairView(MembershipsOf(g), p).grantors && g.edgeGrantors[p] != {}
  {
  }

  lemma LoweredFlags(c: RoleGraph, cur: MembershipEdge, des: MembershipEdge, g: string, o: MembershipOptions)
    requires LiveOptions(c, (cur.role, cur.member), g) == Some(o)
    ensures var t := LoweredTuple(c, cur, des, g, o);
      && t.inherit == (o.inherit && !(cur.inherit && !des.inherit))
      && t.admin == (o.admin && !(cur.admin && !des.admin && !Executor(c, (cur.role, cur.member), g)))
      && t.canSet == o.canSet
  {
  }

  /** After the reductions: each flag is gone unless it is wanted or the executor's own. */
  lemma LoweredEffect(c: RoleGraph, p: Pair, cur: MembershipEdge, des: MembershipEdge, v: Memberships, w: Memberships)
    requires p in c.edgeOptions && v.Complete(p) && v.options[p] == c.edgeOptions[p]
    requires cur == Effective(p, v.options[p]) && p == (cur.role, cur.member)
    requires w.Complete(p) && w.options[p].Keys == v.options[p].Keys
    requires forall g :: g in v.options[p] ==> w.options[p][g] == LoweredTuple(c, cur, des, g, v.options[p][g])
    ensures AnyInherit(w.options[p]) == (cur.inherit && des.inherit)
    ensures !(cur.admin && !des.admin) ==> AnyAdmin(w.options[p]) == cur.admin
    ensures cur.admin && !des.admin ==> forall g :: g in w.options[p] && w.options[p][g].admin ==> Executor(c, p, g)
  {
    var before, after := v.options[p], w.options[p];
    forall g | g in before
      ensures after[g].inherit == (before[g].inherit && !(cur.inherit && !des.inherit))
      ensures after[g].admin == (before[g].admin && !(cur.admin && !des.admin && !Executor(c, p, g)))
    {
      LoweredFlags(c, cur, des, g, before[g]);
    }
    assert cur.inherit == AnyInherit(before) && cur.admin == AnyAdmin(before);
    if cur.inherit && des.inherit {
      var g :| g in before && before[g].inherit;
      assert after[g].inherit;
    }
    if cur.admin && des.admin {
      var g :| g in before && before[g].admin;
      assert after[g].admin;
    }
  }

  /** The raise supplies each missing flag on one tuple. */
  lemma RaisedEffect(cur: MembershipEdge, des: MembershipEdge, options: map<string, MembershipOptions>, g: string)
    requires g in options
    ensures var raised := Overwrite(options[g], Raised(cur.inherit, des.inherit), Raised(cur.admin, des.admin));
      var r := options[g := raised];
      && AnyInherit(r) == (AnyInherit(options) || (!cur.inherit && des.inherit))
      && AnyAdmin(r) == (AnyAdmin(options) || (!cur.admin && des.admin))
      && (!(!cur.admin && des.admin) ==> forall h :: h in r ==> r[h].admin == options[h].admin)
  {
    var r := options[g := Overwrite(options[g], Raised(cur.inherit, des.inherit), Raised(cur.admin, des.admin))];
    assert g in r;
    forall h | h in options && options[h].inherit ensures h in r && r[h].inherit {}
    forall h | h in options && options[h].admin ensures h in r && r[h].admin {}
    forall h | h in r && h != g ensures r[h] == options[h] {}
  }

  lemma AttributedOutcome(c: RoleGraph, d: RoleGraph, p: Pair)
    requires FlagsDiffer(c, d, p) && IsAttributed(c, p) && Coherent(MembershipsOf(c), p)
    ensures Outcome(c, d, p, Fold(PairStep(p), PairView(MembershipsOf(c), p), PairChanges(c, d, p)))
  {
    var step, v := PairStep(p), PairView(MembershipsOf(c), p);
    ViewEdge(c, p);
    var cur, des := EdgeOf(c.memberships, p).value, EdgeOf(d.memberships, p).value;
    FoldConcat(step, v, LowerPairFn(c, d)(p), AddPairFn(c, d)(p));
    var grantors := Sorted(c.edgeGrantors[p], StringLe);
    LowerFold(c, p, cur, des, v, grantors);
    var w := Fold(step, v, LowerAll(c, cur, des, c.edgeGrantors[p]));
    assert LowerPairFn(c, d)(p) == LowerAll(c, cur, des, c.edgeGrantors[p]);
    assert AddPairFn(c, d)(p) == RaiseOf(c, p, cur, des);
    LoweredEffect(c, p, cur, des, v, w);
    RaiseOutcome(c, d, p, cur, des, w);
  }

  lemma RaiseOutcome(c: RoleGraph, d: RoleGraph, p: Pair, cur: MembershipEdge, des: MembershipEdge, w: Memberships)
    requires EdgeOf(d.memberships, p) == Some(des) && IsAttributed(c, p)
    requires Coherent(w, p) && OnlyPair(w, p) && w.grantors[p] == c.edgeGrantors[p]
    requires AnyInherit(w.options[p]) == (cur.inherit && des.inherit)
    requires !(cur.admin && !des.admin) ==> AnyAdmin(w.options[p]) == cur.admin
    requires cur.admin && !des.admin ==> forall g :: g in w.options[p] && w.options[p][g].admin ==> Executor(c, p, g)
    ensures Outcome(c, d, p, Fold(PairStep(p), w, RaiseOf(c, p, cur, des)))
  {
    var g := Least(c.edgeGrantors[p], StringLe);
    var inherit, admin := Raised(cur.inherit, des.inherit), Raised(cur.admin, des.admin);
    if inherit.Some? || admin.Some? {
      FoldSingle(PairStep(p), w, UpdateMemberOptions(p.0, p.1, g, inherit, admin, None));
      OverwriteOne(p, w, g, inherit, admin);
      RaisedEffect(cur, des, w.options[p], g);
    }
  }

  lemma LegacyOutcome(c: RoleGraph, d: RoleGraph, p: Pair)
    requires FlagsDiffer(c, d, p) && !IsAttributed(c, p)
    ensures Outcome(c, d, p, Fold(PairStep(p), PairView(MembershipsOf(c), p), PairChanges(c, d, p)))
  {
    var step, v := PairStep(p), PairView(MembershipsOf(c), p);
    ViewEdge(c, p);
    var des := EdgeOf(d.memberships, p).value;
    FoldConcat(step, v, [RemoveMember(p.0, p.1, None)], [AddOf(des)]);
    FoldSingle(step, v, RemoveMember(p.0, p.1, None));
    FoldSingle(step, Fold(step, v, [RemoveMember(p.0, p.1, None)]), AddOf(des));
    assert Removed(v, p, None).edges == {};
  }

  lemma StaleOutcome(c: RoleGraph, d: RoleGraph, p: Pair)
    requires p !in Pairs(d.memberships)
    ensures Outcome(c, d, p, Fold(PairStep(p), PairView(MembershipsOf(c), p), PairChanges(c, d, p)))
  {
    var step, v := PairStep(p), PairView(MembershipsOf(c), p);
    ViewEdge(c, p);
    if p in Pairs(c.memberships) {
      if IsAttributed(c, p) {
        var grantors := Sorted(c.edgeGrantors[p], StringLe);
        RemoveFold(c, p, v, grantors);
      } else {
        FoldSingle(step, v, RemoveMember(p.0, p.1, None));
        assert Removed(v, p, None).edges == {};
      }
    } else {
      assert v.edges == {};
    }
  }

  lemma AddedOutcome(c: RoleGraph, d: RoleGraph, p: Pair)
    requires p in Pairs(d.memberships) && !FlagsDiffer(c, d, p)
    ensures Outcome(c, d, p, Fold(PairStep(p), PairView(MembershipsOf(c), p), PairChanges(c, d, p)))
  {
    var step, v := PairStep(p), PairView(MembershipsOf(c), p);
    ViewEdge(c, p);
    var des := EdgeOf(d.memberships, p).value;
    if EdgeOf(c.memberships, p).None? {
      assert PairChanges(c, d, p) == [AddOf(des)];
      FoldSingle(step, v, AddOf(des));
    } else {
      assert PairChanges(c, d, p) == [];
    }
  }

  lemma PairOutcome(c: RoleGraph, d: RoleGraph, p: Pair)
    requires Ready(c, d, p)
    ensures Outcome(c, d, p, Fold(PairStep(p), PairView(MembershipsOf(c), p), PairChanges(c, d, p)))
  {
    if p !in Pairs(d.memberships) {
      StaleOutcome(c, d, p);
    } else if !FlagsDiffer(c, d, p) {
      AddedOutcome(c, d, p);
    } else if IsAttributed(c, p) {
      AttributedOutcome(c, d, p);
    } else {
      LegacyOutcome(c, d, p);
    }
  }

  // ---- Drops, and the settled pair ----

  /** The plan drops a role the pair names. */
  predicate NamesDropped(c: RoleGraph, d: RoleGraph, p: Pair) {
    (p.0 in c.roles && p.0 !in d.roles) || (p.1 in c.roles && p.1 !in d.roles)
  }

  ghost predicate DroppedTo(v: Memberships, w: Memberships, gone: bool) {
    && w.grantors == v.grantors && w.options == v.options
    && w.edges == if gone then {} else v.edges
  }

  lemma {:induction false} DropFold(p: Pair, v: Memberships, changes: seq<Change>)
    requires OnlyPair(v, p) && AllOf(changes, DropKind)
    ensures DroppedTo(v, Fold(PairStep(p), v, changes),
              DropRole(p.0) in changes || DropRole(p.1) in changes)
  {
    if changes != [] {
      var init, last := changes[..|changes| - 1], changes[|changes| - 1];
      assert changes == init + [last] && last in changes && KindOf(last) == DropKind;
      assert forall change :: change in init ==> change in changes;
      DropFold(p, v, init);
      DropOne(p, v, Fold(PairStep(p), v, init), DropRole(p.0) in init || DropRole(p.1) in init, last.name);
    }
  }

  lemma DropOne(p: Pair, v: Memberships, w: Memberships, gone: bool, n: string)
    requires OnlyPair(v, p) && DroppedTo(v, w, gone)
    ensures DroppedTo(v, PairStep(p)(w, DropRole(n)), gone || n == p.0 || n == p.1)
  {
    var r := PairStep(p)(w, DropRole(n));
    if n != p.0 && n != p.1 {
      assert r.edges == w.edges;
    } else {
      assert r.edges == {};
    }
  }

  lemma DropNamed(c: RoleGraph, d: RoleGraph, n: string)
    ensures DropRole(n) in Drops(c, d) <==> n in c.roles && n !in d.roles
  {
    InFlatMap(Sorted(c.roles.Keys, StringLe), DropFn(d), DropRole(n));
    assert n in c.roles ==> n in Sorted(c.roles.Keys, StringLe);
  }

  /** A round runs the changes of the pair, and takes its edge with a dropped role. */
  lemma PairRoundView(c: RoleGraph, d: RoleGraph, p: Pair)
    requires OnlyPair(Fold(PairStep(p), PairView(MembershipsOf(c), p), PairChanges(c, d, p)), p)
    ensures DroppedTo(Fold(PairStep(p), PairView(MembershipsOf(c), p), PairChanges(c, d, p)),
              PairView(MembershipsOf(Round(c, d)), p), NamesDropped(c, d, p))
  {
    var step, v := PairStep(p), PairView(MembershipsOf(c), p);
    PairRun(c, PlanFor(c, d), p);
    BlindFold(step, c, d, p, v);
    DropsKind(c, d);
    DropFold(p, Fold(step, v, PairChanges(c, d, p)), Drops(c, d));
    DropNamed(c, d, p.0);
    DropNamed(c, d, p.1);
  }

  /** The next plan has nothing to do for the pair. */
  ghost predicate Settled(c: RoleGraph, d: RoleGraph, p: Pair) {
    && LowerPairFn(c, d)(p) == []
    && AddPairFn(c, d)(p) == []
    && (p in Pairs(c.memberships) ==> StalePairFn(c, d)(p) == [])
  }

  lemma HeldSettles(r: RoleGraph, d: RoleGraph, p: Pair)
    requires p in Pairs(d.memberships)
    requires ExecutorHolds(r, p, EdgeOf(d.memberships, p).value, PairView(MembershipsOf(r), p))
    ensures Settled(r, d, p) && Coherent(MembershipsOf(r), p)
  {
    ViewEdge(r, p);
    var cur, des := EdgeOf(r.memberships, p).value, EdgeOf(d.memberships, p).value;
    HeldOptions(r, p, des);
    NothingLowered(r, p, cur, des, Sorted(r.edgeGrantors[p], StringLe));
    QuietUpdates(r, d, p);
  }

  /** ADMIN the executor holds is all that keeps the edge above its declaration. */
  lemma HeldOptions(r: RoleGraph, p: Pair, des: MembershipEdge)
    requires ExecutorHolds(r, p, des, PairView(MembershipsOf(r), p))
    ensures Coherent(MembershipsOf(r), p) && IsAttributed(r, p)
    ensures var cur := EdgeOf(r.memberships, p);
      cur.Some? && cur.value.inherit == des.inherit && cur.value.admin && (cur.value.role, cur.value.member) == p
    ensures forall g :: g in r.edgeGrantors[p] ==>
      g in r.edgeOptions[p] && (r.edgeOptions[p][g].admin ==> Executor(r, p, g))
  {
    ViewEdge(r, p);
    assert PairView(MembershipsOf(r), p).options[p] == r.edgeOptions[p];
  }

  lemma NothingLowered(r: RoleGraph, p: Pair, cur: MembershipEdge, des: MembershipEdge, grantors: seq<string>)
    requires p in r.edgeOptions && (cur.role, cur.member) == p && cur.inherit == des.inherit
    requires forall g :: g in grantors ==> g in r.edgeOptions[p] && (r.edgeOptions[p][g].admin ==> Executor(r, p, g))
    ensures FlatMap(grantors, LowerFn(r, cur, des)) == []
  {
    forall g | g in grantors ensures LowerFn(r, cur, des)(g) == [] {
      assert g in r.edgeOptions[p];
    }
    FlatMapNone(grantors, LowerFn(r, cur, des));
  }

  /** An attributed pair with nothing to lower and nothing to raise is settled. */
  lemma QuietUpdates(r: RoleGraph, d: RoleGraph, p: Pair)
    requires EdgeOf(r.memberships, p).Some? && EdgeOf(d.memberships, p).Some? && IsAttributed(r, p)
    requires var cur, des := EdgeOf(r.memberships, p).value, EdgeOf(d.memberships, p).value;
      && LowerAll(r, cur, des, r.edgeGrantors[p]) == []
      && Raised(cur.inherit, des.inherit).None? && Raised(cur.admin, des.admin).None?
    ensures Settled(r, d, p)
  {
  }

  lemma StaleSettles(r: RoleGraph, d: RoleGraph, p: Pair)
    requires p !in Pairs(d.memberships) && p in Pairs(r.memberships)
    requires IsAttributed(r, p) && forall g :: g in r.edgeGrantors[p] ==> Executor(r, p, g)
    ensures StalePairFn(r, d)(p) == []
  {
    FlatMapNone(Sorted(r.edgeGrantors[p], StringLe), RemoveEdgeFn(r, p));
  }

  lemma OutcomeSettles(r: RoleGraph, d: RoleGraph, p: Pair)
    requires Outcome(r, d, p, PairView(MembershipsOf(r), p))
    ensures Settled(r, d, p) && Ready(r, d, p)
  {
    ViewEdge(r, p);
    if p in Pairs(d.memberships) {
      if EdgeOf(r.memberships, p) != EdgeOf(d.memberships, p) {
        HeldSettles(r, d, p);
      }
    } else if p in Pairs(r.memberships) {
      assert PairView(MembershipsOf(r), p).edges != {};
      StaleSettles(r, d, p);
    }
  }

  lemma OutcomeTransfers(c: RoleGraph, r: RoleGraph, d: RoleGraph, p: Pair, w: Memberships)
    requires r.executorEdges == c.executorEdges && Outcome(c, d, p, w)
    ensures Outcome(r, d, p, w)
  {
  }

  /** A round brings a ready pair to its outcome, or loses its edge with a dropped role. */
  lemma ReadyAfterRound(c: RoleGraph, d: RoleGraph, p: Pair)
    requires Ready(c, d, p)
    ensures var w := PairView(MembershipsOf(Round(c, d)), p);
      if NamesDropped(c, d, p) then w.edges == {} else Outcome(c, d, p, w)
  {
    PairOutcome(c, d, p);
    PairRoundView(c, d, p);
  }

  /** It stays ready, and is settled unless a role was dropped. */
  lemma ReadySettles(c: RoleGraph, d: RoleGraph, p: Pair)
    requires Ready(c, d, p)
    ensures Ready(Round(c, d), d, p)
    ensures !NamesDropped(c, d, p) ==> Settled(Round(c, d), d, p)
  {
    ReadyAfterRound(c, d, p);
    RunKeeps(c, PlanFor(c, d));
    PairSettles(c, d, Round(c, d), p);
  }

  lemma PairSettles(c: RoleGraph, d: RoleGraph, r: RoleGraph, p: Pair)
    requires r.executorEdges == c.executorEdges
    requires var w := PairView(MembershipsOf(r), p);
      if NamesDropped(c, d, p) then w.edges == {} else Outcome(c, d, p, w)
    ensures Ready(r, d, p)
    ensures !NamesDropped(c, d, p) ==> Settled(r, d, p)
  {
    ViewEdge(r, p);
    if !NamesDropped(c, d, p) {
      OutcomeTransfers(c, r, d, p, PairView(MembershipsOf(r), p));
      OutcomeSettles(r, d, p);
    } else {
      assert EdgeOf(r.memberships, p).None?;
    }
  }
}
