/**
 Membership option intents resolved to an attributed grantor, and what applying
 the resolved plan does to the tuples of a pair.
 */
module OptionPlans {
  import opened Sequences
  import opened Orders
  import opened Model
  import opened Diff
  import opened Steps
  import opened Views
  import opened Sections
  import opened MemberRounds

  /** Grantors whose ADMIN authority the executor can use, per granted role. */
  datatype Authority = Authority(executor: string, usable: map<string, set<string>>)

  // ---- Resolution ----

  /** The first edge of a pair in set order. */
  function FirstEdge(edges: set<MembershipEdge>, p: Pair): Option<MembershipEdge> {
    if MembershipEdge(p.0, p.1, false, false) in edges then Some(MembershipEdge(p.0, p.1, false, false))
    else if MembershipEdge(p.0, p.1, false, true) in edges then Some(MembershipEdge(p.0, p.1, false, true))
    else if MembershipEdge(p.0, p.1, true, false) in edges then Some(MembershipEdge(p.0, p.1, true, false))
    else if MembershipEdge(p.0, p.1, true, true) in edges then Some(MembershipEdge(p.0, p.1, true, true))
    else None
  }

  /** Complete tuples that also agree with the effective membership. */
  predicate Proven(c: RoleGraph, p: Pair) {
    c.CompleteOptions(p).Some? && FirstEdge(c.memberships, p) == Some(Effective(p, c.edgeOptions[p]))
  }

  ghost function UsableExisting(usable: set<string>, options: map<string, MembershipOptions>): set<string> {
    set g | g in usable && g in options
  }

  /**
   Prefer the executor's own edge, then another usable existing edge, then a
   new edge of the executor or of the first usable grantor. With no usable
   grantor the increase is attributed to the executor.
   */
  ghost function ChooseGrantor(a: Authority, role: string, options: map<string, MembershipOptions>): string {
    if role !in a.usable then a.executor
    else
      var usable := a.usable[role];
      if a.executor in usable && a.executor in options then a.executor
      else if UsableExisting(usable, options) != {} then Least(UsableExisting(usable, options), StringLe)
      else if a.executor in usable then a.executor
      else if usable != {} then Least(usable, StringLe)
      else a.executor
  }

  predicate Raises(change: Change) {
    change.UpdateMemberOptions? && (change.setInherit == Some(true) || change.setAdmin == Some(true))
  }

  function BindingFor(a: Authority, options: map<string, MembershipOptions>, g: string): OptionBinding {
    if g in options then OptionBinding(a.executor, Preserve, Present(options[g]), options)
    else OptionBinding(a.executor, CreateFalse, Absent, options)
  }

  /** The executable form of a change; nothing when the facts behind an intent are incomplete. */
  ghost function ResolveOne(c: RoleGraph, a: Authority, change: Change): Option<Change> {
    if !change.UpdateMemberOptions? then Some(change)
    else
      var p := (change.role, change.member);
      if !Proven(c, p) then None
      else
        var options := c.edgeOptions[p];
        if Raises(change) then
          var g := ChooseGrantor(a, change.role, options);
          Some(change.(viaGrantor := g, binding := Some(BindingFor(a, options, g))))
        else if change.viaGrantor in options then
          Some(change.(binding := Some(BindingFor(a, options, change.viaGrantor))))
        else None
  }

  /** All changes resolved, or nothing. */
  ghost function ResolveAll(c: RoleGraph, a: Authority, changes: seq<Change>): Option<seq<Change>> {
    if changes == [] then Some([])
    else
      var init, last := ResolveAll(c, a, changes[..|changes| - 1]), ResolveOne(c, a, changes[|changes| - 1]);
      if init.Some? && last.Some? then Some(init.value + [last.value]) else None
  }

  lemma {:induction false} ResolvedAt(c: RoleGraph, a: Authority, plan: seq<Change>, i: nat)
    requires ResolveAll(c, a, plan).Some? && i < |plan|
    ensures var r := ResolveAll(c, a, plan).value;
      |r| == |plan| && ResolveOne(c, a, plan[i]) == Some(r[i])
  {
    var n := |plan| - 1;
    if n > 0 {
      ResolvedAt(c, a, plan[..n], if i < n then i else 0);
    }
  }

  lemma {:induction false} SameLength(c: RoleGraph, a: Authority, plan: seq<Change>)
    requires ResolveAll(c, a, plan).Some?
    ensures |ResolveAll(c, a, plan).value| == |plan|
  {
    if plan != [] {
      SameLength(c, a, plan[..|plan| - 1]);
    }
  }

  // ---- Running a resolved plan ----

  ghost function Executable(c: RoleGraph, a: Authority, change: Change): Change {
    var r := ResolveOne(c, a, change);
    if r.Some? then r.value else change
  }

  /** A pair stepping through the resolved form of each change. */
  ghost function ResolvedStep(c: RoleGraph, a: Authority, p: Pair): (Memberships, Change) -> Memberships {
    (v: Memberships, change: Change) => PairAfter(p, v, Executable(c, a, change))
  }

  lemma {:induction false} ResolvedFold(c: RoleGraph, a: Authority, p: Pair, v: Memberships, changes: seq<Change>)
    requires ResolveAll(c, a, changes).Some?
    ensures Fold(PairStep(p), v, ResolveAll(c, a, changes).value) == Fold(ResolvedStep(c, a, p), v, changes)
  {
    if changes != [] {
      var init, last := changes[..|changes| - 1], changes[|changes| - 1];
      ResolvedFold(c, a, p, v, init);
      var done, r := ResolveAll(c, a, init).value, ResolveOne(c, a, last).value;
      assert ResolveAll(c, a, changes).value == done + [r] && Executable(c, a, last) == r;
      assert changes == init + [last];
      FoldPush(PairStep(p), v, done, r);
      FoldPush(ResolvedStep(c, a, p), v, init, last);
      SameStep(c, a, p, Fold(PairStep(p), v, done), last, r);
    }
  }

  lemma SameStep(c: RoleGraph, a: Authority, p: Pair, w: Memberships, change: Change, r: Change)
    requires Executable(c, a, change) == r
    ensures ResolvedStep(c, a, p)(w, change) == PairStep(p)(w, r)
  {
  }

  lemma {:induction false} ResolvedEach(c: RoleGraph, a: Authority, changes: seq<Change>, change: Change)
    requires ResolveAll(c, a, changes).Some? && change in changes
    ensures ResolveOne(c, a, change).Some?
  {
    var init, last := changes[..|changes| - 1], changes[|changes| - 1];
    assert changes == init + [last];
    if change != last {
      ResolvedEach(c, a, init, change);
    }
  }

  lemma ExecutableKind(c: RoleGraph, a: Authority, change: Change)
    ensures KindOf(Executable(c, a, change)) == KindOf(change)
    ensures !change.UpdateMemberOptions? ==> Executable(c, a, change) == change
    ensures forall q :: OnPair(change, q) <==> OnPair(Executable(c, a, change), q)
    ensures forall q :: Concerns(change, q) <==> Concerns(Executable(c, a, change), q)
  {
  }

  lemma ResolvedStepBlind(c: RoleGraph, a: Authority, p: Pair)
    ensures Blind(ResolvedStep(c, a, p), p)
  {
    forall change, s | !Concerns(change, p) ensures ResolvedStep(c, a, p)(s, change) == s {
      ExecutableKind(c, a, change);
    }
  }

  // ---- Reductions run as planned ----

  lemma SameUpdate(p: Pair, w: Memberships, via: string, inherit: Option<bool>, admin: Option<bool>,
                   binding: Option<OptionBinding>)
    requires w.Complete(p) && via in w.options[p]
    ensures PairStep(p)(w, UpdateMemberOptions(p.0, p.1, via, inherit, admin, binding))
         == PairStep(p)(w, UpdateMemberOptions(p.0, p.1, via, inherit, admin, None))
  {
  }

  lemma LowerExecutable(c: RoleGraph, a: Authority, p: Pair, via: string, inherit: Option<bool>, admin: Option<bool>)
    requires Proven(c, p) && via in c.edgeOptions[p] && inherit != Some(true) && admin != Some(true)
    ensures Executable(c, a, UpdateMemberOptions(p.0, p.1, via, inherit, admin, None))
         == UpdateMemberOptions(p.0, p.1, via, inherit, admin, Some(BindingFor(a, c.edgeOptions[p], via)))
  {
  }

  lemma {:induction false} ResolvedLowers(c: RoleGraph, a: Authority, p: Pair, cur: MembershipEdge, des: MembershipEdge,
                                          v: Memberships, xs: seq<string>)
    requires Proven(c, p) && v.Complete(p) && v.options[p] == c.edgeOptions[p]
    requires Coherent(v, p) && OnlyPair(v, p) && cur.role == p.0 && cur.member == p.1
    requires Distinct(xs) && forall g :: g in xs ==> g in v.grantors[p]
    ensures Fold(ResolvedStep(c, a, p), v, FlatMap(xs, LowerFn(c, cur, des)))
         == Fold(PairStep(p), v, FlatMap(xs, LowerFn(c, cur, des)))
  {
    if xs != [] {
      var init, last := xs[..|xs| - 1], xs[|xs| - 1];
      assert xs == init + [last] && last in xs && forall g :: g in init ==> g in xs;
      ResolvedLowers(c, a, p, cur, des, v, init);
      LowerFold(c, p, cur, des, v, init);
      var done, more := FlatMap(init, LowerFn(c, cur, des)), LowerFn(c, cur, des)(last);
      FoldConcat(PairStep(p), v, done, more);
      FoldConcat(ResolvedStep(c, a, p), v, done, more);
      ResolvedLower(c, a, p, cur, des, last, Fold(PairStep(p), v, done));
    }
  }

  /** One grantor's reduction runs as planned. */
  lemma ResolvedLower(c: RoleGraph, a: Authority, p: Pair, cur: MembershipEdge, des: MembershipEdge, g: string,
                      w: Memberships)
    requires Proven(c, p) && g in c.edgeOptions[p] && (cur.role, cur.member) == p
    requires w.Complete(p) && g in w.options[p]
    ensures Fold(ResolvedStep(c, a, p), w, LowerFn(c, cur, des)(g)) == Fold(PairStep(p), w, LowerFn(c, cur, des)(g))
  {
    var inherit, admin := LowerInherit(c, cur, des, g), LowerAdmin(c, cur, des, g);
    if inherit.Some? || admin.Some? {
      var change := UpdateMemberOptions(p.0, p.1, g, inherit, admin, None);
      FoldSingle(PairStep(p), w, change);
      FoldSingle(ResolvedStep(c, a, p), w, change);
      LowerExecutable(c, a, p, g, inherit, admin);
      SameUpdate(p, w, g, inherit, admin, Some(BindingFor(a, c.edgeOptions[p], g)));
    }
  }

  // ---- The increase, on an existing or a new tuple ----

  /** The tuples once an increase is bound to grantor `g`. */
  function BoundOptions(options: map<string, MembershipOptions>, g: string): map<string, MembershipOptions> {
    if g in options then options else options[g := NO_OPTIONS]
  }

  function RaisedOptions(cur: MembershipEdge, des: MembershipEdge, options: map<string, MembershipOptions>,
                         g: string): map<string, MembershipOptions> {
    var bound := BoundOptions(options, g);
    bound[g := Overwrite(bound[g], Raised(cur.inherit, des.inherit), Raised(cur.admin, des.admin))]
  }

  lemma RaiseExecuted(p: Pair, w: Memberships, g: string, inherit: Option<bool>, admin: Option<bool>,
                      binding: OptionBinding)
    requires Coherent(w, p) && OnlyPair(w, p)
    requires g !in w.options[p] ==> binding.expected.Absent?
    ensures var r := PairStep(p)(w, UpdateMemberOptions(p.0, p.1, g, inherit, admin, Some(binding)));
      && Coherent(r, p) && OnlyPair(r, p)
      && r.options[p] == BoundOptions(w.options[p], g)[g := Overwrite(BoundOptions(w.options[p], g)[g], inherit, admin)]
  {
    TupleBound(p, w, g, binding);
    BoundOverwritten(p, BindTuple(w, p, g, Some(binding)), g, inherit, admin);
  }

  lemma TupleBound(p: Pair, w: Memberships, g: string, binding: OptionBinding)
    requires w.Complete(p) && (g !in w.options[p] ==> binding.expected.Absent?)
    ensures var bound := BindTuple(w, p, g, Some(binding));
      bound.Complete(p) && bound.edges == w.edges && bound.options[p] == BoundOptions(w.options[p], g)
  {
  }

  lemma BoundOverwritten(p: Pair, m: Memberships, g: string, inherit: Option<bool>, admin: Option<bool>)
    requires m.Complete(p) && g in m.options[p] && OnlyPair(m, p)
    ensures var r := Overwritten(m, p, g, inherit, admin);
      && Coherent(r, p) && OnlyPair(r, p)
      && r.options[p] == m.options[p][g := Overwrite(m.options[p][g], inherit, admin)]
  {
    var options := m.options[p][g := Overwrite(m.options[p][g], inherit, admin)];
    EdgeOfWithEdge(m.edges, p, options);
    assert options.Keys == m.options[p].Keys;
  }

  lemma RaisedSupplies(cur: MembershipEdge, des: MembershipEdge, options: map<string, MembershipOptions>, g: string)
    ensures var r := RaisedOptions(cur, des, options, g);
      && AnyInherit(r) == (AnyInherit(options) || (!cur.inherit && des.inherit))
      && AnyAdmin(r) == (AnyAdmin(options) || (!cur.admin && des.admin))
      && (forall h :: h in options ==> h in r && r[h].canSet == options[h].canSet && (h != g ==> r[h] == options[h]))
      && (g !in options ==> !r[g].canSet)
      && (forall h :: h in r ==> h in options || h == g)
  {
    var bound := BoundOptions(options, g);
    RaisedEffect(cur, des, bound, g);
    forall h | h in options ensures h in bound && bound[h] == options[h] {}
    forall h | h in bound && (bound[h].inherit || bound[h].admin) ensures h in options {}
  }

  // ---- The whole resolved plan, for one pair ----

  /** Every edge of the pair is the same edge. */
  ghost predicate Functional(edges: set<MembershipEdge>, p: Pair) {
    forall e, f :: e in edges && f in edges && e.role == f.role == p.0 && e.member == f.member == p.1 ==> e == f
  }

  lemma FirstIsOnly(edges: set<MembershipEdge>, p: Pair)
    requires Functional(edges, p)
    ensures FirstEdge(edges, p) == EdgeOf(edges, p)
  {
  }

  /** The declared edge asks for more than the current one has. */
  predicate Rises(cur: MembershipEdge, des: MembershipEdge) {
    Raised(cur.inherit, des.inherit).Some? || Raised(cur.admin, des.admin).Some?
  }

  /** The plan raises the pair through grantor `h`. */
  ghost predicate RaisedThrough(c: RoleGraph, a: Authority, p: Pair, cur: MembershipEdge, des: MembershipEdge,
                                h: string)
    requires p in c.edgeOptions
  {
    Rises(cur, des) && h == ChooseGrantor(a, p.0, c.edgeOptions[p])
  }

  /** Effective options are as declared, except ADMIN the executor itself holds. */
  ghost predicate EffectMet(c: RoleGraph, p: Pair, cur: MembershipEdge, des: MembershipEdge,
                            options: map<string, MembershipOptions>)
    requires p in c.edgeOptions
  {
    && AnyInherit(options) == des.inherit
    && (AnyAdmin(options) == des.admin <==>
          !(cur.admin && !des.admin
            && exists h :: h in c.edgeOptions[p] && c.edgeOptions[p][h].admin && Executor(c, p, h)))
  }

  /**
   The tuple of grantor `h` afterwards, flag by flag: what is declared, or ADMIN
   the executor holds, is kept; the chosen grantor adds what was missing, with a
   new tuple if need be; SET is kept; every other tuple is neither made nor lost.
   */
  ghost predicate TupleReached(c: RoleGraph, a: Authority, p: Pair, cur: MembershipEdge, des: MembershipEdge,
                               options: map<string, MembershipOptions>, h: string)
    requires p in c.edgeOptions
  {
    var was := if h in c.edgeOptions[p] then c.edgeOptions[p][h] else NO_OPTIONS;
    var raised := RaisedThrough(c, a, p, cur, des, h);
    && (h in options <==> h in c.edgeOptions[p] || raised)
    && (h in options ==>
          && options[h].inherit == ((was.inherit && des.inherit) || (raised && !cur.inherit && des.inherit))
          && options[h].admin
             == ((was.admin && (des.admin || Executor(c, p, h))) || (raised && !cur.admin && des.admin))
          && options[h].canSet == was.canSet)
  }

  /** Where the resolved plan leaves the tuples of a pair. */
  ghost predicate ResolvedOutcome(c: RoleGraph, a: Authority, p: Pair, cur: MembershipEdge, des: MembershipEdge,
                                  w: Memberships)
    requires p in c.edgeOptions
  {
    && w.Complete(p)
    && EdgeOf(w.edges, p) == Some(Effective(p, w.options[p]))
    && EffectMet(c, p, cur, des, w.options[p])
    && forall h :: TupleReached(c, a, p, cur, des, w.options[p], h)
  }

  lemma LoweredAdmin(c: RoleGraph, p: Pair, cur: MembershipEdge, des: MembershipEdge, v: Memberships, w: Memberships)
    requires p in c.edgeOptions && v.Complete(p) && v.options[p] == c.edgeOptions[p]
    requires p == (cur.role, cur.member) && w.Complete(p) && w.options[p].Keys == v.options[p].Keys
    requires forall g :: g in v.options[p] ==> w.options[p][g] == LoweredTuple(c, cur, des, g, v.options[p][g])
    requires cur.admin && !des.admin
    ensures AnyAdmin(w.options[p]) <==>
      exists h :: h in c.edgeOptions[p] && c.edgeOptions[p][h].admin && Executor(c, p, h)
  {
    forall g | g in v.options[p]
      ensures w.options[p][g].admin <==> v.options[p][g].admin && Executor(c, p, g)
    {
      LoweredFlags(c, cur, des, g, v.options[p][g]);
    }
  }

  lemma LoweredTupleFlags(c: RoleGraph, p: Pair, cur: MembershipEdge, des: MembershipEdge, v: Memberships, g: string)
    requires p in c.edgeOptions && g in c.edgeOptions[p] && v.Complete(p) && v.options[p] == c.edgeOptions[p]
    requires p == (cur.role, cur.member) && cur == Effective(p, v.options[p])
    ensures var t, o := LoweredTuple(c, cur, des, g, c.edgeOptions[p][g]), c.edgeOptions[p][g];
      && t.inherit == (o.inherit && des.inherit) && t.admin == (o.admin && (des.admin || Executor(c, p, g)))
      && t.canSet == o.canSet
  {
    LoweredFlags(c, cur, des, g, c.edgeOptions[p][g]);
  }

  /** What the reduced tuples supply together. */
  lemma LoweredSupplies(c: RoleGraph, p: Pair, cur: MembershipEdge, des: MembershipEdge, v: Memberships, w: Memberships)
    requires ReducedTo(c, p, cur, des, v, w)
    ensures AnyInherit(w.options[p]) == (cur.inherit && des.inherit)
    ensures cur.admin && !des.admin ==>
      (AnyAdmin(w.options[p]) <==> exists h :: h in c.edgeOptions[p] && c.edgeOptions[p][h].admin && Executor(c, p, h))
    ensures !(cur.admin && !des.admin) ==> AnyAdmin(w.options[p]) == cur.admin
  {
    LoweredEffect(c, p, cur, des, v, w);
    if cur.admin && !des.admin {
      LoweredAdmin(c, p, cur, des, v, w);
    }
  }

  /** The tuples after the reductions, and after an increase through the chosen grantor if there is one. */
  ghost function FinalOptions(c: RoleGraph, a: Authority, p: Pair, cur: MembershipEdge, des: MembershipEdge,
                              options: map<string, MembershipOptions>): map<string, MembershipOptions>
    requires p in c.edgeOptions
  {
    if Rises(cur, des) then RaisedOptions(cur, des, options, ChooseGrantor(a, p.0, c.edgeOptions[p])) else options
  }

  lemma FinalEffect(c: RoleGraph, a: Authority, p: Pair, cur: MembershipEdge, des: MembershipEdge,
                    v: Memberships, w: Memberships)
    requires ReducedTo(c, p, cur, des, v, w)
    ensures EffectMet(c, p, cur, des, FinalOptions(c, a, p, cur, des, w.options[p]))
  {
    LoweredSupplies(c, p, cur, des, v, w);
    RaisedSupplies(cur, des, w.options[p], ChooseGrantor(a, p.0, c.edgeOptions[p]));
  }

  lemma FinalTuple(c: RoleGraph, a: Authority, p: Pair, cur: MembershipEdge, des: MembershipEdge,
                   v: Memberships, w: Memberships, h: string)
    requires ReducedTo(c, p, cur, des, v, w)
    ensures TupleReached(c, a, p, cur, des, FinalOptions(c, a, p, cur, des, w.options[p]), h)
  {
    RaisedFlags(cur, des, w.options[p], ChooseGrantor(a, p.0, c.edgeOptions[p]), h);
    if h in c.edgeOptions[p] {
      LoweredTupleFlags(c, p, cur, des, v, h);
    }
  }

  /** What an increase through `g` does to the tuple of `h`. */
  lemma RaisedFlags(cur: MembershipEdge, des: MembershipEdge, options: map<string, MembershipOptions>, g: string,
                    h: string)
    ensures var r := RaisedOptions(cur, des, options, g);
      var was := if h in options then options[h] else NO_OPTIONS;
      && (h in r <==> h in options || h == g)
      && (h in r ==>
            && r[h].inherit == (was.inherit || (h == g && !cur.inherit && des.inherit))
            && r[h].admin == (was.admin || (h == g && !cur.admin && des.admin))
            && r[h].canSet == was.canSet)
  {
  }

  lemma LoweredOutcome(c: RoleGraph, a: Authority, p: Pair, cur: MembershipEdge, des: MembershipEdge,
                       v: Memberships, w: Memberships, r: Memberships)
    requires ReducedTo(c, p, cur, des, v, w)
    requires r.Complete(p) && EdgeOf(r.edges, p) == Some(Effective(p, r.options[p]))
    requires r.options[p] == FinalOptions(c, a, p, cur, des, w.options[p])
    ensures ResolvedOutcome(c, a, p, cur, des, r)
  {
    FinalEffect(c, a, p, cur, des, v, w);
    forall h ensures TupleReached(c, a, p, cur, des, r.options[p], h) {
      FinalTuple(c, a, p, cur, des, v, w, h);
    }
  }

  lemma PlanHoldsPair(c: RoleGraph, d: RoleGraph, p: Pair, change: Change)
    requires p in Pairs(d.memberships)
    requires change in LowerPairFn(c, d)(p) || change in AddPairFn(c, d)(p)
    ensures change in PlanFor(c, d)
  {
    var pairs := Sorted(Pairs(d.memberships), PairLe);
    assert p in pairs;
    InFlatMap(pairs, LowerPairFn(c, d), change);
    InFlatMap(pairs, AddPairFn(c, d), change);
    assert change in Removes(c, d) || change in Adds(c, d);
    assert change in Narrow(c, d) || change in Finish(c, d);
  }

  /** A pair whose options a resolved plan updates is proven. */
  lemma UpdatedIsProven(c: RoleGraph, d: RoleGraph, a: Authority, p: Pair)
    requires FlagsDiffer(c, d, p) && IsAttributed(c, p) && PairChanges(c, d, p) != []
    requires ResolveAll(c, a, PlanFor(c, d)).Some?
    ensures Proven(c, p)
  {
    var change := PairChanges(c, d, p)[0];
    assert change in LowerPairFn(c, d)(p) || change in AddPairFn(c, d)(p);
    PlanHoldsPair(c, d, p, change);
    ResolvedEach(c, a, PlanFor(c, d), change);
    PairUpdates(c, d, p, change);
  }

  /** The pair `w` once the reductions have run from `v`. */
  ghost predicate ReducedTo(c: RoleGraph, p: Pair, cur: MembershipEdge, des: MembershipEdge, v: Memberships,
                            w: Memberships) {
    && p in c.edgeOptions && v.Complete(p) && v.options[p] == c.edgeOptions[p]
    && p == (cur.role, cur.member) && cur == Effective(p, v.options[p])
    && Coherent(w, p) && OnlyPair(w, p) && w.options[p].Keys == v.options[p].Keys
    && forall h :: h in v.options[p] ==> w.options[p][h] == LoweredTuple(c, cur, des, h, v.options[p][h])
  }

  /** Lowering then raising from the current edge to `des`, as resolved. */
  lemma ResolvedPair(c: RoleGraph, a: Authority, p: Pair, cur: MembershipEdge, des: MembershipEdge)
    requires IsAttributed(c, p) && Proven(c, p) && Functional(c.memberships, p)
    requires EdgeOf(c.memberships, p) == Some(cur)
    ensures var v := PairView(MembershipsOf(c), p);
      var w := Fold(ResolvedStep(c, a, p), v, LowerAll(c, cur, des, c.edgeGrantors[p]) + RaiseOf(c, p, cur, des));
      ResolvedOutcome(c, a, p, cur, des, w) && OnlyPair(w, p)
  {
    var step, v := ResolvedStep(c, a, p), PairView(MembershipsOf(c), p);
    FirstIsOnly(c.memberships, p);
    ViewEdge(c, p);
    var grantors := Sorted(c.edgeGrantors[p], StringLe);
    FoldConcat(step, v, LowerAll(c, cur, des, c.edgeGrantors[p]), RaiseOf(c, p, cur, des));
    ResolvedLowers(c, a, p, cur, des, v, grantors);
    LowerFold(c, p, cur, des, v, grantors);
    ResolvedRaise(c, a, p, cur, des, v, Fold(step, v, LowerAll(c, cur, des, c.edgeGrantors[p])));
  }

  lemma RaiseExecutable(c: RoleGraph, a: Authority, p: Pair, via: string, inherit: Option<bool>, admin: Option<bool>)
    requires Proven(c, p) && (inherit == Some(true) || admin == Some(true))
    ensures var g := ChooseGrantor(a, p.0, c.edgeOptions[p]);
      Executable(c, a, UpdateMemberOptions(p.0, p.1, via, inherit, admin, None))
        == UpdateMemberOptions(p.0, p.1, g, inherit, admin, Some(BindingFor(a, c.edgeOptions[p], g)))
  {
  }

  lemma BoundRaise(c: RoleGraph, a: Authority, p: Pair, cur: MembershipEdge, des: MembershipEdge,
                   v: Memberships, w: Memberships)
    requires ReducedTo(c, p, cur, des, v, w) && Rises(cur, des)
    ensures var g := ChooseGrantor(a, p.0, c.edgeOptions[p]);
      var binding := BindingFor(a, c.edgeOptions[p], g);
      var r := PairStep(p)(w, UpdateMemberOptions(p.0, p.1, g,
        Raised(cur.inherit, des.inherit), Raised(cur.admin, des.admin), Some(binding)));
      ResolvedOutcome(c, a, p, cur, des, r) && OnlyPair(r, p)
  {
    var g := ChooseGrantor(a, p.0, c.edgeOptions[p]);
    var inherit, admin := Raised(cur.inherit, des.inherit), Raised(cur.admin, des.admin);
    var binding := BindingFor(a, c.edgeOptions[p], g);
    RaiseExecuted(p, w, g, inherit, admin, binding);
    LoweredOutcome(c, a, p, cur, des, v, w,
      PairStep(p)(w, UpdateMemberOptions(p.0, p.1, g, inherit, admin, Some(binding))));
  }

  lemma RaisedFold(c: RoleGraph, a: Authority, p: Pair, cur: MembershipEdge, des: MembershipEdge, w: Memberships)
    requires IsAttributed(c, p) && Proven(c, p) && Rises(cur, des)
    ensures var g := ChooseGrantor(a, p.0, c.edgeOptions[p]);
      Fold(ResolvedStep(c, a, p), w, RaiseOf(c, p, cur, des))
        == PairStep(p)(w, UpdateMemberOptions(p.0, p.1, g, Raised(cur.inherit, des.inherit),
             Raised(cur.admin, des.admin), Some(BindingFor(a, c.edgeOptions[p], g))))
  {
    var inherit, admin := Raised(cur.inherit, des.inherit), Raised(cur.admin, des.admin);
    var via := Least(c.edgeGrantors[p], StringLe);
    FoldSingle(ResolvedStep(c, a, p), w, UpdateMemberOptions(p.0, p.1, via, inherit, admin, None));
    RaiseExecutable(c, a, p, via, inherit, admin);
  }

  lemma ResolvedRaise(c: RoleGraph, a: Authority, p: Pair, cur: MembershipEdge, des: MembershipEdge,
                      v: Memberships, w: Memberships)
    requires IsAttributed(c, p) && Proven(c, p) && ReducedTo(c, p, cur, des, v, w)
    ensures var r := Fold(ResolvedStep(c, a, p), w, RaiseOf(c, p, cur, des));
      ResolvedOutcome(c, a, p, cur, des, r) && OnlyPair(r, p)
  {
    if Rises(cur, des) {
      RaisedFold(c, a, p, cur, des, w);
      BoundRaise(c, a, p, cur, des, v, w);
    } else {
      LoweredOutcome(c, a, p, cur, des, v, w, w);
    }
  }

  // ---- The frame, said over the plan ----

  /** Some update of the plan names grantor `h` on the pair. */
  ghost predicate NamesTuple(plan: seq<Change>, p: Pair, h: string) {
    exists change ::
      change in plan && change.UpdateMemberOptions? && (change.role, change.member) == p && change.viaGrantor == h
  }

  /** The tuple of one grantor. */
  function TupleOf(m: Memberships, p: Pair, h: string): Option<MembershipOptions> {
    if p in m.options then Get(m.options[p], h) else None
  }

  lemma UpdateFrames(p: Pair, v: Memberships, change: Change, h: string)
    requires change.UpdateMemberOptions? && (change.role, change.member) == p && change.viaGrantor != h
    ensures TupleOf(PairAfter(p, v, change), p, h) == TupleOf(v, p, h)
  {
  }

  /** Updates of a pair that do not name a grantor leave its tuple alone, present or absent. */
  lemma {:induction false} UnnamedUntouched(c: RoleGraph, a: Authority, p: Pair, v: Memberships, changes: seq<Change>,
                                            h: string)
    requires forall change :: change in changes ==>
      var r := Executable(c, a, change); r.UpdateMemberOptions? && (r.role, r.member) == p && r.viaGrantor != h
    ensures TupleOf(Fold(ResolvedStep(c, a, p), v, changes), p, h) == TupleOf(v, p, h)
  {
    if changes != [] {
      var init, last := changes[..|changes| - 1], changes[|changes| - 1];
      assert last in changes && forall change :: change in init ==> change in changes;
      UnnamedUntouched(c, a, p, v, init, h);
      UpdateFrames(p, Fold(ResolvedStep(c, a, p), v, init), Executable(c, a, last), h);
    }
  }

  lemma {:induction false} ResolvedListed(c: RoleGraph, a: Authority, changes: seq<Change>, change: Change)
    requires ResolveAll(c, a, changes).Some? && change in changes
    ensures Executable(c, a, change) in ResolveAll(c, a, changes).value
  {
    var init, last := changes[..|changes| - 1], changes[|changes| - 1];
    assert changes == init + [last];
    if change != last {
      ResolvedListed(c, a, init, change);
    }
  }

  lemma PairChangesListed(c: RoleGraph, d: RoleGraph, a: Authority, p: Pair, change: Change)
    requires FlagsDiffer(c, d, p) && IsAttributed(c, p) && change in PairChanges(c, d, p)
    requires ResolveAll(c, a, PlanFor(c, d)).Some?
    ensures var r := Executable(c, a, change);
      r in ResolveAll(c, a, PlanFor(c, d)).value && r.UpdateMemberOptions? && (r.role, r.member) == p
  {
    PairChangePlanned(c, d, p, change);
    ResolvedListed(c, a, PlanFor(c, d), change);
    UpdateStaysUpdate(c, a, change);
  }

  lemma PairChangePlanned(c: RoleGraph, d: RoleGraph, p: Pair, change: Change)
    requires FlagsDiffer(c, d, p) && IsAttributed(c, p) && change in PairChanges(c, d, p)
    ensures change in PlanFor(c, d) && change.UpdateMemberOptions? && (change.role, change.member) == p
  {
    assert change in LowerPairFn(c, d)(p) || change in AddPairFn(c, d)(p);
    PlanHoldsPair(c, d, p, change);
    PairUpdates(c, d, p, change);
  }

  lemma UpdateStaysUpdate(c: RoleGraph, a: Authority, change: Change)
    requires change.UpdateMemberOptions?
    ensures var r := Executable(c, a, change);
      r.UpdateMemberOptions? && r.role == change.role && r.member == change.member
  {
  }

  /** Along the changes of a pair, a tuple that the resolved plan does not name stays as it is. */
  lemma UnnamedStays(c: RoleGraph, d: RoleGraph, a: Authority, p: Pair, h: string)
    requires FlagsDiffer(c, d, p) && IsAttributed(c, p) && ResolveAll(c, a, PlanFor(c, d)).Some?
    requires !NamesTuple(ResolveAll(c, a, PlanFor(c, d)).value, p, h)
    ensures var v := PairView(MembershipsOf(c), p);
      TupleOf(Fold(ResolvedStep(c, a, p), v, PairChanges(c, d, p)), p, h) == TupleOf(v, p, h)
  {
    forall change | change in PairChanges(c, d, p)
      ensures var r := Executable(c, a, change);
        r.UpdateMemberOptions? && (r.role, r.member) == p && r.viaGrantor != h
    {
      PairChangesListed(c, d, a, p, change);
    }
    UnnamedUntouched(c, a, p, PairView(MembershipsOf(c), p), PairChanges(c, d, p), h);
  }

  /** What running a resolved plan does to a pair is what the pair's own changes do. */
  lemma ResolvedRun(c: RoleGraph, d: RoleGraph, a: Authority, p: Pair)
    requires ResolveAll(c, a, PlanFor(c, d)).Some? && !NamesDropped(c, d, p)
    requires OnlyPair(Fold(ResolvedStep(c, a, p), PairView(MembershipsOf(c), p), PairChanges(c, d, p)), p)
    ensures PairView(MembershipsOf(Run(c, ResolveAll(c, a, PlanFor(c, d)).value)), p)
         == Fold(ResolvedStep(c, a, p), PairView(MembershipsOf(c), p), PairChanges(c, d, p))
  {
    var v := PairView(MembershipsOf(c), p);
    PairRun(c, ResolveAll(c, a, PlanFor(c, d)).value, p);
    ResolvedFold(c, a, p, v, PlanFor(c, d));
    ResolvedStepBlind(c, a, p);
    BlindFold(ResolvedStep(c, a, p), c, d, p, v);
    ResolvedDrops(c, d, a, p, Fold(ResolvedStep(c, a, p), v, PairChanges(c, d, p)));
  }

  /**
   Applying a successfully resolved plan drives every pair whose options it
   updates to the declared INHERIT and ADMIN (ADMIN the executor holds itself
   aside), touches only the tuples of the grantors it names, keeps every SET
   bit, and creates at most one tuple: that of the chosen grantor, without SET.
   */
  lemma ResolvedPlanReaches(c: RoleGraph, d: RoleGraph, a: Authority, p: Pair)
    requires ResolveAll(c, a, PlanFor(c, d)).Some?
    requires FlagsDiffer(c, d, p) && IsAttributed(c, p) && PairChanges(c, d, p) != []
    requires Functional(c.memberships, p) && !NamesDropped(c, d, p)
    ensures Proven(c, p)
    ensures var plan := ResolveAll(c, a, PlanFor(c, d)).value;
      var w := PairView(MembershipsOf(Run(c, plan)), p);
      && ResolvedOutcome(c, a, p, EdgeOf(c.memberships, p).value, EdgeOf(d.memberships, p).value, w)
      && forall h :: !NamesTuple(plan, p, h) ==> TupleOf(w, p, h) == Get(c.edgeOptions[p], h)
  {
    UpdatedIsProven(c, d, a, p);
    ResolvedPair(c, a, p, EdgeOf(c.memberships, p).value, EdgeOf(d.memberships, p).value);
    ResolvedRun(c, d, a, p);
    var plan := ResolveAll(c, a, PlanFor(c, d)).value;
    forall h | !NamesTuple(plan, p, h)
      ensures TupleOf(PairView(MembershipsOf(Run(c, plan)), p), p, h) == Get(c.edgeOptions[p], h)
    {
      UnnamedStays(c, d, a, p, h);
    }
  }

  lemma {:induction false} SameDrops(c: RoleGraph, a: Authority, p: Pair, w: Memberships, changes: seq<Change>)
    requires AllOf(changes, DropKind)
    ensures Fold(ResolvedStep(c, a, p), w, changes) == Fold(PairStep(p), w, changes)
  {
    if changes != [] {
      var init, last := changes[..|changes| - 1], changes[|changes| - 1];
      assert last in changes && KindOf(last) == DropKind;
      assert forall change :: change in init ==> change in changes;
      SameDrops(c, a, p, w, init);
      ExecutableKind(c, a, last);
      SameStep(c, a, p, Fold(PairStep(p), w, init), last, last);
    }
  }

  lemma ResolvedDrops(c: RoleGraph, d: RoleGraph, a: Authority, p: Pair, w: Memberships)
    requires OnlyPair(w, p) && !NamesDropped(c, d, p)
    ensures Fold(ResolvedStep(c, a, p), w, Drops(c, d)) == w
  {
    DropsKind(c, d);
    SameDrops(c, a, p, w, Drops(c, d));
    DropFold(p, w, Drops(c, d));
    DropNamed(c, d, p.0);
    DropNamed(c, d, p.1);
  }
}
