/**
 The resolved plan as it is carried out: retirements added, filtered by mode, by
 external roles and by brownfield roles, and only then resolved.
 */
module FilteredOptions {
  import opened Sequences
  import opened Orders
  import opened Model
  import opened Manifest
  import opened Diff
  import opened Steps
  import opened Views
  import opened Sections
  import opened MemberRounds
  import opened OptionPlans
  import opened Plan
  import External
  import PlanOrder

  // ---- Folding through a filter ----

  /** What a step does with all that `f` makes of a change. */
  ghost function Through(step: (Memberships, Change) -> Memberships, f: Change -> seq<Change>):
    (Memberships, Change) -> Memberships
  {
    (v: Memberships, change: Change) => Fold(step, v, f(change))
  }

  lemma {:induction false} FoldThrough(step: (Memberships, Change) -> Memberships, f: Change -> seq<Change>,
                                       v: Memberships, changes: seq<Change>)
    ensures Fold(step, v, FlatMap(changes, f)) == Fold(Through(step, f), v, changes)
  {
    if changes != [] {
      var init, last := changes[..|changes| - 1], changes[|changes| - 1];
      FoldThrough(step, f, v, init);
      FoldConcat(step, v, FlatMap(init, f), f(last));
    }
  }

  lemma ThroughOne(step: (Memberships, Change) -> Memberships, f: Change -> seq<Change>, v: Memberships, x: Change)
    ensures f(x) == [x] ==> Through(step, f)(v, x) == step(v, x)
    ensures f(x) == [] ==> Through(step, f)(v, x) == v
  {
    if f(x) == [x] {
      FoldSingle(step, v, x);
    }
  }

  /** Nothing is made to concern the pair that did not. */
  ghost predicate Reflects(f: Change -> seq<Change>, p: Pair) {
    forall x, y :: y in f(x) && Concerns(y, p) ==> Concerns(x, p)
  }

  lemma BlindThrough(step: (Memberships, Change) -> Memberships, f: Change -> seq<Change>, p: Pair)
    requires Blind(step, p) && Reflects(f, p)
    ensures Blind(Through(step, f), p)
  {
    forall change, v | !Concerns(change, p) ensures Through(step, f)(v, change) == v {
      FoldInert(step, v, f(change));
    }
  }

  // ---- The filters, seen from a pair ----

  ghost function FilterStep(step: (Memberships, Change) -> Memberships, e: Expanded, d: RoleGraph):
    (Memberships, Change) -> Memberships
  {
    Through(Through(step, PreserveFn(e.roles, d)), ExternalFn(e.roles, e.memberships))
  }

  ghost function ModeStep(step: (Memberships, Change) -> Memberships, mode: Mode, all: seq<Change>):
    (Memberships, Change) -> Memberships
  {
    match mode
    case Authoritative => step
    case Additive => Through(step, AdditiveFn(all))
    case Adopt => Through(step, AdoptFn())
  }

  /** Stepping through what the whole pipeline makes of a change. */
  ghost function PlanStep(step: (Memberships, Change) -> Memberships, e: Expanded, d: RoleGraph, mode: Mode,
                          all: seq<Change>, retirements: seq<Retirement>): (Memberships, Change) -> Memberships
  {
    Through(ModeStep(FilterStep(step, e, d), mode, all), RetireFn(retirements))
  }

  lemma FilteredFold(step: (Memberships, Change) -> Memberships, v: Memberships, changes: seq<Change>, e: Expanded,
                     retirements: seq<Retirement>, mode: Mode, d: RoleGraph)
    ensures Fold(step, v, Filtered(changes, e, retirements, mode, d))
         == Fold(PlanStep(step, e, d, mode, WithRetirements(changes, retirements), retirements), v, changes)
  {
    var all := WithRetirements(changes, retirements);
    var inMode := FilterMode(all, mode);
    FoldThrough(step, PreserveFn(e.roles, d), v, FilterExternal(inMode, e));
    FoldThrough(Through(step, PreserveFn(e.roles, d)), ExternalFn(e.roles, e.memberships), v, inMode);
    var filter := FilterStep(step, e, d);
    match mode {
      case Authoritative =>
      case Additive => FoldThrough(filter, AdditiveFn(all), v, all);
      case Adopt => FoldThrough(filter, AdoptFn(), v, all);
    }
    FoldThrough(ModeStep(filter, mode, all), RetireFn(retirements), v, changes);
  }

  lemma PreserveReflects(roles: seq<RoleDefinition>, d: RoleGraph, p: Pair)
    ensures Reflects(PreserveFn(roles, d), p)
  {
    forall x, y | y in PreserveFn(roles, d)(x) && Concerns(y, p) ensures Concerns(x, p) {
      External.PreservedKind(roles, d, x, y);
    }
  }

  lemma ModeReflects(all: seq<Change>, p: Pair)
    ensures Reflects(AdditiveFn(all), p) && Reflects(AdoptFn(), p)
  {
  }

  lemma CleanupUnconcerned(retirements: seq<Retirement>, n: string, p: Pair)
    ensures forall y :: y in Cleanup(retirements, n) ==> !Concerns(y, p)
  {
  }

  lemma RetireReflects(retirements: seq<Retirement>, p: Pair)
    ensures Reflects(RetireFn(retirements), p)
  {
    forall x, y | y in RetireFn(retirements)(x) && Concerns(y, p) ensures Concerns(x, p) {
      if x.DropRole? {
        CleanupUnconcerned(retirements, x.name, p);
      }
    }
  }

  lemma ModeStepBlind(step: (Memberships, Change) -> Memberships, e: Expanded, d: RoleGraph, mode: Mode,
                      all: seq<Change>, p: Pair)
    requires Blind(step, p)
    ensures Blind(FilterStep(step, e, d), p) && Blind(ModeStep(FilterStep(step, e, d), mode, all), p)
  {
    PreserveReflects(e.roles, d, p);
    BlindThrough(step, PreserveFn(e.roles, d), p);
    BlindThrough(Through(step, PreserveFn(e.roles, d)), ExternalFn(e.roles, e.memberships), p);
    ModeReflects(all, p);
    match mode {
      case Authoritative =>
      case Additive => BlindThrough(FilterStep(step, e, d), AdditiveFn(all), p);
      case Adopt => BlindThrough(FilterStep(step, e, d), AdoptFn(), p);
    }
  }

  lemma PlanStepBlind(step: (Memberships, Change) -> Memberships, e: Expanded, d: RoleGraph, mode: Mode,
                      all: seq<Change>, retirements: seq<Retirement>, p: Pair)
    requires Blind(step, p)
    ensures Blind(PlanStep(step, e, d, mode, all, retirements), p)
  {
    ModeStepBlind(step, e, d, mode, all, p);
    RetireReflects(retirements, p);
    BlindThrough(ModeStep(FilterStep(step, e, d), mode, all), RetireFn(retirements), p);
  }

  // ---- What becomes of one change ----

  lemma FilterOne(step: (Memberships, Change) -> Memberships, e: Expanded, d: RoleGraph, v: Memberships, x: Change)
    requires !x.Revoke?
    ensures FilterStep(step, e, d)(v, x) == if KeepsExternal(e.roles, e.memberships, x) then step(v, x) else v
  {
    ThroughOne(step, PreserveFn(e.roles, d), v, x);
    ThroughOne(Through(step, PreserveFn(e.roles, d)), ExternalFn(e.roles, e.memberships), v, x);
  }

  /** An update that lowers, or one that raises. */
  predicate Lowering(x: Change) {
    x.UpdateMemberOptions? && x.setInherit != Some(true) && x.setAdmin != Some(true)
  }

  predicate RaisingOnly(x: Change) {
    && x.UpdateMemberOptions? && x.setInherit != Some(false) && x.setAdmin != Some(false)
    && (x.setInherit.Some? || x.setAdmin.Some?)
  }

  /** The mode lets the change through as it is. */
  predicate ModeKeeps(mode: Mode, x: Change) {
    match mode
    case Authoritative => true
    case Additive => RaisingOnly(x)
    case Adopt => !x.DropRole?
  }

  lemma AdditiveOne(all: seq<Change>, x: Change)
    ensures Lowering(x) || x.DropRole? ==> AdditiveFn(all)(x) == []
    ensures RaisingOnly(x) ==> AdditiveFn(all)(x) == [x]
  {
    if x.UpdateMemberOptions? {
      PlanOrder.KeptRaise(x.setInherit);
      PlanOrder.KeptRaise(x.setAdmin);
    }
  }

  lemma ModeOne(step: (Memberships, Change) -> Memberships, mode: Mode, all: seq<Change>, v: Memberships, x: Change)
    requires Lowering(x) || RaisingOnly(x) || x.DropRole?
    ensures ModeStep(step, mode, all)(v, x) == if ModeKeeps(mode, x) then step(v, x) else v
  {
    AdditiveOne(all, x);
    ThroughOne(step, AdditiveFn(all), v, x);
    ThroughOne(step, AdoptFn(), v, x);
  }

  /** The pipeline keeps the change as it is. */
  predicate Passes(e: Expanded, mode: Mode, x: Change) {
    ModeKeeps(mode, x) && KeepsExternal(e.roles, e.memberships, x)
  }

  /** An update or a drop is carried out as it is, or not at all. */
  lemma PlanOne(step: (Memberships, Change) -> Memberships, e: Expanded, d: RoleGraph, mode: Mode, all: seq<Change>,
                retirements: seq<Retirement>, p: Pair, v: Memberships, x: Change)
    requires Blind(step, p) && (Lowering(x) || RaisingOnly(x) || x.DropRole?)
    ensures PlanStep(step, e, d, mode, all, retirements)(v, x) == if Passes(e, mode, x) then step(v, x) else v
  {
    var inMode := ModeStep(FilterStep(step, e, d), mode, all);
    FilterOne(step, e, d, v, x);
    ModeOne(FilterStep(step, e, d), mode, all, v, x);
    if x.DropRole? {
      ModeStepBlind(step, e, d, mode, all, p);
      var steps := Cleanup(retirements, x.name);
      CleanupUnconcerned(retirements, x.name, p);
      FoldInert(inMode, v, steps);
      FoldConcat(inMode, v, steps, [x]);
      FoldSingle(inMode, v, x);
    } else {
      ThroughOne(inMode, RetireFn(retirements), v, x);
    }
  }

  /** `through` carries out the updates and drops that pass, as they are. */
  ghost predicate Carries(through: (Memberships, Change) -> Memberships, step: (Memberships, Change) -> Memberships,
                          e: Expanded, mode: Mode) {
    forall v, x :: Lowering(x) || RaisingOnly(x) || x.DropRole? ==>
      through(v, x) == if Passes(e, mode, x) then step(v, x) else v
  }

  lemma PlanCarries(step: (Memberships, Change) -> Memberships, e: Expanded, d: RoleGraph, mode: Mode,
                    all: seq<Change>, retirements: seq<Retirement>, p: Pair)
    requires Blind(step, p)
    ensures Carries(PlanStep(step, e, d, mode, all, retirements), step, e, mode)
  {
    forall v, x | Lowering(x) || RaisingOnly(x) || x.DropRole?
      ensures PlanStep(step, e, d, mode, all, retirements)(v, x) == if Passes(e, mode, x) then step(v, x) else v
    {
      PlanOne(step, e, d, mode, all, retirements, p, v, x);
    }
  }

  lemma PassesListed(changes: seq<Change>, e: Expanded, retirements: seq<Retirement>, mode: Mode, d: RoleGraph,
                     x: Change)
    requires x in changes && (Lowering(x) || RaisingOnly(x) || x.DropRole?) && Passes(e, mode, x)
    ensures x in Filtered(changes, e, retirements, mode, d)
  {
    var all := WithRetirements(changes, retirements);
    var inMode := FilterMode(all, mode);
    assert x in RetireFn(retirements)(x);
    InFlatMap(changes, RetireFn(retirements), x);
    ModeListed(all, mode, x);
    FilterListed(inMode, e, d, x);
  }

  lemma ModeListed(all: seq<Change>, mode: Mode, x: Change)
    requires x in all && (Lowering(x) || RaisingOnly(x) || x.DropRole?) && ModeKeeps(mode, x)
    ensures x in FilterMode(all, mode)
  {
    match mode {
      case Authoritative =>
      case Additive =>
        AdditiveOne(all, x);
        InFlatMap(all, AdditiveFn(all), x);
      case Adopt =>
        assert x in AdoptFn()(x);
        InFlatMap(all, AdoptFn(), x);
    }
  }

  lemma FilterListed(changes: seq<Change>, e: Expanded, d: RoleGraph, x: Change)
    requires x in changes && !x.Revoke? && KeepsExternal(e.roles, e.memberships, x)
    ensures x in FilterPreserved(FilterExternal(changes, e), e, d)
  {
    assert x in ExternalFn(e.roles, e.memberships)(x) && x in PreserveFn(e.roles, d)(x);
    InFlatMap(changes, ExternalFn(e.roles, e.memberships), x);
    InFlatMap(FilterExternal(changes, e), PreserveFn(e.roles, d), x);
  }

  // ---- The changes of a pair ----

  /** What a mode aims at: additive reconciliation never lowers. */
  function Target(mode: Mode, cur: MembershipEdge, des: MembershipEdge): MembershipEdge {
    if mode.Additive? then des.(inherit := cur.inherit || des.inherit, admin := cur.admin || des.admin) else des
  }

  /** Memberships of the pair are the plan's to change. */
  predicate Governed(e: Expanded, p: Pair) {
    !Unmanaged(e.roles, p.0) || DeclaredEdge(e.memberships, p.0, p.1)
  }

  ghost function OptionChanges(c: RoleGraph, p: Pair, cur: MembershipEdge, des: MembershipEdge): seq<Change>
    requires IsAttributed(c, p)
  {
    LowerAll(c, cur, des, c.edgeGrantors[p]) + RaiseOf(c, p, cur, des)
  }

  predicate OnlyUpdates(x: Change, p: Pair) {
    x.UpdateMemberOptions? && (x.role, x.member) == p
  }

  lemma LowersOnly(c: RoleGraph, p: Pair, cur: MembershipEdge, des: MembershipEdge, x: Change)
    requires IsAttributed(c, p) && p == (cur.role, cur.member) && x in LowerAll(c, cur, des, c.edgeGrantors[p])
    ensures Lowering(x) && !RaisingOnly(x) && OnlyUpdates(x, p)
  {
    InFlatMap(Sorted(c.edgeGrantors[p], StringLe), LowerFn(c, cur, des), x);
  }

  lemma RaisesOnly(c: RoleGraph, p: Pair, cur: MembershipEdge, des: MembershipEdge, x: Change)
    requires IsAttributed(c, p) && x in RaiseOf(c, p, cur, des)
    ensures RaisingOnly(x) && !Lowering(x) && OnlyUpdates(x, p)
  {
  }

  lemma AdditiveTarget(c: RoleGraph, p: Pair, cur: MembershipEdge, des: MembershipEdge)
    requires IsAttributed(c, p)
    ensures OptionChanges(c, p, cur, Target(Additive, cur, des)) == RaiseOf(c, p, cur, des)
  {
    var target := Target(Additive, cur, des);
    FlatMapNone(Sorted(c.edgeGrantors[p], StringLe), LowerFn(c, cur, target));
    assert LowerAll(c, cur, target, c.edgeGrantors[p]) == [];
    assert [] + RaiseOf(c, p, cur, des) == RaiseOf(c, p, cur, des);
  }

  /** Of the planned updates those towards the mode's target are kept, if the pair is governed at all. */
  ghost function KeptChanges(c: RoleGraph, e: Expanded, mode: Mode, p: Pair, cur: MembershipEdge,
                             des: MembershipEdge): seq<Change>
    requires IsAttributed(c, p)
  {
    if Governed(e, p) then OptionChanges(c, p, cur, Target(mode, cur, des)) else []
  }

  lemma KeptPasses(c: RoleGraph, e: Expanded, mode: Mode, p: Pair, cur: MembershipEdge, des: MembershipEdge, x: Change)
    requires IsAttributed(c, p) && p == (cur.role, cur.member) && x in KeptChanges(c, e, mode, p, cur, des)
    ensures x in OptionChanges(c, p, cur, des) && (Lowering(x) || RaisingOnly(x)) && Passes(e, mode, x)
    ensures OnlyUpdates(x, p)
  {
    if mode.Additive? {
      AdditiveTarget(c, p, cur, des);
      RaisesOnly(c, p, cur, des, x);
    } else if x in LowerAll(c, cur, des, c.edgeGrantors[p]) {
      LowersOnly(c, p, cur, des, x);
    } else {
      RaisesOnly(c, p, cur, des, x);
    }
  }

  lemma PassesIff(e: Expanded, mode: Mode, x: Change, p: Pair)
    requires OnlyUpdates(x, p)
    ensures Lowering(x) && !RaisingOnly(x) ==> (Passes(e, mode, x) <==> Governed(e, p) && !mode.Additive?)
    ensures RaisingOnly(x) ==> (Passes(e, mode, x) <==> Governed(e, p))
  {
  }

  lemma LowersFold(through: (Memberships, Change) -> Memberships, step: (Memberships, Change) -> Memberships,
                   e: Expanded, mode: Mode, p: Pair, v: Memberships, lowers: seq<Change>)
    requires Carries(through, step, e, mode)
    requires forall x :: x in lowers ==> Lowering(x) && !RaisingOnly(x) && OnlyUpdates(x, p)
    ensures Fold(through, v, lowers) == if Governed(e, p) && !mode.Additive? then Fold(step, v, lowers) else v
  {
    forall x | x in lowers ensures Passes(e, mode, x) <==> Governed(e, p) && !mode.Additive? {
      PassesIff(e, mode, x, p);
    }
    if Governed(e, p) && !mode.Additive? {
      FoldAgree(through, step, v, lowers);
    } else {
      FoldInert(through, v, lowers);
    }
  }

  lemma RaisesFold(through: (Memberships, Change) -> Memberships, step: (Memberships, Change) -> Memberships,
                   e: Expanded, mode: Mode, p: Pair, v: Memberships, raises: seq<Change>)
    requires Carries(through, step, e, mode)
    requires forall x :: x in raises ==> RaisingOnly(x) && OnlyUpdates(x, p)
    ensures Fold(through, v, raises) == if Governed(e, p) then Fold(step, v, raises) else v
  {
    forall x | x in raises ensures Passes(e, mode, x) <==> Governed(e, p) {
      PassesIff(e, mode, x, p);
    }
    if Governed(e, p) {
      FoldAgree(through, step, v, raises);
    } else {
      FoldInert(through, v, raises);
    }
  }

  lemma KeptFold(through: (Memberships, Change) -> Memberships, step: (Memberships, Change) -> Memberships,
                 c: RoleGraph, e: Expanded, mode: Mode, p: Pair, v: Memberships, cur: MembershipEdge,
                 des: MembershipEdge)
    requires Carries(through, step, e, mode) && IsAttributed(c, p) && p == (cur.role, cur.member)
    ensures Fold(through, v, OptionChanges(c, p, cur, des)) == Fold(step, v, KeptChanges(c, e, mode, p, cur, des))
  {
    var lowers, raises := LowerAll(c, cur, des, c.edgeGrantors[p]), RaiseOf(c, p, cur, des);
    forall x | x in lowers ensures Lowering(x) && !RaisingOnly(x) && OnlyUpdates(x, p) {
      LowersOnly(c, p, cur, des, x);
    }
    forall x | x in raises ensures RaisingOnly(x) && OnlyUpdates(x, p) {
      RaisesOnly(c, p, cur, des, x);
    }
    FoldConcat(through, v, lowers, raises);
    LowersFold(through, step, e, mode, p, v, lowers);
    RaisesFold(through, step, e, mode, p, Fold(through, v, lowers), raises);
    FoldConcat(step, v, lowers, raises);
    if mode.Additive? {
      AdditiveTarget(c, p, cur, des);
    }
  }

  // ---- The drops ----

  lemma {:induction false} FixedFold(step: (Memberships, Change) -> Memberships, v: Memberships, changes: seq<Change>)
    requires forall x :: x in changes ==> step(v, x) == v
    ensures Fold(step, v, changes) == v
  {
    if changes != [] {
      var init, last := changes[..|changes| - 1], changes[|changes| - 1];
      assert last in changes && forall x :: x in init ==> x in changes;
      FixedFold(step, v, init);
    }
  }

  lemma DropElsewhere(c: RoleGraph, a: Authority, p: Pair, v: Memberships, n: string)
    requires OnlyPair(v, p) && n != p.0 && n != p.1
    ensures ResolvedStep(c, a, p)(v, DropRole(n)) == v
  {
    assert (set e | e in v.edges && e.role != n && e.member != n) == v.edges;
  }

  lemma DropsFixed(through: (Memberships, Change) -> Memberships, c: RoleGraph, a: Authority, e: Expanded, mode: Mode,
                   p: Pair, v: Memberships, drops: seq<Change>)
    requires Carries(through, ResolvedStep(c, a, p), e, mode) && OnlyPair(v, p) && AllOf(drops, DropKind)
    requires forall x :: x in drops && Passes(e, mode, x) ==> x != DropRole(p.0) && x != DropRole(p.1)
    ensures Fold(through, v, drops) == v
  {
    forall x | x in drops ensures through(v, x) == v {
      assert KindOf(x) == DropKind && x == DropRole(x.name);
      if Passes(e, mode, x) {
        DropElsewhere(c, a, p, v, x.name);
      }
    }
    FixedFold(through, v, drops);
  }

  lemma DropPasses(c: RoleGraph, d: RoleGraph, e: Expanded, f: RoleGraph, retirements: seq<Retirement>, mode: Mode,
                   x: Change)
    requires x in Drops(c, d) && Passes(e, mode, x)
    ensures x in Filtered(PlanFor(c, d), e, retirements, mode, f)
  {
    DropPlanned(c, d, x);
    PassesListed(PlanFor(c, d), e, retirements, mode, f, x);
  }

  // ---- The whole plan ----

  /** Some change of the plan updates options of the pair. */
  ghost predicate UpdatesPair(plan: seq<Change>, p: Pair) {
    exists x :: x in plan && OnlyUpdates(x, p)
  }

  /** What the pair sees of a filtered and resolved plan. */
  lemma FilteredView(c: RoleGraph, d: RoleGraph, a: Authority, e: Expanded, f: RoleGraph,
                     retirements: seq<Retirement>, mode: Mode, p: Pair, v: Memberships)
    requires FlagsDiffer(c, d, p) && IsAttributed(c, p)
    requires var plan := Filtered(PlanFor(c, d), e, retirements, mode, f);
      DropRole(p.0) !in plan && DropRole(p.1) !in plan
    requires OnlyPair(Fold(ResolvedStep(c, a, p), v,
               KeptChanges(c, e, mode, p, EdgeOf(c.memberships, p).value, EdgeOf(d.memberships, p).value)), p)
    ensures Fold(ResolvedStep(c, a, p), v, Filtered(PlanFor(c, d), e, retirements, mode, f))
         == Fold(ResolvedStep(c, a, p), v,
              KeptChanges(c, e, mode, p, EdgeOf(c.memberships, p).value, EdgeOf(d.memberships, p).value))
  {
    var step, all := ResolvedStep(c, a, p), WithRetirements(PlanFor(c, d), retirements);
    var through := PlanStep(step, e, f, mode, all, retirements);
    var cur, des := EdgeOf(c.memberships, p).value, EdgeOf(d.memberships, p).value;
    ResolvedStepBlind(c, a, p);
    FilteredFold(step, v, PlanFor(c, d), e, retirements, mode, f);
    PlanStepBlind(step, e, f, mode, all, retirements, p);
    PlanCarries(step, e, f, mode, all, retirements, p);
    BlindFold(through, c, d, p, v);
    PairIsOptions(c, d, p);
    KeptFold(through, step, c, e, mode, p, v, cur, des);
    DropsKind(c, d);
    forall x | x in Drops(c, d) && Passes(e, mode, x) ensures x != DropRole(p.0) && x != DropRole(p.1) {
      DropPasses(c, d, e, f, retirements, mode, x);
    }
    DropsFixed(through, c, a, e, mode, p, Fold(through, v, OptionChanges(c, p, cur, des)), Drops(c, d));
  }

  lemma PairIsOptions(c: RoleGraph, d: RoleGraph, p: Pair)
    requires FlagsDiffer(c, d, p) && IsAttributed(c, p)
    ensures PairChanges(c, d, p)
         == OptionChanges(c, p, EdgeOf(c.memberships, p).value, EdgeOf(d.memberships, p).value)
    ensures (EdgeOf(c.memberships, p).value.role, EdgeOf(c.memberships, p).value.member) == p
  {
  }

  lemma KeptListed(c: RoleGraph, d: RoleGraph, e: Expanded, f: RoleGraph, retirements: seq<Retirement>, mode: Mode,
                   p: Pair, x: Change)
    requires FlagsDiffer(c, d, p) && IsAttributed(c, p)
    requires x in KeptChanges(c, e, mode, p, EdgeOf(c.memberships, p).value, EdgeOf(d.memberships, p).value)
    ensures x in Filtered(PlanFor(c, d), e, retirements, mode, f) && OnlyUpdates(x, p)
  {
    PairIsOptions(c, d, p);
    KeptPasses(c, e, mode, p, EdgeOf(c.memberships, p).value, EdgeOf(d.memberships, p).value, x);
    PairChangePlanned(c, d, p, x);
    PassesListed(PlanFor(c, d), e, retirements, mode, f, x);
  }

  lemma UpdatedIsGoverned(changes: seq<Change>, e: Expanded, f: RoleGraph, retirements: seq<Retirement>, mode: Mode,
                          p: Pair)
    requires UpdatesPair(Filtered(changes, e, retirements, mode, f), p)
    ensures Governed(e, p)
  {
    var x :| x in Filtered(changes, e, retirements, mode, f) && OnlyUpdates(x, p);
    External.PassedExternal(changes, e, retirements, mode, f, x);
  }

  lemma UpdatedPairProven(c: RoleGraph, a: Authority, plan: seq<Change>, p: Pair)
    requires ResolveAll(c, a, plan).Some? && UpdatesPair(plan, p)
    ensures Proven(c, p)
  {
    var x :| x in plan && OnlyUpdates(x, p);
    ResolvedEach(c, a, plan, x);
  }

  /** A tuple the resolved plan does not name is left alone by the kept changes. */
  lemma KeptUnnamed(c: RoleGraph, d: RoleGraph, a: Authority, e: Expanded, f: RoleGraph,
                    retirements: seq<Retirement>, mode: Mode, p: Pair, h: string)
    requires FlagsDiffer(c, d, p) && IsAttributed(c, p)
    requires ResolveAll(c, a, Filtered(PlanFor(c, d), e, retirements, mode, f)).Some?
    requires !NamesTuple(ResolveAll(c, a, Filtered(PlanFor(c, d), e, retirements, mode, f)).value, p, h)
    ensures var v := PairView(MembershipsOf(c), p);
      TupleOf(Fold(ResolvedStep(c, a, p), v,
          KeptChanges(c, e, mode, p, EdgeOf(c.memberships, p).value, EdgeOf(d.memberships, p).value)), p, h)
        == TupleOf(v, p, h)
  {
    var plan := Filtered(PlanFor(c, d), e, retirements, mode, f);
    var kept := KeptChanges(c, e, mode, p, EdgeOf(c.memberships, p).value, EdgeOf(d.memberships, p).value);
    forall x | x in kept
      ensures var r := Executable(c, a, x); r.UpdateMemberOptions? && (r.role, r.member) == p && r.viaGrantor != h
    {
      KeptListed(c, d, e, f, retirements, mode, p, x);
      ResolvedListed(c, a, plan, x);
      UpdateStaysUpdate(c, a, x);
    }
    UnnamedUntouched(c, a, p, PairView(MembershipsOf(c), p), kept, h);
  }

  /** Where a filtered and resolved plan leaves an attributed pair whose options differ. */
  ghost predicate Reached(c: RoleGraph, a: Authority, mode: Mode, p: Pair, cur: MembershipEdge, des: MembershipEdge,
                          plan: seq<Change>, r: seq<Change>, w: Memberships) {
    if UpdatesPair(plan, p) then
      && Proven(c, p) && ResolvedOutcome(c, a, p, cur, Target(mode, cur, des), w)
      && forall h :: !NamesTuple(r, p, h) ==> TupleOf(w, p, h) == Get(c.edgeOptions[p], h)
    else w == PairView(MembershipsOf(c), p)
  }

  lemma KeptReaches(c: RoleGraph, d: RoleGraph, a: Authority, e: Expanded, f: RoleGraph,
                    retirements: seq<Retirement>, mode: Mode, p: Pair)
    requires FlagsDiffer(c, d, p) && IsAttributed(c, p) && Functional(c.memberships, p)
    requires ResolveAll(c, a, Filtered(PlanFor(c, d), e, retirements, mode, f)).Some?
    ensures var plan := Filtered(PlanFor(c, d), e, retirements, mode, f);
      var cur, des := EdgeOf(c.memberships, p).value, EdgeOf(d.memberships, p).value;
      var w := Fold(ResolvedStep(c, a, p), PairView(MembershipsOf(c), p), KeptChanges(c, e, mode, p, cur, des));
      Reached(c, a, mode, p, cur, des, plan, ResolveAll(c, a, plan).value, w) && OnlyPair(w, p)
  {
    var plan := Filtered(PlanFor(c, d), e, retirements, mode, f);
    var cur, des := EdgeOf(c.memberships, p).value, EdgeOf(d.memberships, p).value;
    var kept := KeptChanges(c, e, mode, p, cur, des);
    ViewEdge(c, p);
    if UpdatesPair(plan, p) {
      UpdatedIsGoverned(PlanFor(c, d), e, f, retirements, mode, p);
      UpdatedPairProven(c, a, plan, p);
      ResolvedPair(c, a, p, cur, Target(mode, cur, des));
      forall h | !NamesTuple(ResolveAll(c, a, plan).value, p, h)
        ensures TupleOf(Fold(ResolvedStep(c, a, p), PairView(MembershipsOf(c), p), kept), p, h)
             == Get(c.edgeOptions[p], h)
      {
        KeptUnnamed(c, d, a, e, f, retirements, mode, p, h);
      }
    } else if kept != [] {
      KeptListed(c, d, e, f, retirements, mode, p, kept[0]);
    }
  }

  /**
   Whatever the mode and the filters, running the resolved plan drives every
   pair whose options it updates to the mode's target, tuple by tuple, touches
   no tuple it does not name, and leaves every other such pair alone.
   */
  lemma FilteredPlanReaches(c: RoleGraph, d: RoleGraph, a: Authority, e: Expanded, retirements: seq<Retirement>,
                            mode: Mode, p: Pair)
    requires FlagsDiffer(c, d, p) && IsAttributed(c, p) && Functional(c.memberships, p)
    requires var plan := PlanChanges(c, d, e, retirements, mode);
      ResolveAll(c, a, plan).Some? && DropRole(p.0) !in plan && DropRole(p.1) !in plan
    ensures var plan := PlanChanges(c, d, e, retirements, mode);
      var r := ResolveAll(c, a, plan).value;
      Reached(c, a, mode, p, EdgeOf(c.memberships, p).value, EdgeOf(d.memberships, p).value, plan, r,
        PairView(MembershipsOf(Run(c, r)), p))
  {
    var plan := PlanChanges(c, d, e, retirements, mode);
    var f := Resolve(d, c.routineAliases);
    var g := Resolve(f, c.routineAliases);
    var v := PairView(MembershipsOf(c), p);
    assert plan == Filtered(PlanFor(c, g), e, retirements, mode, f) && g.memberships == d.memberships;
    KeptReaches(c, g, a, e, f, retirements, mode, p);
    FilteredView(c, g, a, e, f, retirements, mode, p, v);
    PairRun(c, ResolveAll(c, a, plan).value, p);
    ResolvedFold(c, a, p, v, plan);
  }
}
