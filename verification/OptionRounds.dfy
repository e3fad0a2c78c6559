/**
 Membership pairs whose options must change in place, whatever is recorded of
 their tuples: which pairs settle, and which are planned again in every round.
 */
module OptionRounds {
  import opened Sequences
  import opened Orders
  import opened Model
  import opened Diff
  import opened Steps
  import opened Views
  import opened Rounds
  import opened MemberRounds

  /** A grantor without a recorded tuple is asked to lower an option. */
  predicate BlindLowering(c: RoleGraph, cur: MembershipEdge, des: MembershipEdge, g: string) {
    && LiveOptions(c, (cur.role, cur.member), g).None?
    && (LowerInherit(c, cur, des, g).Some? || LowerAdmin(c, cur, des, g).Some?)
  }

  /**
   Options of the pair must change in place, its tuples are not all recorded,
   and either an option must rise or a grantor without a tuple must lower one.
   */
  ghost predicate Stuck(c: RoleGraph, d: RoleGraph, p: Pair) {
    && FlagsDiffer(c, d, p) && IsAttributed(c, p) && !NamesDropped(c, d, p) && !MembershipsOf(c).Complete(p)
    && var cur, des := EdgeOf(c.memberships, p).value, EdgeOf(d.memberships, p).value;
      || Raised(cur.inherit, des.inherit).Some? || Raised(cur.admin, des.admin).Some?
      || exists g :: g in c.edgeGrantors[p] && BlindLowering(c, cur, des, g)
  }

  // ---- Updates of one pair ----

  /** The same grantors and tuples are recorded, whatever their options. */
  ghost predicate SameRecords(v: Memberships, w: Memberships, p: Pair) {
    && w.grantors == v.grantors && w.options.Keys == v.options.Keys
    && (p in v.options ==> w.options[p].Keys == v.options[p].Keys)
  }

  /** Updates make complete tuples decide the edge, and leave the edge of incomplete ones alone. */
  ghost predicate UpdatedTo(v: Memberships, changes: seq<Change>, w: Memberships, p: Pair) {
    && SameRecords(v, w, p) && OnlyPair(w, p)
    && (!v.Complete(p) ==> w.edges == v.edges)
    && (v.Complete(p) && changes != [] ==> Coherent(w, p))
  }

  lemma UpdateStep(p: Pair, v: Memberships, changes: seq<Change>, w: Memberships, change: Change)
    requires p in v.grantors && UpdatedTo(v, changes, w, p) && Updates(change, p, v.grantors[p])
    ensures UpdatedTo(v, changes + [change], PairAfter(p, w, change), p)
  {
    var via := change.viaGrantor;
    assert w.Complete(p) == v.Complete(p);
    if p in w.options && via in w.options[p] {
      var options := w.options[p][via := Overwrite(w.options[p][via], change.setInherit, change.setAdmin)];
      assert options.Keys == w.options[p].Keys;
      EdgeOfWithEdge(w.edges, p, options);
    }
  }

  lemma {:induction false} UpdateFold(p: Pair, v: Memberships, changes: seq<Change>)
    requires OnlyPair(v, p) && p in v.grantors
    requires forall change :: change in changes ==> Updates(change, p, v.grantors[p])
    ensures UpdatedTo(v, changes, Fold(PairStep(p), v, changes), p)
  {
    if changes != [] {
      var init, last := changes[..|changes| - 1], changes[|changes| - 1];
      assert changes == init + [last] && last in changes && forall change :: change in init ==> change in changes;
      UpdateFold(p, v, init);
      UpdateStep(p, v, init, Fold(PairStep(p), v, init), last);
    }
  }

  /** The view of an attributed pair once its own changes have run. */
  lemma PairUpdated(c: RoleGraph, d: RoleGraph, p: Pair)
    requires FlagsDiffer(c, d, p) && IsAttributed(c, p)
    ensures var v := PairView(MembershipsOf(c), p);
      UpdatedTo(v, PairChanges(c, d, p), Fold(PairStep(p), v, PairChanges(c, d, p)), p)
  {
    ViewEdge(c, p);
    forall change | change in PairChanges(c, d, p) ensures Updates(change, p, c.edgeGrantors[p]) {
      PairUpdates(c, d, p, change);
    }
    UpdateFold(p, PairView(MembershipsOf(c), p), PairChanges(c, d, p));
  }

  /**
   A round, for every pair: its edge goes with a dropped role; known tuples
   bring it to its outcome; and otherwise its recorded tuples are updated,
   which decides its edge only if all of them are recorded.
   */
  lemma PairAfterRound(c: RoleGraph, d: RoleGraph, p: Pair)
    ensures var v, w := PairView(MembershipsOf(c), p), PairView(MembershipsOf(Round(c, d)), p);
      if NamesDropped(c, d, p) then w.edges == {}
      else if Ready(c, d, p) then Outcome(c, d, p, w)
      else UpdatedTo(v, PairChanges(c, d, p), w, p) && w == Fold(PairStep(p), v, PairChanges(c, d, p))
  {
    if Ready(c, d, p) {
      ReadyAfterRound(c, d, p);
    } else {
      PairUpdated(c, d, p);
      PairRoundView(c, d, p);
    }
  }

  // ---- Reading a view back ----

  /** What the planner sees of a pair is in its view. */
  lemma ViewRecords(c: RoleGraph, p: Pair)
    ensures var v := PairView(MembershipsOf(c), p);
      && Get(v.grantors, p) == Get(c.edgeGrantors, p) && Get(v.options, p) == Get(c.edgeOptions, p)
      && EdgeOf(v.edges, p) == EdgeOf(c.memberships, p) && (p in Pairs(c.memberships) <==> v.edges != {})
      && v.Complete(p) == MembershipsOf(c).Complete(p) && (Coherent(v, p) <==> Coherent(MembershipsOf(c), p))
  {
    ViewEdge(c, p);
    var v := PairView(MembershipsOf(c), p);
    if p in Pairs(c.memberships) {
      var e :| e in c.memberships && e.role == p.0 && e.member == p.1;
      assert e in v.edges;
    }
  }

  /** Pairs that look alike are planned alike. */
  lemma SameViewSettled(c: RoleGraph, d: RoleGraph, r: RoleGraph, p: Pair)
    requires PairView(MembershipsOf(r), p) == PairView(MembershipsOf(c), p) && r.executorEdges == c.executorEdges
    requires Settled(c, d, p)
    ensures Settled(r, d, p)
  {
    ViewRecords(c, p);
    ViewRecords(r, p);
    assert IsAttributed(r, p) == IsAttributed(c, p);
    if IsAttributed(c, p) {
      SameRemoves(c, r, p, Sorted(c.edgeGrantors[p], StringLe));
      if FlagsDiffer(c, d, p) {
        var cur, des := EdgeOf(c.memberships, p).value, EdgeOf(d.memberships, p).value;
        SameLowers(c, r, cur, des, Sorted(c.edgeGrantors[p], StringLe));
      }
    }
  }

  lemma SameRemoves(c: RoleGraph, r: RoleGraph, p: Pair, grantors: seq<string>)
    requires r.executorEdges == c.executorEdges
    ensures FlatMap(grantors, RemoveEdgeFn(r, p)) == FlatMap(grantors, RemoveEdgeFn(c, p))
  {
    FlatMapSame(grantors, RemoveEdgeFn(r, p), RemoveEdgeFn(c, p));
  }

  lemma SameLowers(c: RoleGraph, r: RoleGraph, cur: MembershipEdge, des: MembershipEdge, grantors: seq<string>)
    requires Get(r.edgeOptions, (cur.role, cur.member)) == Get(c.edgeOptions, (cur.role, cur.member))
    requires r.executorEdges == c.executorEdges
    ensures FlatMap(grantors, LowerFn(r, cur, des)) == FlatMap(grantors, LowerFn(c, cur, des))
  {
    FlatMapSame(grantors, LowerFn(r, cur, des), LowerFn(c, cur, des));
  }

  /** A settled pair stays settled. */
  lemma SettledStays(c: RoleGraph, d: RoleGraph, p: Pair)
    requires Settled(c, d, p) && !NamesDropped(c, d, p)
    ensures Settled(Round(c, d), d, p)
  {
    ViewEdge(c, p);
    assert PairChanges(c, d, p) == [];
    PairRoundView(c, d, p);
    RunKeeps(c, PlanFor(c, d));
    SameViewSettled(c, d, Round(c, d), p);
  }

  // ---- A stuck pair stays stuck ----

  lemma StuckIn(c: RoleGraph, d: RoleGraph, r: RoleGraph, p: Pair)
    requires Stuck(c, d, p) && r.executorEdges == c.executorEdges && r.roles == d.roles
    requires var v, w := PairView(MembershipsOf(c), p), PairView(MembershipsOf(r), p);
      w.edges == v.edges && SameRecords(v, w, p)
    ensures Stuck(r, d, p)
  {
    ViewRecords(c, p);
    ViewRecords(r, p);
    var cur, des := EdgeOf(c.memberships, p).value, EdgeOf(d.memberships, p).value;
    forall g ensures BlindLowering(r, cur, des, g) <==> BlindLowering(c, cur, des, g) {}
  }

  lemma StuckStays(c: RoleGraph, d: RoleGraph, p: Pair)
    requires Stuck(c, d, p)
    ensures Stuck(Round(c, d), d, p)
  {
    PairAfterRound(c, d, p);
    ViewRecords(c, p);
    RunKeeps(c, PlanFor(c, d));
    RolesAfterRound(c, d);
    StuckIn(c, d, Round(c, d), p);
  }

  lemma StuckUnsettled(c: RoleGraph, d: RoleGraph, p: Pair)
    requires Stuck(c, d, p)
    ensures !Settled(c, d, p) && !Ready(c, d, p)
  {
    var cur, des := EdgeOf(c.memberships, p).value, EdgeOf(d.memberships, p).value;
    if g :| g in c.edgeGrantors[p] && BlindLowering(c, cur, des, g) {
      var grantors := Sorted(c.edgeGrantors[p], StringLe);
      InFlatMap(grantors, LowerFn(c, cur, des), LowerFn(c, cur, des)(g)[0]);
    }
  }

  // ---- An incomplete pair that is not stuck settles ----

  /** Of the recorded tuples exactly those of `xs` are lowered. */
  ghost predicate TuplesLowered(c: RoleGraph, p: Pair, cur: MembershipEdge, des: MembershipEdge, v: Memberships,
                                xs: seq<string>, w: Memberships) {
    && SameRecords(v, w, p)
    && (p in v.options ==> forall g :: g in v.options[p] ==>
          w.options[p][g] == if g in xs then LoweredTuple(c, cur, des, g, v.options[p][g]) else v.options[p][g])
  }

  lemma OneTuple(p: Pair, w: Memberships, g: string, inherit: Option<bool>, admin: Option<bool>)
    ensures var r := PairStep(p)(w, UpdateMemberOptions(p.0, p.1, g, inherit, admin, None));
      && SameRecords(w, r, p)
      && (p in w.options ==> forall h :: h in w.options[p] ==>
            r.options[p][h] == if h == g then Overwrite(w.options[p][h], inherit, admin) else w.options[p][h])
  {
    if p in w.options && g in w.options[p] {
      assert w.options[p][g := Overwrite(w.options[p][g], inherit, admin)].Keys == w.options[p].Keys;
    }
  }

  lemma TupleStep(c: RoleGraph, p: Pair, cur: MembershipEdge, des: MembershipEdge, v: Memberships, xs: seq<string>,
                  g: string, w: Memberships)
    requires TuplesLowered(c, p, cur, des, v, xs, w) && g !in xs && (cur.role, cur.member) == p
    ensures TuplesLowered(c, p, cur, des, v, xs + [g], Fold(PairStep(p), w, LowerFn(c, cur, des)(g)))
  {
    var inherit, admin := LowerInherit(c, cur, des, g), LowerAdmin(c, cur, des, g);
    assert forall h :: h in xs + [g] <==> h in xs || h == g;
    if inherit.Some? || admin.Some? {
      FoldSingle(PairStep(p), w, UpdateMemberOptions(p.0, p.1, g, inherit, admin, None));
      OneTuple(p, w, g, inherit, admin);
    }
  }

  lemma {:induction false} TupleFold(c: RoleGraph, p: Pair, cur: MembershipEdge, des: MembershipEdge, v: Memberships,
                                     xs: seq<string>)
    requires Distinct(xs) && (cur.role, cur.member) == p
    ensures TuplesLowered(c, p, cur, des, v, xs, Fold(PairStep(p), v, FlatMap(xs, LowerFn(c, cur, des))))
  {
    if xs != [] {
      var init, last := xs[..|xs| - 1], xs[|xs| - 1];
      assert xs == init + [last] && last !in init && Distinct(init);
      TupleFold(c, p, cur, des, v, init);
      var done := FlatMap(init, LowerFn(c, cur, des));
      FoldConcat(PairStep(p), v, done, LowerFn(c, cur, des)(last));
      TupleStep(c, p, cur, des, v, init, last, Fold(PairStep(p), v, done));
    }
  }

  /** A grantor that has lowered its tuple, or has none and was not asked, is not asked again. */
  lemma NotAskedAgain(c: RoleGraph, cur: MembershipEdge, des: MembershipEdge, r: RoleGraph, g: string)
    requires r.executorEdges == c.executorEdges && !BlindLowering(c, cur, des, g)
    requires var p := (cur.role, cur.member);
      var o := LiveOptions(c, p, g);
      LiveOptions(r, p, g) == if o.Some? then Some(LoweredTuple(c, cur, des, g, o.value)) else None
    ensures LowerFn(r, cur, des)(g) == []
  {
  }

  /** Nothing is to rise, and no grantor without a tuple is asked. */
  ghost predicate OnlyLowers(c: RoleGraph, p: Pair, cur: MembershipEdge, des: MembershipEdge) {
    && IsAttributed(c, p) && (cur.role, cur.member) == p
    && Raised(cur.inherit, des.inherit).None? && Raised(cur.admin, des.admin).None?
    && forall g :: g in c.edgeGrantors[p] ==> !BlindLowering(c, cur, des, g)
  }

  lemma NoneAskedAgain(c: RoleGraph, p: Pair, cur: MembershipEdge, des: MembershipEdge, r: RoleGraph,
                       grantors: seq<string>)
    requires OnlyLowers(c, p, cur, des) && r.executorEdges == c.executorEdges
    requires forall g :: g in grantors ==> g in c.edgeGrantors[p]
    requires TuplesLowered(c, p, cur, des, PairView(MembershipsOf(c), p), grantors, PairView(MembershipsOf(r), p))
    ensures FlatMap(grantors, LowerFn(r, cur, des)) == []
  {
    ViewRecords(c, p);
    ViewRecords(r, p);
    forall g | g in grantors ensures LowerFn(r, cur, des)(g) == [] {
      NotAskedAgain(c, cur, des, r, g);
    }
    FlatMapNone(grantors, LowerFn(r, cur, des));
  }

  lemma LoweredSettles(c: RoleGraph, d: RoleGraph, r: RoleGraph, p: Pair)
    requires FlagsDiffer(c, d, p) && r.executorEdges == c.executorEdges
    requires var cur, des := EdgeOf(c.memberships, p).value, EdgeOf(d.memberships, p).value;
      var v, w := PairView(MembershipsOf(c), p), PairView(MembershipsOf(r), p);
      && OnlyLowers(c, p, cur, des) && w.edges == v.edges
      && TuplesLowered(c, p, cur, des, v, Sorted(c.edgeGrantors[p], StringLe), w)
    ensures Settled(r, d, p)
  {
    var cur, des := EdgeOf(c.memberships, p).value, EdgeOf(d.memberships, p).value;
    NoneAskedAgain(c, p, cur, des, r, Sorted(c.edgeGrantors[p], StringLe));
    ViewRecords(c, p);
    ViewRecords(r, p);
    QuietUpdates(r, d, p);
  }

  /** The changes of such a pair, run from its view. */
  lemma LoweredView(c: RoleGraph, d: RoleGraph, p: Pair)
    requires FlagsDiffer(c, d, p)
      && OnlyLowers(c, p, EdgeOf(c.memberships, p).value, EdgeOf(d.memberships, p).value)
    ensures var v := PairView(MembershipsOf(c), p);
      TuplesLowered(c, p, EdgeOf(c.memberships, p).value, EdgeOf(d.memberships, p).value, v,
        Sorted(c.edgeGrantors[p], StringLe), Fold(PairStep(p), v, PairChanges(c, d, p)))
  {
    var cur, des := EdgeOf(c.memberships, p).value, EdgeOf(d.memberships, p).value;
    var all := LowerAll(c, cur, des, c.edgeGrantors[p]);
    assert RaiseOf(c, p, cur, des) == [] && all + [] == all;
    assert PairChanges(c, d, p) == all;
    TupleFold(c, p, cur, des, PairView(MembershipsOf(c), p), Sorted(c.edgeGrantors[p], StringLe));
  }

  lemma NotStuckLowers(c: RoleGraph, d: RoleGraph, p: Pair)
    requires FlagsDiffer(c, d, p) && IsAttributed(c, p) && !NamesDropped(c, d, p) && !MembershipsOf(c).Complete(p)
    requires !Stuck(c, d, p)
    ensures OnlyLowers(c, p, EdgeOf(c.memberships, p).value, EdgeOf(d.memberships, p).value)
  {
  }

  lemma IncompleteSettles(c: RoleGraph, d: RoleGraph, p: Pair)
    requires FlagsDiffer(c, d, p) && IsAttributed(c, p) && !NamesDropped(c, d, p) && !MembershipsOf(c).Complete(p)
    requires !Stuck(c, d, p)
    ensures Settled(Round(c, d), d, p)
  {
    PairAfterRound(c, d, p);
    ViewRecords(c, p);
    RunKeeps(c, PlanFor(c, d));
    NotStuckLowers(c, d, p);
    LoweredView(c, d, p);
    LoweredSettles(c, d, Round(c, d), p);
  }

  // ---- Two rounds ----

  /** After one round a pair that is not stuck has known tuples or nothing left to change. */
  lemma Progress(c: RoleGraph, d: RoleGraph, p: Pair)
    requires !Stuck(c, d, p)
    ensures Ready(Round(c, d), d, p) || Settled(Round(c, d), d, p)
  {
    if Ready(c, d, p) {
      ReadySettles(c, d, p);
    } else if !MembershipsOf(c).Complete(p) && !NamesDropped(c, d, p) {
      IncompleteSettles(c, d, p);
    } else if !NamesDropped(c, d, p) && PairChanges(c, d, p) == [] {
      SettledStays(c, d, p);
    } else {
      BecomesReady(c, d, p);
    }
  }

  /** The edge is gone with a role, or complete tuples now decide it. */
  lemma BecomesReady(c: RoleGraph, d: RoleGraph, p: Pair)
    requires !Ready(c, d, p)
    requires NamesDropped(c, d, p) || (MembershipsOf(c).Complete(p) && PairChanges(c, d, p) != [])
    ensures Ready(Round(c, d), d, p)
  {
    PairAfterRound(c, d, p);
    ViewRecords(c, p);
    ViewReady(c, d, Round(c, d), p);
  }

  lemma ViewReady(c: RoleGraph, d: RoleGraph, r: RoleGraph, p: Pair)
    requires var w := PairView(MembershipsOf(r), p); w.edges == {} || Coherent(w, p)
    ensures Ready(r, d, p)
  {
    ViewRecords(r, p);
  }

  /** Whether a pair is stuck does not change from round to round. */
  lemma StuckIffAfterRound(c: RoleGraph, d: RoleGraph, p: Pair)
    ensures Stuck(c, d, p) <==> Stuck(Round(c, d), d, p)
  {
    if Stuck(c, d, p) {
      StuckStays(c, d, p);
    } else {
      Progress(c, d, p);
      if Stuck(Round(c, d), d, p) {
        StuckUnsettled(Round(c, d), d, p);
      }
    }
  }

  /** Two rounds leave nothing to change about a pair exactly when it is not stuck. */
  lemma SettledAfterTwo(c: RoleGraph, d: RoleGraph, p: Pair)
    ensures Settled(Round(Round(c, d), d), d, p) <==> !Stuck(c, d, p)
  {
    var c1 := Round(c, d);
    StuckIffAfterRound(c, d, p);
    if Stuck(c, d, p) {
      StuckStays(c1, d, p);
      StuckUnsettled(Round(c1, d), d, p);
    } else {
      Progress(c, d, p);
      RolesAfterRound(c, d);
      SettlesNext(c1, d, p);
    }
  }

  lemma SettlesNext(c: RoleGraph, d: RoleGraph, p: Pair)
    requires c.roles == d.roles && (Ready(c, d, p) || Settled(c, d, p))
    ensures Settled(Round(c, d), d, p)
  {
    if Ready(c, d, p) {
      ReadySettles(c, d, p);
    } else {
      SettledStays(c, d, p);
    }
  }
}
