/**
 Planning and applying twice reaches a graph that needs no further change.
 */
module Convergence {
  import opened Sequences
  import opened Orders
  import opened Model
  import opened Roles
  import opened Diff
  import opened Steps
  import opened Rounds
  import opened SplitRounds
  import opened GrantRounds
  import opened MemberRounds
  import opened OptionRounds

  /** What the planner may assume: known grant entries, and consistent assertions. */
  ghost predicate Plannable(c: RoleGraph, d: RoleGraph) {
    GrantsPlannable(c, d) && DefaultsDisjoint(d)
  }

  lemma PlannableAfterRound(c: RoleGraph, d: RoleGraph)
    requires Plannable(c, d)
    ensures Plannable(Round(c, d), d)
  {
    PlainAfterRound(c, d);
  }

  // ---- When a plan is empty ----

  lemma QuietRoles(c: RoleGraph, d: RoleGraph)
    requires c.roles == d.roles
    ensures Creates(c, d) == [] && Alters(c, d) == [] && Drops(c, d) == []
  {
    var names := Sorted(d.roles.Keys, StringLe);
    forall n | n in names ensures CreateFn(c, d)(n) == [] && AlterFn(c, d)(n) == [] && DropFn(d)(n) == [] {
      DeltaEmpty(c.roles[n], d.roles[n]);
    }
    FlatMapNone(names, CreateFn(c, d));
    FlatMapNone(names, AlterFn(c, d));
    FlatMapNone(names, DropFn(d));
  }

  lemma QuietSchemas(c: RoleGraph, d: RoleGraph)
    requires SchemasPlaced(c, d) && OwnersComplete(c, d)
    ensures SchemaChanges(c, d) == [] && OwnerGrants(c, d) == []
  {
    var names := Sorted(d.schemas.Keys, StringLe);
    FlatMapNone(names, SchemaFn(c, d));
    FlatMapNone(names, OwnerFn(c, d));
  }

  lemma QuietGrants(c: RoleGraph, d: RoleGraph)
    requires forall k :: k in d.grants ==> GrantSatisfied(c, d, k)
    ensures Grants(c, d) == []
  {
    var keys := Sorted(d.grants.Keys, GrantKeyLe);
    forall k | k in keys ensures GrantFn(c, d)(k) == [] {
      assert GrantSatisfied(c, d, k);
    }
    FlatMapNone(keys, GrantFn(c, d));
  }

  lemma QuietDefaults(c: RoleGraph, d: RoleGraph)
    requires DefaultsGranted(c, d) && NoDefaultRevokes(c, d)
    ensures SetDefaults(c, d) == [] && RevokeDefaults(c, d) == []
  {
    var declared := Sorted(d.defaults.Keys, DefaultKeyLe);
    forall k | k in declared ensures SetDefaultFn(c, d)(k) == [] {}
    FlatMapNone(declared, SetDefaultFn(c, d));
    var keys := Sorted(c.defaults.Keys + d.defaultAbsences.Keys, DefaultKeyLe);
    forall k | k in keys ensures RevokeDefaultFn(c, d)(k) == [] {
      assert !RevokesDefault(c, d, k);
    }
    FlatMapNone(keys, RevokeDefaultFn(c, d));
  }

  lemma QuietMembers(c: RoleGraph, d: RoleGraph)
    requires forall p :: Settled(c, d, p)
    ensures Removes(c, d) == [] && Adds(c, d) == []
  {
    var des, cur := Sorted(Pairs(d.memberships), PairLe), Sorted(Pairs(c.memberships), PairLe);
    forall p | p in des ensures LowerPairFn(c, d)(p) == [] && AddPairFn(c, d)(p) == [] {
      assert Settled(c, d, p);
    }
    forall p | p in cur ensures StalePairFn(c, d)(p) == [] {
      assert Settled(c, d, p);
    }
    FlatMapNone(des, LowerPairFn(c, d));
    FlatMapNone(cur, StalePairFn(c, d));
    FlatMapNone(des, AddPairFn(c, d));
  }

  /** A pair that is not settled shows in the plan. */
  lemma UnsettledShows(c: RoleGraph, d: RoleGraph, p: Pair)
    requires !Settled(c, d, p)
    ensures Removes(c, d) != [] || Adds(c, d) != []
  {
    var des, cur := Sorted(Pairs(d.memberships), PairLe), Sorted(Pairs(c.memberships), PairLe);
    if LowerPairFn(c, d)(p) != [] {
      assert p in des;
      InFlatMap(des, LowerPairFn(c, d), LowerPairFn(c, d)(p)[0]);
    } else if AddPairFn(c, d)(p) != [] {
      assert p in des;
      InFlatMap(des, AddPairFn(c, d), AddPairFn(c, d)(p)[0]);
    } else {
      assert p in cur;
      InFlatMap(cur, StalePairFn(c, d), StalePairFn(c, d)(p)[0]);
    }
  }

  // ---- Two rounds ----

  ghost function TwoRounds(c: RoleGraph, d: RoleGraph): RoleGraph {
    Round(Round(c, d), d)
  }

  /** Only grants and memberships can be left after two rounds. */
  lemma SecondRoundQuiet(c: RoleGraph, d: RoleGraph)
    requires Plannable(c, d)
    ensures var c2 := TwoRounds(c, d);
      PlanFor(c2, d) == [] <==> Grants(c2, d) == [] && Removes(c2, d) == [] && Adds(c2, d) == []
  {
    var c1, c2 := Round(c, d), TwoRounds(c, d);
    PlannableAfterRound(c, d);
    RolesAfterRound(c, d);
    RolesAfterRound(c1, d);
    QuietRoles(c2, d);
    SchemasAfterRound(c, d);
    SchemasAfterRound(c1, d);
    QuietSchemas(c2, d);
    DefaultsAfterRound(c, d);
    DefaultsAfterRound(c1, d);
    QuietDefaults(c2, d);
    RoundLeavesNoRevokes(c1, d);
    EmptyIff(c2, d);
  }

  lemma EmptyIff(c: RoleGraph, d: RoleGraph)
    requires Creates(c, d) == [] && Alters(c, d) == [] && Drops(c, d) == []
    requires SchemaChanges(c, d) == [] && OwnerGrants(c, d) == []
    requires SetDefaults(c, d) == [] && RevokeDefaults(c, d) == [] && AllRevokes(c, d) == []
    ensures PlanFor(c, d) == [] <==> Grants(c, d) == [] && Removes(c, d) == [] && Adds(c, d) == []
  {
    NoParts(Creates(c, d), Alters(c, d), SchemaChanges(c, d));
    NoParts(OwnerGrants(c, d), Grants(c, d), SetDefaults(c, d));
    NoParts(Adds(c, d), RevokeDefaults(c, d), Drops(c, d));
    NoParts(Revokes(c, d), Removes(c, d), []);
    NoParts(Prepare(c, d) + Widen(c, d), Narrow(c, d), Finish(c, d));
    NoParts(Prepare(c, d), Widen(c, d), []);
  }

  lemma NoParts(x: seq<Change>, y: seq<Change>, z: seq<Change>)
    ensures x + y + z == [] <==> x == [] && y == [] && z == []
    ensures x + y == [] <==> x == [] && y == []
  {
  }

  lemma MembersQuietIff(c: RoleGraph, d: RoleGraph)
    ensures var c2 := TwoRounds(c, d);
      Removes(c2, d) == [] && Adds(c2, d) == [] <==> forall p :: !Stuck(c, d, p)
  {
    var c2 := TwoRounds(c, d);
    if p :| Stuck(c, d, p) {
      SettledAfterTwo(c, d, p);
      UnsettledShows(c2, d, p);
    } else {
      forall p ensures Settled(c2, d, p) {
        SettledAfterTwo(c, d, p);
      }
      QuietMembers(c2, d);
    }
  }

  lemma SatisfiedQuiets(c: RoleGraph, d: RoleGraph)
    requires Plannable(c, d) && forall k :: !HeldBack(c, d, k)
    ensures Grants(TwoRounds(c, d), d) == []
  {
    var c2 := TwoRounds(c, d);
    forall k | k in d.grants ensures GrantSatisfied(c2, d, k) {
      SatisfiedAfterTwo(c, d, k);
    }
    QuietGrants(c2, d);
  }

  lemma HeldBackRemains(c: RoleGraph, d: RoleGraph, k: GrantKey)
    requires Plannable(c, d) && HeldBack(c, d, k)
    ensures Grants(TwoRounds(c, d), d) != []
  {
    SatisfiedAfterTwo(c, d, k);
    Unsatisfied(TwoRounds(c, d), d, k);
  }

  lemma Unsatisfied(c: RoleGraph, d: RoleGraph, k: GrantKey)
    requires k in d.grants && !GrantSatisfied(c, d, k)
    ensures Grants(c, d) != []
  {
    var keys := Sorted(d.grants.Keys, GrantKeyLe);
    if k in c.grants {
      var p :| p in d.grants[k] && p !in c.grants[k];
      assert p in d.grants[k] - c.grants[k];
    }
    var change := GrantFn(c, d)(k)[0];
    assert k in keys && change in GrantFn(c, d)(k);
    InFlatMap(keys, GrantFn(c, d), change);
  }

  /**
   Convergence. Two rounds of planning and applying leave nothing to do, with
   two exceptions, and exactly then: revokes on a declared target that the first
   round held back for the incoming schema owner take its declaration along in
   the second, and it is granted again in a third; or the options of a stuck
   membership are planned in every round.
   */
  lemma ConvergesInTwoRounds(c: RoleGraph, d: RoleGraph)
    requires Plannable(c, d)
    ensures PlanFor(TwoRounds(c, d), d) == []
      <==> (forall k :: !HeldBack(c, d, k)) && (forall p :: !Stuck(c, d, p))
  {
    SecondRoundQuiet(c, d);
    MembersQuietIff(c, d);
    if k :| HeldBack(c, d, k) {
      HeldBackRemains(c, d, k);
    } else {
      SatisfiedQuiets(c, d);
    }
  }

  /** A third round is enough exactly when no membership is stuck. */
  lemma ConvergesInThreeRounds(c: RoleGraph, d: RoleGraph)
    requires Plannable(c, d)
    ensures PlanFor(Round(TwoRounds(c, d), d), d) == [] <==> forall p :: !Stuck(c, d, p)
  {
    var c1 := Round(c, d);
    PlannableAfterRound(c, d);
    SchemasAfterRound(c, d);
    forall k ensures !HeldBack(c1, d, k) {
      assert !Suppressed(c1, d, k);
    }
    forall p ensures Stuck(c1, d, p) <==> Stuck(c, d, p) {
      StuckIffAfterRound(c, d, p);
    }
    ConvergesInTwoRounds(c1, d);
  }

  // ---- The exceptions, concretely ----

  const OWNER_KEY := GrantKey(Role("b"), Schema, None, Some("s"))

  const TRANSFER_FROM :=
    EMPTY_GRAPH.(schemas := map["s" := SchemaState(Some("a"), {Create, Usage})], grants := map[OWNER_KEY := {Usage}])

  const TRANSFER_TO :=
    EMPTY_GRAPH.(schemas := map["s" := SchemaState(Some("b"), {Create, Usage})], grants := map[OWNER_KEY := {}])

  /** Handing schema `s` to `b` while declaring an empty grant on it to `b` takes a third round. */
  lemma TransferNeedsThreeRounds()
    ensures Plannable(TRANSFER_FROM, TRANSFER_TO)
    ensures PlanFor(TwoRounds(TRANSFER_FROM, TRANSFER_TO), TRANSFER_TO) != []
  {
    assert Excess(TRANSFER_FROM, TRANSFER_TO, OWNER_KEY) == {Usage};
    HeldBackPlain(TRANSFER_FROM, TRANSFER_TO, OWNER_KEY);
    assert HeldBack(TRANSFER_FROM, TRANSFER_TO, OWNER_KEY);
    ConvergesInTwoRounds(TRANSFER_FROM, TRANSFER_TO);
  }

  const TWO_GRANTORS: map<string, Privileges> := map["a" := {Usage}, "x" := {Usage}]

  const RECORDED_FROM := TRANSFER_FROM.(entryGrantors := map[OWNER_KEY := TWO_GRANTORS])

  const RECORDED_TO := TRANSFER_TO.(grants := map[OWNER_KEY := {Create}])

  /** With two grantors on record even a privilege freshly granted to the incoming owner is lost on the way. */
  lemma RecordedTransferNeedsThreeRounds()
    ensures Plannable(RECORDED_FROM, RECORDED_TO)
    ensures PlanFor(TwoRounds(RECORDED_FROM, RECORDED_TO), RECORDED_TO) != []
  {
    RecordedIsPlannable();
    RecordedIsHeldBack();
    ConvergesInTwoRounds(RECORDED_FROM, RECORDED_TO);
  }

  lemma TwoGrantorsShare()
    ensures Shared(TWO_GRANTORS) && EntryUnion(TWO_GRANTORS) == {Usage}
  {
    assert Usage in TWO_GRANTORS["a"] && Usage in TWO_GRANTORS["x"];
  }

  lemma RecordedIsPlannable()
    ensures Plannable(RECORDED_FROM, RECORDED_TO)
  {
    RecordedEntriesKnown();
  }

  lemma RecordedEntriesKnown()
    ensures EntriesKnown(RECORDED_FROM, RECORDED_TO)
  {
    TwoGrantorsShare();
    forall k, p | p in Attributed(RECORDED_FROM, k) ensures p in Lookup(RECORDED_FROM.grants, k) {
      assert k == OWNER_KEY;
    }
  }

  lemma RecordedIsHeldBack()
    ensures HeldBack(RECORDED_FROM, RECORDED_TO, OWNER_KEY)
  {
    var c, d, k := RECORDED_FROM, RECORDED_TO, OWNER_KEY;
    TwoGrantorsShare();
    assert EntriesOf(c, k) == TWO_GRANTORS;
    assert Excess(c, d, k) == {Usage} && Taken(c, d, k) == {Usage};
    assert Usage in EntryUnion(TWO_GRANTORS) * Taken(c, d, k);
  }

  // ---- A stuck membership never converges ----

  /** Graphs reached one round after the other. */
  ghost predicate IsRun(run: seq<RoleGraph>, d: RoleGraph) {
    forall i :: 0 < i < |run| ==> run[i] == Round(run[i - 1], d)
  }

  /** Along every run the options of a stuck membership are planned in every round and reached in none. */
  lemma {:induction false} StuckNeverConverges(run: seq<RoleGraph>, d: RoleGraph, p: Pair, n: nat)
    requires IsRun(run, d) && n < |run| && Stuck(run[0], d, p)
    ensures Stuck(run[n], d, p) && PlanFor(run[n], d) != []
    decreases n
  {
    if n > 0 {
      StuckNeverConverges(run, d, p, n - 1);
      assert run[n] == Round(run[n - 1], d);
      StuckStays(run[n - 1], d, p);
    }
    StuckPlans(run[n], d, p);
  }

  lemma StuckPlans(c: RoleGraph, d: RoleGraph, p: Pair)
    requires Stuck(c, d, p)
    ensures PlanFor(c, d) != []
  {
    StuckUnsettled(c, d, p);
    UnsettledShows(c, d, p);
    assert Narrow(c, d) != [] || Finish(c, d) != [];
  }

  const PARTIAL_FROM :=
    EMPTY_GRAPH.(
      memberships := {MembershipEdge("r", "m", false, false)},
      edgeGrantors := map[("r", "m") := {"g", "h"}],
      edgeOptions := map[("r", "m") := map["g" := MembershipOptions(false, false, true)]])

  const PARTIAL_TO := EMPTY_GRAPH.(memberships := {MembershipEdge("r", "m", true, false)})

  /** Of two grantors only one has its tuple recorded: INHERIT is raised in every round, in vain. */
  lemma PartialTuplesNeverConverge(run: seq<RoleGraph>, n: nat)
    requires IsRun(run, PARTIAL_TO) && n < |run| && run[0] == PARTIAL_FROM
    ensures Plannable(PARTIAL_FROM, PARTIAL_TO)
    ensures PlanFor(run[n], PARTIAL_TO) != []
  {
    PartialIsStuck();
    StuckNeverConverges(run, PARTIAL_TO, ("r", "m"), n);
  }

  lemma PartialIsStuck()
    ensures Plannable(PARTIAL_FROM, PARTIAL_TO) && Stuck(PARTIAL_FROM, PARTIAL_TO, ("r", "m"))
  {
    var p := ("r", "m");
    assert "h" in PARTIAL_FROM.edgeGrantors[p] && "h" !in PARTIAL_FROM.edgeOptions[p];
    assert EdgeOf(PARTIAL_FROM.memberships, p) == Some(MembershipEdge("r", "m", false, false));
    assert EdgeOf(PARTIAL_TO.memberships, p) == Some(MembershipEdge("r", "m", true, false));
  }

  // ---- Opposite assertions never settle ----

  lemma SectionShows(c: RoleGraph, d: RoleGraph)
    requires SchemaChanges(c, d) != [] || Grants(c, d) != [] || Revokes(c, d) != []
    ensures PlanFor(c, d) != []
  {
    assert |Prepare(c, d)| >= |SchemaChanges(c, d)| && |Widen(c, d)| >= |Grants(c, d)|;
    assert |Narrow(c, d)| >= |Revokes(c, d)|;
  }

  lemma TransferShows(c: RoleGraph, d: RoleGraph, n: string)
    requires OwnerMoves(c, d, n)
    ensures SchemaChanges(c, d) != []
  {
    var names := Sorted(d.schemas.Keys, StringLe);
    assert n in names && SchemaFn(c, d)(n) != [];
    InFlatMap(names, SchemaFn(c, d), SchemaFn(c, d)(n)[0]);
  }

  /**
   A privilege declared on a named target and asserted absent on it, or on its
   wildcard, is granted or revoked by every plan: no graph is ever settled.
   */
  lemma OppositeNeverSettles(c: RoleGraph, d: RoleGraph, k: GrantKey, p: Privilege)
    requires !IsStar(k) && k !in c.inherent && p in Lookup(d.grants, k)
    requires p in Lookup(d.grantAbsences, k) || p in Lookup(d.grantAbsences, Star(k))
    ensures PlanFor(c, d) != []
  {
    if p !in Lookup(c.grants, k) {
      Unsatisfied(c, d, k);
    } else {
      UncleanHit(c, d, k, p);
      KeptHits(c, d, k, p);
      if Suppressed(c, d, k) {
        TransferShows(c, d, k.name.value);
      }
    }
    SectionShows(c, d);
  }

  // ---- With routine aliases ----

  ghost function DiffRound(c: RoleGraph, d: RoleGraph): RoleGraph {
    Run(c, DiffOf(c, d))
  }

  /** The planner resolves routine spellings on every round, against aliases no change touches. */
  lemma DiffConverges(c: RoleGraph, d: RoleGraph)
    requires Plannable(c, Resolve(d, c.routineAliases))
    ensures DiffOf(DiffRound(DiffRound(c, d), d), d) == []
      <==> ((forall k :: !HeldBack(c, Resolve(d, c.routineAliases), k))
            && (forall p :: !Stuck(c, Resolve(d, c.routineAliases), p)))
  {
    TwoDiffRounds(c, d);
    ConvergesInTwoRounds(c, Resolve(d, c.routineAliases));
  }

  lemma TwoDiffRounds(c: RoleGraph, d: RoleGraph)
    ensures var resolved := Resolve(d, c.routineAliases);
      DiffOf(DiffRound(DiffRound(c, d), d), d) == PlanFor(TwoRounds(c, resolved), resolved)
  {
    DiffRoundIsRound(c, d);
    DiffRoundIsRound(DiffRound(c, d), d);
  }

  lemma DiffRoundIsRound(c: RoleGraph, d: RoleGraph)
    ensures DiffRound(c, d) == Round(c, Resolve(d, c.routineAliases))
    ensures DiffRound(c, d).routineAliases == c.routineAliases
  {
    RunKeeps(c, DiffOf(c, d));
  }
}
