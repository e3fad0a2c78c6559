/**
 One round of planning and applying, seen from object grants.
 */
module GrantRounds {
  import opened Sequences
  import opened Orders
  import opened Model
  import opened Diff
  import opened Steps
  import opened Views
  import opened Sections
  import opened Revocation
  import opened Rounds
  import opened EntryRounds
  import opened SplitRounds

  // ---- What is assumed of the graphs ----

  /** Every wildcard row of the current graph is declared and holds no more than declared. */
  ghost predicate StarsDeclared(c: RoleGraph, d: RoleGraph) {
    forall k :: k in c.grants && IsStar(k) ==> k in d.grants && c.grants[k] <= d.grants[k]
  }

  /** No privilege is declared present and asserted absent, for a target or for its wildcard. */
  ghost predicate GrantsDisjoint(d: RoleGraph) {
    forall k :: k in d.grants ==>
      d.grants[k] !! Lookup(d.grantAbsences, k) && d.grants[k] !! Lookup(d.grantAbsences, Star(k))
  }

  /** A desired wildcard declares `p` on the objects of its schema, and `k` is no exception. */
  predicate Covered(d: RoleGraph, k: GrantKey, p: Privilege) {
    p in WildcardPrivileges(d.grants, k) && p !in Lookup(d.grantAbsences, k) && p !in Lookup(d.grantAbsences, Star(k))
  }

  /** Nothing held on the named target `k` is excess or asserted absent. */
  ghost predicate Clean(c: RoleGraph, d: RoleGraph, k: GrantKey) {
    k in c.grants && k !in c.inherent ==>
      && c.grants[k] !! Excess(c, d, k)
      && c.grants[k] !! Lookup(d.grantAbsences, k)
      && c.grants[k] !! Lookup(d.grantAbsences, Star(k))
  }

  /** An entry records `p`: the row holds it, a wildcard row stands for it, or nothing is revoked from the target. */
  ghost predicate EntryKnown(c: RoleGraph, d: RoleGraph, k: GrantKey, p: Privilege) {
    || p in Lookup(c.grants, k)
    || Covered(d, k, p)
    || (Clean(c, d, k) && p !in Lookup(d.grantAbsences, Star(k)))
  }

  /** Entries are recorded on named targets, and are known. */
  ghost predicate EntriesKnown(c: RoleGraph, d: RoleGraph) {
    && (forall k :: k in c.entryGrantors ==> !IsStar(k))
    && (forall k, p :: p in Attributed(c, k) ==> EntryKnown(c, d, k, p))
  }

  /** No wildcard assertion covers a recorded target on a schema that changes hands. */
  ghost predicate TransfersNamed(c: RoleGraph, d: RoleGraph) {
    forall k :: k in c.entryGrantors && Transferred(c, d, k) ==> Lookup(d.grantAbsences, Star(k)) == {}
  }

  ghost predicate GrantsPlannable(c: RoleGraph, d: RoleGraph) {
    StarsDeclared(c, d) && GrantsDisjoint(d) && EntriesKnown(c, d) && TransfersNamed(c, d)
  }

  // ---- Folding revokes over one target ----

  ghost predicate Touches(changes: seq<Change>, k: GrantKey) {
    exists change :: change in changes && change.Revoke? && change.key == k
  }

  /** `r` is what the revokes leave of `v`. */
  ghost predicate LeavesOf(changes: seq<Change>, k: GrantKey, v: Option<Privileges>, r: Option<Privileges>) {
    && (v.None? ==> r.None?)
    && (v.Some? && r.Some? ==> forall p :: p in r.value <==> p in v.value && !Hits(changes, k, p))
    && (v.Some? && r.Some? && Touches(changes, k) ==> r.value != {})
    && (v.Some? && r.None? ==> Touches(changes, k) && forall p :: p in v.value ==> Hits(changes, k, p))
  }

  lemma TouchesPush(init: seq<Change>, last: Change, k: GrantKey)
    ensures Touches(init + [last], k) <==> Touches(init, k) || (last.Revoke? && last.key == k)
  {
    assert last in init + [last];
    assert forall change :: change in init ==> change in init + [last];
  }

  /** Without entries, or without a grantor, a revoke subtracts and leaves what is recorded. */
  lemma PlainStep(k: GrantKey, v: EntryView, change: Change)
    requires change.Revoke? && (change.key == k && change.grantor.Some? ==> v.entries.None?)
    ensures var w := EntryStep(k)(v, change);
      w.row == AfterPlain(k, v.row, change) && Recorded(w.entries) == Recorded(v.entries)
      && (v.entries.None? ==> w.entries.None?)
  {
  }

  /** Revokes on `k` name no grantor. */
  ghost predicate PlainOn(changes: seq<Change>, k: GrantKey) {
    forall change :: change in changes && change.Revoke? && change.key == k ==> change.grantor.None?
  }

  function AfterPlain(k: GrantKey, v: Option<Privileges>, change: Change): Option<Privileges>
    requires change.Revoke?
  {
    if change.key == k && v.Some? then Reduced(v.value, change.privileges) else v
  }

  lemma {:induction false} FoldRevokes(changes: seq<Change>, k: GrantKey, v: EntryView)
    requires AllOf(changes, RevokeKind) && (v.entries.None? || PlainOn(changes, k))
    ensures var r := Fold(EntryStep(k), v, changes);
      && LeavesOf(changes, k, v.row, r.row) && Recorded(r.entries) == Recorded(v.entries)
      && (v.entries.None? ==> r.entries.None?)
  {
    if changes != [] {
      var init, last := changes[..|changes| - 1], changes[|changes| - 1];
      assert changes == init + [last] && last in changes;
      assert KindOf(last) == RevokeKind && last.Revoke?;
      assert forall change :: change in init ==> change in changes;
      FoldRevokes(init, k, v);
      var r := Fold(EntryStep(k), v, init);
      PlainStep(k, r, last);
      LeavesSnoc(changes, k, v.row, r.row);
    }
  }

  lemma LeavesSnoc(changes: seq<Change>, k: GrantKey, v: Option<Privileges>, r: Option<Privileges>)
    requires changes != [] && changes[|changes| - 1].Revoke?
    requires LeavesOf(changes[..|changes| - 1], k, v, r)
    ensures LeavesOf(changes, k, v, AfterPlain(k, r, changes[|changes| - 1]))
  {
    var init, last := changes[..|changes| - 1], changes[|changes| - 1];
    assert changes == init + [last];
    TouchesPush(init, last, k);
    forall p ensures Hits(changes, k, p) <==> Hits(init, k, p) || (last.key == k && p in last.privileges) {
      HitsPush(init, last, k, p);
    }
    if r.Some? && last.key == k {
      assert forall p :: p in r.value - last.privileges <==> p in r.value && p !in last.privileges;
    }
  }

  // ---- One target after a round ----

  /** The row and the entries of a target after a round. */
  lemma ViewAfterRound(c: RoleGraph, d: RoleGraph, k: GrantKey)
    ensures EntryViewOf(Round(c, d), k)
         == Fold(EntryStep(k), EntryView(Granted(c, d, k), Get(c.entryGrantors, k)), Revokes(c, d))
  {
    EntryRun(c, PlanFor(c, d), k);
    EntrySections(c, d, k, EntryViewOf(c, k));
    EntryGrants(c, d, k);
  }

  lemma UntouchedView(changes: seq<Change>, k: GrantKey, v: EntryView)
    requires AllOf(changes, RevokeKind) && !Touches(changes, k)
    ensures Fold(EntryStep(k), v, changes) == v && LeavesOf(changes, k, v.row, v.row)
  {
    forall change, s | change in changes ensures EntryStep(k)(s, change) == s {
      assert KindOf(change) == RevokeKind;
    }
    FoldInert(EntryStep(k), v, changes);
    forall p ensures !Hits(changes, k, p) {}
  }

  /** On a schema that changes hands grantors are stale, and no revoke names one. */
  lemma TransferPlain(c: RoleGraph, d: RoleGraph, k: GrantKey)
    requires Transferred(c, d, k)
    ensures PlainOn(Revokes(c, d), k)
  {
    forall change | change in Revokes(c, d) && change.Revoke? && change.key == k ensures change.grantor.None? {
      InFilter(AllRevokes(c, d), Kept(c, d), change);
      var privileges := FromSplit(c, d, change);
    }
  }

  /** Without entries to consult exactly the hits are taken from what was held or declared. */
  lemma GrantAfterRound(c: RoleGraph, d: RoleGraph, k: GrantKey)
    requires k !in c.entryGrantors || Transferred(c, d, k) || !Touches(Revokes(c, d), k)
    ensures LeavesOf(Revokes(c, d), k, Granted(c, d, k), Get(Round(c, d).grants, k))
    ensures Attributed(Round(c, d), k) == Attributed(c, k)
    ensures !Touches(Revokes(c, d), k) ==> Get(Round(c, d).entryGrantors, k) == Get(c.entryGrantors, k)
  {
    ViewAfterRound(c, d, k);
    RevokesKind(c, d);
    if Transferred(c, d, k) {
      TransferPlain(c, d, k);
    }
    PlainView(Revokes(c, d), k, EntryView(Granted(c, d, k), Get(c.entryGrantors, k)));
  }

  /** Revokes that consult no entries, folded over a target. */
  lemma PlainView(changes: seq<Change>, k: GrantKey, v: EntryView)
    requires AllOf(changes, RevokeKind) && (v.entries.None? || PlainOn(changes, k) || !Touches(changes, k))
    ensures var r := Fold(EntryStep(k), v, changes);
      && LeavesOf(changes, k, v.row, r.row) && Recorded(r.entries) == Recorded(v.entries)
      && (!Touches(changes, k) ==> r.entries == v.entries)
  {
    if !Touches(changes, k) {
      UntouchedView(changes, k, v);
    } else {
      FoldRevokes(changes, k, v);
    }
  }

  // ---- Suppression for incoming owners ----

  /** Revokes on `k` are held back: its grantee is the schema's incoming owner. */
  predicate Suppressed(c: RoleGraph, d: RoleGraph, k: GrantKey) {
    Transferred(c, d, k) && k.role.AsString() == d.schemas[k.name.value].owner.value
  }

  lemma KeptHits(c: RoleGraph, d: RoleGraph, k: GrantKey, p: Privilege)
    ensures Hits(Revokes(c, d), k, p) <==> Hits(AllRevokes(c, d), k, p) && !Suppressed(c, d, k)
  {
    if Hits(Revokes(c, d), k, p) {
      var change :| change in Revokes(c, d) && change.Revoke? && change.key == k && p in change.privileges;
      InFilter(AllRevokes(c, d), Kept(c, d), change);
    }
    if Hits(AllRevokes(c, d), k, p) && !Suppressed(c, d, k) {
      var change :| change in AllRevokes(c, d) && change.Revoke? && change.key == k && p in change.privileges;
      InFilter(AllRevokes(c, d), Kept(c, d), change);
    }
  }

  // ---- Every revoke takes something ----

  lemma SplitConcreteNonempty(c: RoleGraph, d: RoleGraph, k: GrantKey, privileges: Privileges, change: Change)
    requires privileges != {} && change in SplitConcrete(c, d, k, privileges)
    ensures change.Revoke? && change.privileges != {}
  {
    if k in c.entryGrantors && !Transferred(c, d, k) {
      SplitIsExact(c, d, k, privileges, change);
    }
  }

  lemma RevokeNonempty(c: RoleGraph, d: RoleGraph, change: Change)
    requires change in AllRevokes(c, d)
    ensures change.Revoke? && change.privileges != {}
  {
    InFlatMap(Sorted(RevokeMap(c, d).Keys, GrantKeyLe), RevokeFn(c, d), change);
    var k :| k in RevokeMap(c, d) && change in RevokeFn(c, d)(k);
    var privileges := ToRevoke(c, d, k);
    if Expands(c, k) {
      InFlatMap(Sorted(Targets(c, k), GrantKeyLe), TargetFn(c, d, privileges), change);
      var t :| t in Targets(c, k) && change in TargetFn(c, d, privileges)(t);
      SplitConcreteNonempty(c, d, t, privileges * HeldOn(c, t), change);
    } else {
      SplitConcreteNonempty(c, d, k, privileges, change);
    }
  }

  lemma TouchHits(c: RoleGraph, d: RoleGraph, k: GrantKey)
    requires Touches(Revokes(c, d), k)
    ensures !Suppressed(c, d, k)
    ensures exists p :: Hits(AllRevokes(c, d), k, p)
  {
    var change :| change in Revokes(c, d) && change.Revoke? && change.key == k;
    InFilter(AllRevokes(c, d), Kept(c, d), change);
    RevokeNonempty(c, d, change);
    var p :| p in change.privileges;
    assert Hits(AllRevokes(c, d), k, p);
  }

  // ---- Targets with recorded entries ----

  /** Each revoke is part of the split of some request on its own target. */
  lemma FromSplit(c: RoleGraph, d: RoleGraph, change: Change) returns (privileges: Privileges)
    requires change in AllRevokes(c, d)
    ensures change.Revoke? && change in SplitConcrete(c, d, change.key, privileges)
  {
    InFlatMap(Sorted(RevokeMap(c, d).Keys, GrantKeyLe), RevokeFn(c, d), change);
    var k :| k in RevokeMap(c, d) && change in RevokeFn(c, d)(k);
    privileges := FromOneSplit(c, d, k, ToRevoke(c, d, k), change);
  }

  lemma FromOneSplit(c: RoleGraph, d: RoleGraph, k: GrantKey, requested: Privileges, change: Change)
    returns (privileges: Privileges)
    requires change in Split(c, d, k, requested)
    ensures change.Revoke? && change in SplitConcrete(c, d, change.key, privileges)
  {
    if Expands(c, k) {
      InFlatMap(Sorted(Targets(c, k), GrantKeyLe), TargetFn(c, d, requested), change);
      var t :| t in Targets(c, k) && change in TargetFn(c, d, requested)(t);
      privileges := requested * HeldOn(c, t);
      InSplitConcrete(c, d, t, privileges, change);
    } else {
      privileges := requested;
      InSplitConcrete(c, d, k, privileges, change);
    }
  }

  /** A plain revoke on a recorded target takes nothing its entries record. */
  lemma RemaindersSpare(c: RoleGraph, d: RoleGraph, k: GrantKey)
    requires k in c.entryGrantors && !Transferred(c, d, k)
    ensures PlainSpares(Revokes(c, d), k, Attributed(c, k))
  {
    forall change | change in Revokes(c, d) && change.Revoke? && change.key == k && change.grantor.None?
      ensures change.privileges !! Attributed(c, k)
    {
      InFilter(AllRevokes(c, d), Kept(c, d), change);
      var privileges := FromSplit(c, d, change);
      SplitIsExact(c, d, k, privileges, change);
    }
  }

  lemma SplitInAll(c: RoleGraph, d: RoleGraph, t: GrantKey, p: Privilege) returns (privileges: Privileges)
    requires Hits(AllRevokes(c, d), t, p)
    ensures p in privileges
    ensures forall change :: change in SplitConcrete(c, d, t, privileges) ==> change in AllRevokes(c, d)
  {
    var k := HitSource(c, d, t, p);
    privileges := if Expands(c, k) then ToRevoke(c, d, k) * HeldOn(c, t) else ToRevoke(c, d, k);
    forall change | change in SplitConcrete(c, d, t, privileges) ensures change in AllRevokes(c, d) {
      SplitPart(c, d, k, t, ToRevoke(c, d, k), change);
      SplitListed(c, d, k, change);
    }
  }

  lemma SplitPart(c: RoleGraph, d: RoleGraph, k: GrantKey, t: GrantKey, requested: Privileges, change: Change)
    requires if Expands(c, k) then t in Targets(c, k) && t !in c.inherent && requested * HeldOn(c, t) != {} else t == k
    requires change in SplitConcrete(c, d, t, if Expands(c, k) then requested * HeldOn(c, t) else requested)
    ensures change in Split(c, d, k, requested)
  {
    if Expands(c, k) {
      var targets := Sorted(Targets(c, k), GrantKeyLe);
      assert t in targets && change in TargetFn(c, d, requested)(t);
      InFlatMap(targets, TargetFn(c, d, requested), change);
    }
  }

  lemma SplitListed(c: RoleGraph, d: RoleGraph, k: GrantKey, change: Change)
    requires k in RevokeMap(c, d) && change in Split(c, d, k, ToRevoke(c, d, k))
    ensures change in AllRevokes(c, d)
  {
    var keys := Sorted(RevokeMap(c, d).Keys, GrantKeyLe);
    assert k in keys && change in RevokeFn(c, d)(k);
    InFlatMap(keys, RevokeFn(c, d), change);
  }

  /** A privilege revoked from a recorded target is revoked through every grantor that recorded it. */
  lemma EveryGrantorHit(c: RoleGraph, d: RoleGraph, k: GrantKey, g: string, p: Privilege)
    requires k in c.entryGrantors && !Transferred(c, d, k) && Hits(Revokes(c, d), k, p)
    requires g in c.entryGrantors[k] && p in c.entryGrantors[k][g]
    ensures HitBy(Revokes(c, d), k, g, p)
  {
    KeptHits(c, d, k, p);
    var privileges := SplitInAll(c, d, k, p);
    var change := Revoke(k, privileges * c.entryGrantors[k][g], Some(g));
    assert p in change.privileges;
    SplitIsExact(c, d, k, privileges, change);
    InFilter(AllRevokes(c, d), Kept(c, d), change);
  }

  /**
   A recorded target after a round: its row holds only what was held, declared
   or recorded and not revoked, and all that was held and is still recorded;
   its entries only shrink.
   */
  ghost predicate PrivilegeLeaves(
    changes: seq<Change>, c: RoleGraph, d: RoleGraph, r: RoleGraph, k: GrantKey, p: Privilege)
  {
    && (p in Lookup(r.grants, k) ==>
          && !Hits(changes, k, p)
          && (p in Lookup(c.grants, k) || p in Lookup(d.grants, k) || p in Attributed(c, k)))
    && (p in Attributed(r, k) ==> p in Attributed(c, k))
    && (p in Attributed(r, k) && p in Lookup(c.grants, k) ==> p in Lookup(r.grants, k))
  }

  ghost predicate EntriesLeave(c: RoleGraph, d: RoleGraph, r: RoleGraph, k: GrantKey) {
    forall p :: PrivilegeLeaves(Revokes(c, d), c, d, r, k, p)
  }

  lemma {:induction false} EntriesNeverAppear(g: RoleGraph, changes: seq<Change>)
    ensures Run(g, changes).entryGrantors.Keys <= g.entryGrantors.Keys
  {
    if changes != [] {
      EntriesNeverAppear(g, changes[..|changes| - 1]);
    }
  }

  lemma RecordedAfterRound(c: RoleGraph, d: RoleGraph, k: GrantKey)
    requires k in c.entryGrantors && !Transferred(c, d, k)
    ensures EntriesLeave(c, d, Round(c, d), k)
  {
    var start := EntryView(Granted(c, d, k), Get(c.entryGrantors, k));
    ViewAfterRound(c, d, k);
    RevokesKind(c, d);
    RemaindersSpare(c, d, k);
    FollowRevokes(start, Revokes(c, d), k);
    EntriesNeverAppear(c, PlanFor(c, d));
    EntriesLeaveFrom(c, d, Round(c, d), k);
  }

  lemma EntriesLeaveFrom(c: RoleGraph, d: RoleGraph, r: RoleGraph, k: GrantKey)
    requires k in c.entryGrantors && !Transferred(c, d, k)
    requires var start := EntryView(Granted(c, d, k), Get(c.entryGrantors, k));
      && EntriesFollow(start, Revokes(c, d), k, EntryViewOf(r, k))
      && RowFollows(start, Revokes(c, d), k, EntryViewOf(r, k))
    ensures EntriesLeave(c, d, r, k)
  {
    forall p ensures PrivilegeLeaves(Revokes(c, d), c, d, r, k, p) {
      RecordedUnhit(c, d, EntryViewOf(r, k), k, p);
      PrivilegeFollows(Revokes(c, d), c, d, r, k, p);
    }
  }

  lemma PrivilegeFollows(changes: seq<Change>, c: RoleGraph, d: RoleGraph, r: RoleGraph, k: GrantKey, p: Privilege)
    requires RowFollows(EntryView(Granted(c, d, k), Get(c.entryGrantors, k)), changes, k, EntryViewOf(r, k))
    requires p in Attributed(r, k) ==> p in Attributed(c, k) && !Hits(changes, k, p)
    ensures PrivilegeLeaves(changes, c, d, r, k, p)
  {
    RowGives(EntryView(Granted(c, d, k), Get(c.entryGrantors, k)), changes, k, EntryViewOf(r, k), p);
  }

  lemma RowGives(start: EntryView, changes: seq<Change>, k: GrantKey, v: EntryView, p: Privilege)
    requires RowFollows(start, changes, k, v)
    ensures v.row.Some? && p in v.row.value ==>
      start.row.Some? && (p in Recorded(v.entries) || (p in start.row.value && !Hits(changes, k, p)))
    ensures start.row.Some? && p in start.row.value && p in Recorded(v.entries) ==> v.row.Some? && p in v.row.value
  {
  }

  lemma RecordedUnhit(c: RoleGraph, d: RoleGraph, v: EntryView, k: GrantKey, p: Privilege)
    requires k in c.entryGrantors && !Transferred(c, d, k)
    requires EntriesFollow(EntryView(Granted(c, d, k), Get(c.entryGrantors, k)), Revokes(c, d), k, v)
    ensures p in Recorded(v.entries) ==> p in Attributed(c, k) && !Hits(Revokes(c, d), k, p)
  {
    RecordedIff(v.entries, p);
    RecordedIff(Get(c.entryGrantors, k), p);
    if g :| Records(v.entries, g, p) {
      assert Records(Get(c.entryGrantors, k), g, p) && !HitBy(Revokes(c, d), k, g, p);
      if Hits(Revokes(c, d), k, p) {
        EveryGrantorHit(c, d, k, g, p);
      }
    }
  }

  // ---- Declared privileges are never revoked ----

  lemma DeclaredKept(c: RoleGraph, d: RoleGraph, k: GrantKey, p: Privilege)
    requires GrantsPlannable(c, d) && k in d.grants && p in d.grants[k]
    ensures !Hits(AllRevokes(c, d), k, p)
  {
    if IsStar(k) {
      StarHits(c, d, k, p);
      assert k == Star(k);
    } else {
      NamedHits(c, d, k, p);
      StarRevokesAsserted(c, d, Star(k), p);
    }
  }

  /** Wildcard rows are never excess, so only assertions revoke through them. */
  lemma StarRevokesAsserted(c: RoleGraph, d: RoleGraph, k: GrantKey, p: Privilege)
    requires StarsDeclared(c, d) && IsStar(k)
    ensures p in ToRevoke(c, d, k) ==> p in Lookup(d.grantAbsences, k) && p in HeldInScope(c, k)
  {
  }

  // ---- A round cleans every target whose revokes are not held back ----

  lemma CleanNotOwn(c: RoleGraph, d: RoleGraph, k: GrantKey, p: Privilege)
    requires !IsStar(k) && Clean(c, d, k)
    ensures p !in ToRevoke(c, d, k)
  {
  }

  lemma CleanNoHits(c: RoleGraph, d: RoleGraph, k: GrantKey, p: Privilege)
    requires GrantsPlannable(c, d) && !IsStar(k) && Clean(c, d, k)
    ensures !Hits(AllRevokes(c, d), k, p)
  {
    NamedHits(c, d, k, p);
    CleanNotOwn(c, d, k, p);
    StarRevokesAsserted(c, d, Star(k), p);
    assert p in Attributed(c, k) ==> EntryKnown(c, d, k, p);
  }

  lemma CleanNotTouched(c: RoleGraph, d: RoleGraph, k: GrantKey)
    requires GrantsPlannable(c, d) && !IsStar(k) && Clean(c, d, k)
    ensures !Touches(Revokes(c, d), k)
  {
    if Touches(Revokes(c, d), k) {
      TouchHits(c, d, k);
      var p :| Hits(AllRevokes(c, d), k, p);
      CleanNoHits(c, d, k, p);
    }
  }

  /** What a round would revoke from `k` and has not been declared: all that makes it unclean. */
  lemma UncleanHit(c: RoleGraph, d: RoleGraph, k: GrantKey, p: Privilege)
    requires !IsStar(k) && k in c.grants && k !in c.inherent && p in c.grants[k]
    requires p in Excess(c, d, k) || p in Lookup(d.grantAbsences, k) || p in Lookup(d.grantAbsences, Star(k))
    ensures Hits(AllRevokes(c, d), k, p)
  {
    NamedHits(c, d, k, p);
    if p in Lookup(d.grantAbsences, Star(k)) {
      assert InScope(k, Star(k));
      assert p in HeldInScope(c, Star(k));
      RevokesNonempty(c, d, Star(k), p);
      assert k in Targets(c, k);
    }
  }

  /** What is left of a target was held or declared, or recorded where something was revoked, and not revoked. */
  ghost predicate Leftover(c: RoleGraph, d: RoleGraph, r: RoleGraph, k: GrantKey) {
    forall p :: p in Lookup(r.grants, k) ==>
      && !Hits(Revokes(c, d), k, p)
      && (p in Lookup(c.grants, k) || p in Lookup(d.grants, k) || (p in Attributed(c, k) && !Clean(c, d, k)))
  }

  lemma LeftoverAfterRound(c: RoleGraph, d: RoleGraph, k: GrantKey)
    requires GrantsPlannable(c, d) && !IsStar(k)
    ensures Leftover(c, d, Round(c, d), k)
  {
    if k in c.entryGrantors && !Transferred(c, d, k) && !Clean(c, d, k) {
      RecordedAfterRound(c, d, k);
      EntriesLeftover(c, d, Round(c, d), k);
    } else {
      if Clean(c, d, k) {
        CleanNotTouched(c, d, k);
      }
      GrantAfterRound(c, d, k);
      LeavesLeftover(c, d, Round(c, d), k);
    }
  }

  lemma EntriesLeftover(c: RoleGraph, d: RoleGraph, r: RoleGraph, k: GrantKey)
    requires EntriesLeave(c, d, r, k) && !Clean(c, d, k)
    ensures Leftover(c, d, r, k)
  {
    forall p | p in Lookup(r.grants, k)
      ensures && !Hits(Revokes(c, d), k, p)
              && (p in Lookup(c.grants, k) || p in Lookup(d.grants, k) || p in Attributed(c, k))
    {
      assert PrivilegeLeaves(Revokes(c, d), c, d, r, k, p);
    }
  }

  lemma LeavesLeftover(c: RoleGraph, d: RoleGraph, r: RoleGraph, k: GrantKey)
    requires LeavesOf(Revokes(c, d), k, Granted(c, d, k), Get(r.grants, k))
    ensures Leftover(c, d, r, k)
  {
    forall p | p in Lookup(r.grants, k)
      ensures !Hits(Revokes(c, d), k, p) && (p in Lookup(c.grants, k) || p in Lookup(d.grants, k))
    {
      LeftOver(Revokes(c, d), k, Granted(c, d, k), r.grants[k], p);
    }
  }

  /** Only what is clean remains after a round. */
  lemma RoundCleans(c: RoleGraph, d: RoleGraph, r: RoleGraph, k: GrantKey)
    requires GrantsPlannable(c, d) && !IsStar(k) && (Suppressed(c, d, k) ==> Clean(c, d, k))
    requires Leftover(c, d, r, k) && r.inherent == c.inherent
    ensures Clean(r, d, k)
  {
    if k in r.grants && k !in r.inherent {
      forall p | p in r.grants[k]
        ensures p !in Excess(r, d, k) && p !in Lookup(d.grantAbsences, k) && p !in Lookup(d.grantAbsences, Star(k))
      {
        RemainderIsClean(c, d, r, k, p);
      }
    }
  }

  lemma RemainderIsClean(c: RoleGraph, d: RoleGraph, r: RoleGraph, k: GrantKey, p: Privilege)
    requires GrantsPlannable(c, d) && !IsStar(k) && (Suppressed(c, d, k) ==> Clean(c, d, k))
    requires Leftover(c, d, r, k) && r.inherent == c.inherent && k !in c.inherent && k in r.grants && p in r.grants[k]
    ensures p !in Excess(r, d, k) && p !in Lookup(d.grantAbsences, k) && p !in Lookup(d.grantAbsences, Star(k))
  {
    RemainderUnhit(c, d, r, k, p);
    if k in d.grants && p in d.grants[k] {
      DeclaredIsClean(d, r, k, p);
    } else if p in Lookup(c.grants, k) {
      UnhitIsClean(c, d, r, k, p);
    } else {
      CoveredIsClean(d, r, k, p);
    }
  }

  /** What remains is hit by no revoke, and was held, declared or covered by a wildcard. */
  lemma RemainderUnhit(c: RoleGraph, d: RoleGraph, r: RoleGraph, k: GrantKey, p: Privilege)
    requires GrantsPlannable(c, d) && !IsStar(k) && (Suppressed(c, d, k) ==> Clean(c, d, k))
    requires Leftover(c, d, r, k) && k in r.grants && p in r.grants[k]
    ensures !Hits(AllRevokes(c, d), k, p)
    ensures p in Lookup(c.grants, k) || p in Lookup(d.grants, k) || Covered(d, k, p)
  {
    KeptHits(c, d, k, p);
    assert !Hits(Revokes(c, d), k, p);
    if Clean(c, d, k) {
      CleanNoHits(c, d, k, p);
    } else {
      assert p in Attributed(c, k) ==> EntryKnown(c, d, k, p);
    }
  }

  lemma CoveredIsClean(d: RoleGraph, r: RoleGraph, k: GrantKey, p: Privilege)
    requires Covered(d, k, p) && !IsStar(k)
    ensures p !in Excess(r, d, k) && p !in Lookup(d.grantAbsences, k) && p !in Lookup(d.grantAbsences, Star(k))
  {
  }

  lemma LeftOver(changes: seq<Change>, k: GrantKey, v: Option<Privileges>, r: Privileges, p: Privilege)
    requires LeavesOf(changes, k, v, Some(r)) && p in r
    ensures v.Some? && p in v.value && !Hits(changes, k, p)
  {
  }

  lemma DeclaredIsClean(d: RoleGraph, r: RoleGraph, k: GrantKey, p: Privilege)
    requires GrantsDisjoint(d) && k in d.grants && p in d.grants[k]
    ensures p !in Excess(r, d, k) && p !in Lookup(d.grantAbsences, k) && p !in Lookup(d.grantAbsences, Star(k))
  {
  }

  lemma UnhitIsClean(c: RoleGraph, d: RoleGraph, r: RoleGraph, k: GrantKey, p: Privilege)
    requires GrantsPlannable(c, d) && !IsStar(k) && r.inherent == c.inherent && k !in c.inherent
    requires k in c.grants && p in c.grants[k] && k in r.grants && !Hits(AllRevokes(c, d), k, p)
    ensures p !in Excess(r, d, k) && p !in Lookup(d.grantAbsences, k) && p !in Lookup(d.grantAbsences, Star(k))
  {
    assert p in Excess(r, d, k) ==> p in Excess(c, d, k);
    if p in Excess(c, d, k) || p in Lookup(d.grantAbsences, k) || p in Lookup(d.grantAbsences, Star(k)) {
      UncleanHit(c, d, k, p);
    }
  }

  lemma StarAfterRound(c: RoleGraph, d: RoleGraph, r: RoleGraph, k: GrantKey)
    requires StarsDeclared(c, d) && IsStar(k) && k in r.grants
    requires LeavesOf(Revokes(c, d), k, Granted(c, d, k), Get(r.grants, k))
    ensures k in d.grants && r.grants[k] <= d.grants[k]
  {
  }

  lemma StarsAfterRound(c: RoleGraph, d: RoleGraph)
    requires GrantsPlannable(c, d)
    ensures StarsDeclared(Round(c, d), d)
  {
    var r := Round(c, d);
    forall k | k in r.grants && IsStar(k) ensures k in d.grants && r.grants[k] <= d.grants[k] {
      GrantAfterRound(c, d, k);
      StarAfterRound(c, d, r, k);
    }
  }

  lemma PlainAfterRound(c: RoleGraph, d: RoleGraph)
    requires GrantsPlannable(c, d)
    ensures GrantsPlannable(Round(c, d), d)
  {
    var r := Round(c, d);
    StarsAfterRound(c, d);
    EntriesNeverAppear(c, PlanFor(c, d));
    forall k, p | p in Attributed(r, k) ensures EntryKnown(r, d, k, p) {
      KnownAfterRound(c, d, k, p);
    }
    SchemasAfterRound(c, d);
  }

  lemma KnownAfterRound(c: RoleGraph, d: RoleGraph, k: GrantKey, p: Privilege)
    requires GrantsPlannable(c, d) && k in c.entryGrantors && p in Attributed(Round(c, d), k)
    ensures EntryKnown(Round(c, d), d, k, p)
  {
    if Clean(c, d, k) || Suppressed(c, d, k) {
      UntouchedKnown(c, d, k, p);
    } else if Transferred(c, d, k) {
      GrantAfterRound(c, d, k);
      CleanAfterRound(c, d, k);
    } else {
      RecordedAfterRound(c, d, k);
      RecordedKnown(c, d, Round(c, d), k, p);
    }
  }

  /** Nothing is revoked from the target in this round. */
  lemma UntouchedKnown(c: RoleGraph, d: RoleGraph, k: GrantKey, p: Privilege)
    requires GrantsPlannable(c, d) && k in c.entryGrantors && p in Attributed(Round(c, d), k)
    requires Clean(c, d, k) || Suppressed(c, d, k)
    ensures EntryKnown(Round(c, d), d, k, p)
  {
    StaysUntouched(c, d, k);
    RowKept(c, d, k);
    assert EntryKnown(c, d, k, p);
    if Clean(c, d, k) {
      CleanAfterRound(c, d, k);
    }
  }

  lemma RecordedKnown(c: RoleGraph, d: RoleGraph, r: RoleGraph, k: GrantKey, p: Privilege)
    requires EntriesKnown(c, d) && EntriesLeave(c, d, r, k) && p in Attributed(r, k) && !Clean(c, d, k)
    ensures EntryKnown(r, d, k, p)
  {
    assert PrivilegeLeaves(Revokes(c, d), c, d, r, k, p) && p in Attributed(c, k);
    assert EntryKnown(c, d, k, p);
  }

  lemma StaysUntouched(c: RoleGraph, d: RoleGraph, k: GrantKey)
    requires GrantsPlannable(c, d) && !IsStar(k) && (Clean(c, d, k) || Suppressed(c, d, k))
    ensures !Touches(Revokes(c, d), k)
  {
    if Clean(c, d, k) {
      CleanNotTouched(c, d, k);
    } else {
      SuppressedNotTouched(c, d, k);
    }
  }

  /** Without a revoke a round gives the target what was held and declared, and keeps its entries. */
  lemma RowKept(c: RoleGraph, d: RoleGraph, k: GrantKey)
    requires !Touches(Revokes(c, d), k)
    ensures Get(Round(c, d).grants, k) == Granted(c, d, k)
    ensures Get(Round(c, d).entryGrantors, k) == Get(c.entryGrantors, k)
  {
    GrantAfterRound(c, d, k);
    UntouchedStays(Revokes(c, d), k, Granted(c, d, k), Get(Round(c, d).grants, k));
  }

  lemma CleanAfterRound(c: RoleGraph, d: RoleGraph, k: GrantKey)
    requires GrantsPlannable(c, d) && !IsStar(k) && (Suppressed(c, d, k) ==> Clean(c, d, k))
    ensures Clean(Round(c, d), d, k)
  {
    RunKeeps(c, PlanFor(c, d));
    LeftoverAfterRound(c, d, k);
    RoundCleans(c, d, Round(c, d), k);
  }

  /** With no revoke held back, nothing is left to revoke. */
  lemma RoundLeavesNoRevokes(c: RoleGraph, d: RoleGraph)
    requires GrantsPlannable(c, d) && SchemasPlaced(c, d)
    ensures AllRevokes(Round(c, d), d) == []
  {
    var r := Round(c, d);
    PlainAfterRound(c, d);
    RunKeeps(c, PlanFor(c, d));
    if AllRevokes(r, d) != [] {
      var change := AllRevokes(r, d)[0];
      RevokeNonempty(r, d, change);
      var p :| p in change.privileges;
      NoHitsAfterRound(c, d, change.key, p);
      assert Hits(AllRevokes(r, d), change.key, p);
    }
  }

  lemma NoHitsAfterRound(c: RoleGraph, d: RoleGraph, k: GrantKey, p: Privilege)
    requires GrantsPlannable(c, d) && !Suppressed(c, d, k)
    ensures !Hits(AllRevokes(Round(c, d), d), k, p)
  {
    var r := Round(c, d);
    PlainAfterRound(c, d);
    RunKeeps(c, PlanFor(c, d));
    if IsStar(k) {
      StarNoHits(r, d, k, p);
    } else {
      CleanAfterRound(c, d, k);
      CleanNoHits(r, d, k, p);
    }
  }

  lemma StarNoHits(c: RoleGraph, d: RoleGraph, k: GrantKey, p: Privilege)
    requires GrantsPlannable(c, d) && IsStar(k)
    ensures !Hits(AllRevokes(c, d), k, p)
  {
    StarHits(c, d, k, p);
    StarRevokesAsserted(c, d, k, p);
    if p in ToRevoke(c, d, k) && !Expands(c, k) {
      LoneStar(c, d, k, p);
    }
  }

  /** Where no named target is known, only the wildcard row itself can hold anything. */
  lemma LoneStar(c: RoleGraph, d: RoleGraph, k: GrantKey, p: Privilege)
    requires StarsDeclared(c, d) && IsStar(k) && !Expands(c, k) && p in HeldInScope(c, k)
    ensures k in d.grants && p in d.grants[k]
  {
    var t :| t in c.grants && InScope(t, k) && p in c.grants[t];
    assert t !in Targets(c, k);
    assert t == k;
  }

  // ---- Declared targets after two rounds ----

  /** Exactly what a plan takes from a named target. */
  lemma PlainHits(c: RoleGraph, d: RoleGraph, k: GrantKey, p: Privilege)
    requires GrantsPlannable(c, d) && !IsStar(k) && k !in c.entryGrantors
    ensures Hits(AllRevokes(c, d), k, p) <==>
      && k in c.grants && k !in c.inherent && p in c.grants[k]
      && (p in Excess(c, d, k) || p in Lookup(d.grantAbsences, k) || p in Lookup(d.grantAbsences, Star(k)))
  {
    if Hits(AllRevokes(c, d), k, p) {
      NamedHits(c, d, k, p);
      RevokesOnlyHeld(c, d, k, p);
      StarRevokesAsserted(c, d, Star(k), p);
    }
    if k in c.grants && k !in c.inherent && p in c.grants[k]
       && (p in Excess(c, d, k) || p in Lookup(d.grantAbsences, k) || p in Lookup(d.grantAbsences, Star(k))) {
      UncleanHit(c, d, k, p);
    }
  }

  /** Everything `k` holds would be revoked. */
  predicate WouldEmpty(c: RoleGraph, d: RoleGraph, k: GrantKey) {
    && k in c.grants && c.grants[k] != {} && k !in c.inherent
    && c.grants[k] <= Excess(c, d, k) + Lookup(d.grantAbsences, k) + Lookup(d.grantAbsences, Star(k))
  }

  /** What a plan takes from `k`, once no revoke on it is held back. */
  function Taken(c: RoleGraph, d: RoleGraph, k: GrantKey): Privileges {
    if k in c.inherent then {}
    else Lookup(c.grants, k) * (Excess(c, d, k) + Lookup(d.grantAbsences, k) + Lookup(d.grantAbsences, Star(k)))
  }

  /**
   The revokes on `k` are held back in the first round, because its grantee is
   the schema's incoming owner, and cost it its declaration in the second.
   */
  ghost predicate HeldBack(c: RoleGraph, d: RoleGraph, k: GrantKey) {
    && k in d.grants && Suppressed(c, d, k)
    && Loses(Lookup(c.grants, k), EntriesOf(c, k), d.grants[k], Taken(c, d, k))
  }

  /** Without entries, only an empty declaration is lost. */
  lemma HeldBackPlain(c: RoleGraph, d: RoleGraph, k: GrantKey)
    requires k !in c.entryGrantors
    ensures HeldBack(c, d, k) <==> k in d.grants && d.grants[k] == {} && Suppressed(c, d, k) && WouldEmpty(c, d, k)
  {
    assert EntryUnion(EntriesOf(c, k)) == {};
    var held := Lookup(c.grants, k);
    var unclean := Excess(c, d, k) + Lookup(d.grantAbsences, k) + Lookup(d.grantAbsences, Star(k));
    assert held * unclean != {} && held <= held * unclean <==> held != {} && held <= unclean by {
      if held <= unclean {
        assert held * unclean == held;
      }
    }
  }

  ghost predicate GrantSatisfied(c: RoleGraph, d: RoleGraph, k: GrantKey) {
    k in c.grants && Lookup(d.grants, k) <= c.grants[k]
  }

  lemma DeclaredAfterRound(c: RoleGraph, d: RoleGraph, k: GrantKey)
    requires GrantsPlannable(c, d) && k in d.grants && (k !in c.entryGrantors || !Touches(Revokes(c, d), k))
    ensures k in Round(c, d).grants ==> d.grants[k] <= Round(c, d).grants[k]
    ensures d.grants[k] != {} || !Touches(Revokes(c, d), k) ==> k in Round(c, d).grants
  {
    var r := Round(c, d);
    GrantAfterRound(c, d, k);
    forall p | p in d.grants[k] ensures !Hits(Revokes(c, d), k, p) {
      DeclaredKept(c, d, k, p);
      KeptHits(c, d, k, p);
    }
  }

  lemma SuppressedNotTouched(c: RoleGraph, d: RoleGraph, k: GrantKey)
    requires Suppressed(c, d, k)
    ensures !Touches(Revokes(c, d), k)
  {
    if Touches(Revokes(c, d), k) {
      TouchHits(c, d, k);
    }
  }

  lemma SuppressedUntouched(c: RoleGraph, d: RoleGraph, k: GrantKey)
    requires k in d.grants && d.grants[k] == {} && Suppressed(c, d, k)
    ensures Get(Round(c, d).grants, k) == Some(Lookup(c.grants, k))
  {
    SuppressedNotTouched(c, d, k);
    GrantAfterRound(c, d, k);
    SuppressedStays(c, d, k, Get(Round(c, d).grants, k));
  }

  lemma SuppressedStays(c: RoleGraph, d: RoleGraph, k: GrantKey, r: Option<Privileges>)
    requires k in d.grants && d.grants[k] == {} && Suppressed(c, d, k)
    requires LeavesOf(Revokes(c, d), k, Granted(c, d, k), r)
    ensures r == Some(Lookup(c.grants, k))
  {
    SuppressedNotTouched(c, d, k);
    UntouchedStays(Revokes(c, d), k, Granted(c, d, k), r);
    assert Lookup(c.grants, k) + d.grants[k] == Lookup(c.grants, k);
  }

  lemma UntouchedStays(changes: seq<Change>, k: GrantKey, v: Option<Privileges>, r: Option<Privileges>)
    requires LeavesOf(changes, k, v, r) && !Touches(changes, k)
    ensures r == v
  {
    forall p ensures !Hits(changes, k, p) {}
    if v.Some? {
      assert r.value == v.value;
    }
  }

  /** The second round satisfies every declared target but those held back. */
  lemma SatisfiedAfterTwo(c: RoleGraph, d: RoleGraph, k: GrantKey)
    requires GrantsPlannable(c, d) && k in d.grants
    ensures GrantSatisfied(Round(Round(c, d), d), d, k) <==> !HeldBack(c, d, k)
  {
    PlainAfterRound(c, d);
    SchemasAfterRound(c, d);
    if Suppressed(c, d, k) && k in c.entryGrantors {
      RecordedSecond(c, d, k);
    } else {
      UnrecordedSecond(c, d, k);
    }
  }

  lemma UnrecordedSecond(c: RoleGraph, d: RoleGraph, k: GrantKey)
    requires GrantsPlannable(c, d) && GrantsPlannable(Round(c, d), d) && SchemasPlaced(Round(c, d), d)
    requires k in d.grants && (Suppressed(c, d, k) ==> k !in c.entryGrantors)
    ensures GrantSatisfied(Round(Round(c, d), d), d, k) <==> !HeldBack(c, d, k)
  {
    var c1 := Round(c, d);
    EntriesNeverAppear(c, PlanFor(c, d));
    if Suppressed(c, d, k) {
      HeldBackPlain(c, d, k);
    } else {
      UntouchedSecond(c, d, k);
    }
    DeclaredAfterRound(c1, d, k);
    if Suppressed(c, d, k) && d.grants[k] == {} {
      SuppressedSecond(c, d, k);
    }
    SatisfiedIff(c, d, Round(c1, d), k);
  }

  lemma SatisfiedIff(c: RoleGraph, d: RoleGraph, r: RoleGraph, k: GrantKey)
    requires k in d.grants && (k in r.grants ==> d.grants[k] <= r.grants[k])
    requires HeldBack(c, d, k) <==> d.grants[k] == {} && Suppressed(c, d, k) && WouldEmpty(c, d, k)
    requires if d.grants[k] == {} && Suppressed(c, d, k) then (k in r.grants <==> !WouldEmpty(c, d, k))
             else k in r.grants
    ensures GrantSatisfied(r, d, k) <==> !HeldBack(c, d, k)
  {
  }

  // ---- A recorded target of an incoming owner ----

  /** The second round sees the target as it was, with its declaration granted. */
  ghost predicate Deferred(c: RoleGraph, d: RoleGraph, c1: RoleGraph, k: GrantKey) {
    && k in d.grants && Get(c1.grants, k) == Some(Lookup(c.grants, k) + d.grants[k])
    && k in c.entryGrantors && Get(c1.entryGrantors, k) == Get(c.entryGrantors, k)
    && c1.inherent == c.inherent && !IsStar(k) && Lookup(d.grantAbsences, Star(k)) == {}
  }

  lemma TakenLater(c: RoleGraph, d: RoleGraph, c1: RoleGraph, k: GrantKey)
    requires Deferred(c, d, c1, k) && GrantsDisjoint(d)
    ensures ToRevoke(c1, d, k) == Taken(c, d, k) && Taken(c, d, k) !! d.grants[k]
  {
    var held, declared := Lookup(c.grants, k), d.grants[k];
    assert held + declared - declared == held - declared;
    assert Excess(c1, d, k) == Excess(c, d, k);
    assert Lookup(d.grantAbsences, k) * (held + declared) == Lookup(d.grantAbsences, k) * held;
  }

  /** No revoke is held back once the schemas are placed. */
  lemma NothingHeldBack(c: RoleGraph, d: RoleGraph)
    requires SchemasPlaced(c, d)
    ensures Revokes(c, d) == AllRevokes(c, d)
  {
    FilterAll(AllRevokes(c, d), Kept(c, d));
  }

  lemma DeferredRow(c: RoleGraph, d: RoleGraph, c1: RoleGraph, k: GrantKey)
    requires Deferred(c, d, c1, k) && GrantsDisjoint(d) && StarsDeclared(c1, d) && SchemasPlaced(c1, d)
    ensures var held, taken := Lookup(c.grants, k) + d.grants[k], Taken(c, d, k);
      Get(Round(c1, d).grants, k)
        == if taken == {} then Some(held) else RowAfterSplit(held, c.entryGrantors[k], taken)
  {
    ViewAfterRound(c1, d, k);
    NothingHeldBack(c1, d);
    DeferredView(c, d, c1, k);
  }

  /** The revokes of the second round, folded over the deferred target. */
  lemma DeferredView(c: RoleGraph, d: RoleGraph, c1: RoleGraph, k: GrantKey)
    requires Deferred(c, d, c1, k) && GrantsDisjoint(d) && StarsDeclared(c1, d) && SchemasPlaced(c1, d)
    ensures var held, taken := Lookup(c.grants, k) + d.grants[k], Taken(c, d, k);
      Fold(EntryStep(k), EntryView(Granted(c1, d, k), Get(c1.entryGrantors, k)), AllRevokes(c1, d)).row
        == if taken == {} then Some(held) else RowAfterSplit(held, c.entryGrantors[k], taken)
  {
    var held, taken := Lookup(c.grants, k) + d.grants[k], Taken(c, d, k);
    TakenLater(c, d, c1, k);
    NoneThroughStar(c1, d, k);
    assert held + d.grants[k] == held;
    OwnRequest(c1, d, k, EntryView(Some(held), Some(c.entryGrantors[k])));
    if taken != {} {
      SplitLeaves(c1, d, k, held, taken);
    }
  }

  lemma NoneThroughStar(c: RoleGraph, d: RoleGraph, k: GrantKey)
    requires StarsDeclared(c, d) && Lookup(d.grantAbsences, Star(k)) == {}
    ensures ToRevoke(c, d, Star(k)) == {}
  {
    forall p ensures p !in ToRevoke(c, d, Star(k)) {
      StarRevokesAsserted(c, d, Star(k), p);
    }
  }

  lemma RecordedSecond(c: RoleGraph, d: RoleGraph, k: GrantKey)
    requires GrantsPlannable(c, d) && GrantsPlannable(Round(c, d), d) && SchemasPlaced(Round(c, d), d)
    requires k in d.grants && Suppressed(c, d, k) && k in c.entryGrantors
    ensures GrantSatisfied(Round(Round(c, d), d), d, k) <==> !HeldBack(c, d, k)
  {
    var c1 := Round(c, d);
    SuppressedNotTouched(c, d, k);
    RowKept(c, d, k);
    RunKeeps(c, PlanFor(c, d));
    assert Deferred(c, d, c1, k);
    DeferredRow(c, d, c1, k);
    DeferredSettles(c, d, c1, Round(c1, d), k);
  }

  lemma DeferredSettles(c: RoleGraph, d: RoleGraph, c1: RoleGraph, r: RoleGraph, k: GrantKey)
    requires Deferred(c, d, c1, k) && GrantsDisjoint(d) && Suppressed(c, d, k)
    requires var held, taken := Lookup(c.grants, k) + d.grants[k], Taken(c, d, k);
      Get(r.grants, k) == if taken == {} then Some(held) else RowAfterSplit(held, c.entryGrantors[k], taken)
    ensures GrantSatisfied(r, d, k) <==> !HeldBack(c, d, k)
  {
    TakenLater(c, d, c1, k);
    if Taken(c, d, k) != {} {
      LosesIff(Lookup(c.grants, k), c.entryGrantors[k], d.grants[k], Taken(c, d, k));
    }
  }

  /** A target whose revokes were not held back is not touched again. */
  lemma UntouchedSecond(c: RoleGraph, d: RoleGraph, k: GrantKey)
    requires GrantsPlannable(c, d) && k in d.grants && !Suppressed(c, d, k)
    ensures !Touches(Revokes(Round(c, d), d), k)
  {
    var c1 := Round(c, d);
    PlainAfterRound(c, d);
    SchemasAfterRound(c, d);
    forall p ensures !Hits(AllRevokes(c1, d), k, p) {
      NoHitsAfterRound(c, d, k, p);
    }
    if Touches(Revokes(c1, d), k) {
      TouchHits(c1, d, k);
    }
  }

  lemma SuppressedSecond(c: RoleGraph, d: RoleGraph, k: GrantKey)
    requires StarsDeclared(c, d) && k in d.grants && d.grants[k] == {} && Suppressed(c, d, k) && k !in c.entryGrantors
    requires GrantsPlannable(Round(c, d), d) && SchemasPlaced(Round(c, d), d)
    ensures k in Round(Round(c, d), d).grants <==> !WouldEmpty(c, d, k)
  {
    var c1 := Round(c, d);
    SuppressedUntouched(c, d, k);
    RunKeeps(c, PlanFor(c, d));
    EntriesNeverAppear(c, PlanFor(c, d));
    SecondAfter(c, d, c1, k);
  }

  lemma SecondAfter(c: RoleGraph, d: RoleGraph, c1: RoleGraph, k: GrantKey)
    requires GrantsPlannable(c1, d) && StarsDeclared(c, d) && k in d.grants && d.grants[k] == {}
    requires Get(c1.grants, k) == Some(Lookup(c.grants, k)) && SchemasPlaced(c1, d)
    requires c1.inherent == c.inherent && k !in c1.entryGrantors
    ensures k in Round(c1, d).grants <==> !WouldEmpty(c, d, k)
  {
    GrantAfterRound(c1, d, k);
    SecondRow(c, d, c1, k, Round(c1, d));
  }

  lemma SecondRow(c: RoleGraph, d: RoleGraph, c1: RoleGraph, k: GrantKey, r: RoleGraph)
    requires GrantsPlannable(c1, d) && StarsDeclared(c, d) && k in d.grants && d.grants[k] == {}
    requires Get(c1.grants, k) == Some(Lookup(c.grants, k)) && SchemasPlaced(c1, d)
    requires c1.inherent == c.inherent && k !in c1.entryGrantors
    requires LeavesOf(Revokes(c1, d), k, Granted(c1, d, k), Get(r.grants, k))
    ensures k in r.grants <==> !WouldEmpty(c, d, k)
  {
    assert !Suppressed(c1, d, k);
    if WouldEmpty(c, d, k) {
      SecondEmpties(c, d, c1, k);
    } else {
      SecondKeeps(c, d, c1, k, r);
    }
  }

  lemma SecondKeeps(c: RoleGraph, d: RoleGraph, c1: RoleGraph, k: GrantKey, r: RoleGraph)
    requires GrantsPlannable(c1, d) && StarsDeclared(c, d) && k in d.grants && d.grants[k] == {}
    requires k in c1.grants && c1.grants[k] == Lookup(c.grants, k)
    requires c1.inherent == c.inherent && k !in c1.entryGrantors
    requires !WouldEmpty(c, d, k) && LeavesOf(Revokes(c1, d), k, Granted(c1, d, k), Get(r.grants, k))
    ensures k in r.grants
  {
    if Touches(Revokes(c1, d), k) {
      TouchHits(c1, d, k);
      var q :| Hits(AllRevokes(c1, d), k, q);
      SomeUnhit(c, d, c1, k, q);
      var p :| p in c1.grants[k] && !Hits(AllRevokes(c1, d), k, p);
      KeptHits(c1, d, k, p);
    }
  }

  lemma SecondEmpties(c: RoleGraph, d: RoleGraph, c1: RoleGraph, k: GrantKey)
    requires GrantsPlannable(c1, d) && StarsDeclared(c, d) && k in d.grants && d.grants[k] == {}
    requires k in c1.grants && c1.grants[k] == Lookup(c.grants, k)
    requires c1.inherent == c.inherent && k !in c1.entryGrantors
    requires !Suppressed(c1, d, k) && WouldEmpty(c, d, k)
    ensures Touches(Revokes(c1, d), k) && forall p :: p in c1.grants[k] ==> Hits(Revokes(c1, d), k, p)
  {
    forall p | p in c1.grants[k] ensures Hits(Revokes(c1, d), k, p) {
      SecondHits(c, d, c1, k, p);
      KeptHits(c1, d, k, p);
    }
    var p :| p in c1.grants[k];
    assert Hits(Revokes(c1, d), k, p);
  }

  lemma SecondHits(c: RoleGraph, d: RoleGraph, c1: RoleGraph, k: GrantKey, p: Privilege)
    requires GrantsPlannable(c1, d) && StarsDeclared(c, d) && k in d.grants && d.grants[k] == {}
    requires k in c1.grants && c1.grants[k] == Lookup(c.grants, k)
    requires c1.inherent == c.inherent && k !in c1.entryGrantors
    ensures Hits(AllRevokes(c1, d), k, p) <==>
      && k in c.grants && k !in c.inherent && p in c.grants[k]
      && (p in Excess(c, d, k) || p in Lookup(d.grantAbsences, k) || p in Lookup(d.grantAbsences, Star(k)))
  {
    SameExcess(c, d, c1, k);
    if IsStar(k) {
      StarNoHits(c1, d, k, p);
    } else {
      PlainHits(c1, d, k, p);
    }
  }

  lemma SameExcess(c: RoleGraph, d: RoleGraph, c1: RoleGraph, k: GrantKey)
    requires k in c1.grants && c1.grants[k] == Lookup(c.grants, k) && c1.inherent == c.inherent
    ensures Excess(c1, d, k) == Excess(c, d, k)
  {
  }

  lemma SomeUnhit(c: RoleGraph, d: RoleGraph, c1: RoleGraph, k: GrantKey, q: Privilege)
    requires GrantsPlannable(c1, d) && StarsDeclared(c, d) && k in d.grants && d.grants[k] == {}
    requires k in c1.grants && c1.grants[k] == Lookup(c.grants, k)
    requires c1.inherent == c.inherent && k !in c1.entryGrantors
    requires Hits(AllRevokes(c1, d), k, q) && !WouldEmpty(c, d, k)
    ensures exists p :: p in c1.grants[k] && !Hits(AllRevokes(c1, d), k, p)
  {
    SecondHits(c, d, c1, k, q);
    var p :| p in c.grants[k] && p !in Excess(c, d, k) + Lookup(d.grantAbsences, k) + Lookup(d.grantAbsences, Star(k));
    SecondHits(c, d, c1, k, p);
  }
}
