/**
 Exactly which privileges a plan revokes, from which target, and through which
 grantor.
 */
module Revocation {
  import opened Sequences
  import opened Orders
  import opened Model
  import opened Diff

  /** Some revoke among `changes` takes `p` from target `k`. */
  ghost predicate Hits(changes: seq<Change>, k: GrantKey, p: Privilege) {
    exists change :: change in changes && change.Revoke? && change.key == k && p in change.privileges
  }

  // ---- One target: the split conserves the request ----

  lemma InSplitRemainder(c: RoleGraph, k: GrantKey, privileges: Privileges, change: Change)
    requires k in c.entryGrantors
    ensures change in FlatMap(Sorted(c.entryGrantors[k].Keys, StringLe), GrantorFn(c, k, privileges)) <==>
      && change.Revoke? && change.key == k && change.grantor.Some?
      && change.grantor.value in c.entryGrantors[k]
      && change.privileges == privileges * c.entryGrantors[k][change.grantor.value]
      && change.privileges != {}
  {
    InFlatMap(Sorted(c.entryGrantors[k].Keys, StringLe), GrantorFn(c, k, privileges), change);
    if change.Revoke? && change.grantor.Some? && change.grantor.value in c.entryGrantors[k] {
      assert change.grantor.value in Sorted(c.entryGrantors[k].Keys, StringLe);
      if change.key == k && change.privileges == privileges * c.entryGrantors[k][change.grantor.value]
         && change.privileges != {} {
        assert change in GrantorFn(c, k, privileges)(change.grantor.value);
      }
    }
  }

  /**
   Outside a schema transfer, a recorded target is revoked entry by entry: one
   revoke per grantor holding any requested privilege, for exactly the requested
   part of its entry, and a plain revoke for what no entry records.
   */
  lemma SplitIsExact(c: RoleGraph, d: RoleGraph, k: GrantKey, privileges: Privileges, change: Change)
    requires k in c.entryGrantors && !Transferred(c, d, k)
    ensures change in SplitConcrete(c, d, k, privileges) <==>
      && change.Revoke? && change.key == k && change.privileges != {}
      && (if change.grantor.Some?
          then change.grantor.value in c.entryGrantors[k]
               && change.privileges == privileges * c.entryGrantors[k][change.grantor.value]
          else change.privileges == privileges - Attributed(c, k))
  {
    InSplitRemainder(c, k, privileges, change);
  }

  lemma SplitCovers(c: RoleGraph, d: RoleGraph, k: GrantKey, privileges: Privileges, p: Privilege)
    requires k in c.entryGrantors && !Transferred(c, d, k) && p in privileges
    ensures Hits(SplitConcrete(c, d, k, privileges), k, p)
  {
    var change: Change;
    if p in Attributed(c, k) {
      var g :| g in c.entryGrantors[k] && p in c.entryGrantors[k][g];
      change := Revoke(k, privileges * c.entryGrantors[k][g], Some(g));
    } else {
      change := Revoke(k, privileges - Attributed(c, k), None);
    }
    assert p in change.privileges;
    SplitIsExact(c, d, k, privileges, change);
  }

  /** The emitted revokes together take exactly the requested privileges. */
  lemma SplitConserves(c: RoleGraph, d: RoleGraph, k: GrantKey, privileges: Privileges, t: GrantKey, p: Privilege)
    ensures Hits(SplitConcrete(c, d, k, privileges), t, p) <==> t == k && p in privileges
  {
    var out := SplitConcrete(c, d, k, privileges);
    if Transferred(c, d, k) || k !in c.entryGrantors {
      assert Revoke(k, privileges, None) in out;
    } else {
      forall change | change in out
        ensures change.Revoke? && change.key == k && change.privileges <= privileges
      {
        SplitIsExact(c, d, k, privileges, change);
      }
      if t == k && p in privileges {
        SplitCovers(c, d, k, privileges, p);
      }
    }
  }

  // ---- A wildcard expands once, over the known named targets ----

  lemma SplitHits(c: RoleGraph, d: RoleGraph, k: GrantKey, privileges: Privileges, t: GrantKey, p: Privilege)
    ensures Hits(Split(c, d, k, privileges), t, p) <==>
      if Expands(c, k) then t in Targets(c, k) && t !in c.inherent && p in privileges * HeldOn(c, t)
      else t == k && p in privileges
  {
    if !Expands(c, k) {
      SplitConserves(c, d, k, privileges, t, p);
    } else {
      var keys, f := Sorted(Targets(c, k), GrantKeyLe), TargetFn(c, d, privileges);
      if Hits(Split(c, d, k, privileges), t, p) {
        var change :|
          change in Split(c, d, k, privileges) && change.Revoke? && change.key == t && p in change.privileges;
        InFlatMap(keys, f, change);
        var u :| u in keys && change in f(u);
        assert Hits(SplitConcrete(c, d, u, privileges * HeldOn(c, u)), t, p);
        SplitConserves(c, d, u, privileges * HeldOn(c, u), t, p);
      }
      if t in Targets(c, k) && t !in c.inherent && p in privileges * HeldOn(c, t) {
        SplitConserves(c, d, t, privileges * HeldOn(c, t), t, p);
        var change :| change in SplitConcrete(c, d, t, privileges * HeldOn(c, t))
          && change.Revoke? && change.key == t && p in change.privileges;
        assert t in keys && change in f(t);
        InFlatMap(keys, f, change);
      }
    }
  }

  // ---- The whole revoke section ----

  /** What the wildcard assertion or wildcard excess over a named target adds to its own revocation. */
  ghost predicate HitThroughStar(c: RoleGraph, d: RoleGraph, t: GrantKey, p: Privilege) {
    && Star(t) in RevokeMap(c, d)
    && t in Targets(c, t) && t !in c.inherent
    && p in ToRevoke(c, d, Star(t)) && p in HeldOn(c, t)
  }

  /** Every hit comes from the revocation of one key. */
  lemma HitSource(c: RoleGraph, d: RoleGraph, t: GrantKey, p: Privilege) returns (k: GrantKey)
    requires Hits(AllRevokes(c, d), t, p)
    ensures k in RevokeMap(c, d)
    ensures if Expands(c, k) then t in Targets(c, k) && t !in c.inherent && p in ToRevoke(c, d, k) * HeldOn(c, t)
            else t == k && p in ToRevoke(c, d, k)
  {
    var keys, f := Sorted(RevokeMap(c, d).Keys, GrantKeyLe), RevokeFn(c, d);
    var change :| change in AllRevokes(c, d) && change.Revoke? && change.key == t && p in change.privileges;
    InFlatMap(keys, f, change);
    k :| k in keys && change in f(k);
    assert Hits(Split(c, d, k, ToRevoke(c, d, k)), t, p);
    SplitHits(c, d, k, ToRevoke(c, d, k), t, p);
  }

  /** A privilege is revoked from a named target iff it is excess or asserted absent there, or through its wildcard. */
  lemma NamedHits(c: RoleGraph, d: RoleGraph, t: GrantKey, p: Privilege)
    requires !IsStar(t)
    ensures Hits(AllRevokes(c, d), t, p) <==> p in ToRevoke(c, d, t) || HitThroughStar(c, d, t, p)
  {
    if Hits(AllRevokes(c, d), t, p) {
      var k := HitSource(c, d, t, p);
      if Expands(c, k) {
        assert k == Star(t);
      }
    }
    if p in ToRevoke(c, d, t) {
      RevokesNonempty(c, d, t, p);
      HitsFrom(c, d, t, t, p);
    }
    if HitThroughStar(c, d, t, p) {
      HitsThroughStar(c, d, t, p);
    }
  }

  lemma HitsThroughStar(c: RoleGraph, d: RoleGraph, t: GrantKey, p: Privilege)
    requires !IsStar(t) && HitThroughStar(c, d, t, p)
    ensures Hits(AllRevokes(c, d), t, p)
  {
    assert t in Targets(c, Star(t));
    HitsFrom(c, d, Star(t), t, p);
  }

  lemma RevokesNonempty(c: RoleGraph, d: RoleGraph, k: GrantKey, p: Privilege)
    requires p in ToRevoke(c, d, k)
    ensures k in RevokeMap(c, d)
  {
  }

  lemma HitsFrom(c: RoleGraph, d: RoleGraph, k: GrantKey, t: GrantKey, p: Privilege)
    requires k in RevokeMap(c, d)
    requires if Expands(c, k) then t in Targets(c, k) && t !in c.inherent && p in ToRevoke(c, d, k) * HeldOn(c, t)
             else t == k && p in ToRevoke(c, d, k)
    ensures Hits(AllRevokes(c, d), t, p)
  {
    var keys, f := Sorted(RevokeMap(c, d).Keys, GrantKeyLe), RevokeFn(c, d);
    SplitHits(c, d, k, ToRevoke(c, d, k), t, p);
    var change :| change in Split(c, d, k, ToRevoke(c, d, k))
      && change.Revoke? && change.key == t && p in change.privileges;
    assert k in keys && change in f(k);
    InFlatMap(keys, f, change);
  }

  /** A literal wildcard is revoked only where no named and no owner-inherent entry is known. */
  lemma StarHits(c: RoleGraph, d: RoleGraph, t: GrantKey, p: Privilege)
    requires IsStar(t)
    ensures Hits(AllRevokes(c, d), t, p) <==> p in ToRevoke(c, d, t) && !Expands(c, t)
  {
    if Hits(AllRevokes(c, d), t, p) {
      var k := HitSource(c, d, t, p);
    }
    if p in ToRevoke(c, d, t) && !Expands(c, t) {
      RevokesNonempty(c, d, t, p);
      HitsFrom(c, d, t, t, p);
    }
  }

  // ---- Justification ----

  /** No revoke takes anything from an entry the grantee holds as owner. */
  lemma OwnersAreSafe(c: RoleGraph, d: RoleGraph, t: GrantKey, p: Privilege)
    requires t in c.inherent
    ensures !Hits(AllRevokes(c, d), t, p)
  {
    if IsStar(t) {
      StarHits(c, d, t, p);
    } else {
      NamedHits(c, d, t, p);
    }
  }

  /** PUBLIC loses only what is asserted absent, for the target or for its wildcard. */
  lemma PublicLosesOnlyAsserted(c: RoleGraph, d: RoleGraph, t: GrantKey, p: Privilege)
    requires t.role.Public? && Hits(AllRevokes(c, d), t, p)
    ensures p in Lookup(d.grantAbsences, t) || p in Lookup(d.grantAbsences, Star(t))
  {
    if IsStar(t) {
      StarHits(c, d, t, p);
    } else {
      NamedHits(c, d, t, p);
    }
  }

  /** Outside the wildcard case a revoke never exceeds what the current graph records on the target. */
  lemma RevokesOnlyHeld(c: RoleGraph, d: RoleGraph, t: GrantKey, p: Privilege)
    requires !IsStar(t) && Hits(AllRevokes(c, d), t, p)
    ensures p in HeldOn(c, t) && t !in c.inherent
  {
    NamedHits(c, d, t, p);
    if t in c.inherent {
      OwnersAreSafe(c, d, t, p);
    }
  }
}
