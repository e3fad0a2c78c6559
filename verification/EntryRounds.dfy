/**
 A grant target together with the per-grantor entries recorded on it, stepping
 through a plan: a targeted revoke rewrites the row from the entries it leaves.
 */
module EntryRounds {
  import opened Sequences
  import opened Orders
  import opened Model
  import opened Diff
  import opened Steps
  import opened Views
  import opened Sections
  import opened Revocation

  datatype EntryView = EntryView(row: Option<Privileges>, entries: Option<map<string, Privileges>>)

  function EntryViewOf(g: RoleGraph, k: GrantKey): EntryView {
    EntryView(Get(g.grants, k), Get(g.entryGrantors, k))
  }

  function EntriesLeft(entries: Option<map<string, Privileges>>, privileges: Privileges, grantor: Option<string>):
    Option<map<string, Privileges>>
  {
    if entries.Some? && grantor.Some? then Some(ReduceEntry(entries.value, grantor.value, privileges)) else entries
  }

  /** The surviving entries decide when there are any and the revoke names its grantor. */
  function RowLeft(v: EntryView, privileges: Privileges, grantor: Option<string>): Option<Privileges> {
    var left := Recorded(EntriesLeft(v.entries, privileges, grantor));
    if v.row.None? then None
    else if grantor.Some? && left != {} then Some(left)
    else Reduced(v.row.value, privileges)
  }

  function RevokedView(v: EntryView, privileges: Privileges, grantor: Option<string>): EntryView {
    var left := EntriesLeft(v.entries, privileges, grantor);
    EntryView(RowLeft(v, privileges, grantor), if left == Some(map[]) then None else left)
  }

  function EntryAfter(k: GrantKey, v: EntryView, change: Change): EntryView {
    match change
    case Grant(l, privileges) =>
      if l == k then v.(row := Some((if v.row.Some? then v.row.value else {}) + privileges)) else v
    case Revoke(l, privileges, grantor) => if l == k then RevokedView(v, privileges, grantor) else v
    case DropOwned(role) => if k.role.AsString() == role then EntryView(None, None) else v
    case _ => v
  }

  ghost function EntryStep(k: GrantKey): (EntryView, Change) -> EntryView {
    (v: EntryView, change: Change) => EntryAfter(k, v, change)
  }

  lemma EntryLocal(g: RoleGraph, change: Change, k: GrantKey)
    ensures EntryView(Get(GrantsAfter(g, change), k), Get(EntriesAfter(g, change), k))
         == EntryAfter(k, EntryViewOf(g, k), change)
  {
    if change.Revoke? {
      RevokeLocal(g, change.key, change.privileges, change.grantor, k);
    }
  }

  lemma RevokeLocal(g: RoleGraph, l: GrantKey, privileges: Privileges, grantor: Option<string>, k: GrantKey)
    ensures var change := Revoke(l, privileges, grantor);
      EntryView(Get(GrantsAfter(g, change), k), Get(EntriesAfter(g, change), k))
        == EntryAfter(k, EntryViewOf(g, k), change)
  {
  }

  lemma {:induction false} EntryRun(g: RoleGraph, changes: seq<Change>, k: GrantKey)
    ensures EntryViewOf(Run(g, changes), k) == Fold(EntryStep(k), EntryViewOf(g, k), changes)
  {
    if changes != [] {
      EntryRun(g, changes[..|changes| - 1], k);
      EntryLocal(Run(g, changes[..|changes| - 1]), changes[|changes| - 1], k);
    }
  }

  // ---- Through the sections of a plan ----

  lemma EntryStepIgnores(k: GrantKey, kind: Kind)
    requires kind != GrantKind && kind != RevokeKind && kind != RetireKind
    ensures Ignores(EntryStep(k), kind)
  {
  }

  lemma EntrySections(c: RoleGraph, d: RoleGraph, k: GrantKey, v: EntryView)
    ensures Fold(EntryStep(k), v, PlanFor(c, d))
         == Fold(EntryStep(k), Fold(EntryStep(k), v, Grants(c, d)), Revokes(c, d))
  {
    var step := EntryStep(k);
    FoldSections(step, v, c, d);
    SectionKinds(c, d);
    EntryStepIgnores(k, Creation);
    EntryStepIgnores(k, Alteration);
    EntryStepIgnores(k, SchemaKind);
    EntryStepIgnores(k, OwnerKind);
    EntryStepIgnores(k, SetDefaultKind);
    EntryStepIgnores(k, MemberKind);
    EntryStepIgnores(k, RevokeDefaultKind);
    EntryStepIgnores(k, DropKind);
    Skip(step, v, Creates(c, d), Creation);
    Skip(step, v, Alters(c, d), Alteration);
    Skip(step, v, SchemaChanges(c, d), SchemaKind);
    Skip(step, v, OwnerGrants(c, d), OwnerKind);
    Skip(step, Fold(step, v, Grants(c, d)), SetDefaults(c, d), SetDefaultKind);
    var v1 := Fold(step, Fold(step, v, Grants(c, d)), Revokes(c, d));
    Skip(step, v1, Removes(c, d), MemberKind);
    Skip(step, v1, Adds(c, d), MemberKind);
    Skip(step, v1, RevokeDefaults(c, d), RevokeDefaultKind);
    Skip(step, v1, Drops(c, d), DropKind);
  }

  /** A target once its missing privileges are granted. */
  function Granted(c: RoleGraph, d: RoleGraph, k: GrantKey): Option<Privileges> {
    if k in d.grants then Some(Lookup(c.grants, k) + d.grants[k]) else Get(c.grants, k)
  }

  lemma EntryGrantLocal(c: RoleGraph, d: RoleGraph, k: GrantKey, l: GrantKey)
    requires l != k
    ensures Inert(EntryStep(k), GrantFn(c, d)(l))
  {
  }

  lemma EntryGrantReaches(c: RoleGraph, d: RoleGraph, k: GrantKey)
    requires k in d.grants
    ensures Fold(EntryStep(k), EntryViewOf(c, k), GrantFn(c, d)(k)) == EntryViewOf(c, k).(row := Granted(c, d, k))
  {
    var a, v := GrantFn(c, d)(k), EntryViewOf(c, k);
    if a != [] {
      assert a == [a[0]];
      FoldSingle(EntryStep(k), v, a[0]);
    }
    var held, declared := Lookup(c.grants, k), d.grants[k];
    assert held + declared == held + (declared - held);
    assert declared - held == {} ==> held + declared == held;
    assert k !in c.grants ==> {} + declared == declared;
  }

  /** The grant section adds what is missing and leaves the entries alone. */
  lemma EntryGrants(c: RoleGraph, d: RoleGraph, k: GrantKey)
    ensures Fold(EntryStep(k), EntryViewOf(c, k), Grants(c, d)) == EntryViewOf(c, k).(row := Granted(c, d, k))
  {
    var step, v := EntryStep(k), EntryViewOf(c, k);
    forall l | l != k ensures Inert(step, GrantFn(c, d)(l)) {
      EntryGrantLocal(c, d, k, l);
    }
    FoldFlatMapOne(step, v, Sorted(d.grants.Keys, GrantKeyLe), GrantFn(c, d), k);
    if k in d.grants {
      EntryGrantReaches(c, d, k);
    }
  }

  // ---- Through a list of revokes ----

  /** Some revoke targeted at grantor `g` takes `p` from `k`. */
  ghost predicate HitBy(changes: seq<Change>, k: GrantKey, g: string, p: Privilege) {
    exists change ::
      change in changes && change.Revoke? && change.key == k && change.grantor == Some(g) && p in change.privileges
  }

  predicate Records(entries: Option<map<string, Privileges>>, g: string, p: Privilege) {
    entries.Some? && g in entries.value && p in entries.value[g]
  }

  lemma RecordedIff(entries: Option<map<string, Privileges>>, p: Privilege)
    ensures p in Recorded(entries) <==> exists g :: Records(entries, g, p)
  {
    if p in Recorded(entries) {
      var g :| g in entries.value && p in entries.value[g];
      assert Records(entries, g, p);
    }
  }

  /** Plain revokes take nothing that an entry records. */
  ghost predicate PlainSpares(changes: seq<Change>, k: GrantKey, recorded: Privileges) {
    forall change ::
      change in changes && change.Revoke? && change.key == k && change.grantor.None? ==> change.privileges !! recorded
  }

  /** The entries are those of the start less what each grantor was told to revoke. */
  ghost predicate EntriesFollow(start: EntryView, changes: seq<Change>, k: GrantKey, v: EntryView) {
    forall g, p :: Records(v.entries, g, p) <==> Records(start.entries, g, p) && !HitBy(changes, k, g, p)
  }

  /** The row holds nothing but what is still recorded or was never hit, and all that was held and is still recorded. */
  ghost predicate RowFollows(start: EntryView, changes: seq<Change>, k: GrantKey, v: EntryView) {
    && (v.row.Some? ==> start.row.Some?)
    && (v.row.Some? ==> forall p :: p in v.row.value ==>
          p in Recorded(v.entries) || (p in start.row.value && !Hits(changes, k, p)))
    && (start.row.Some? ==> forall p :: p in start.row.value && p in Recorded(v.entries) ==>
          v.row.Some? && p in v.row.value)
  }

  lemma HitBySnoc(init: seq<Change>, last: Change, k: GrantKey, g: string, p: Privilege)
    ensures HitBy(init + [last], k, g, p) <==>
      (HitBy(init, k, g, p) || (last.Revoke? && last.key == k && last.grantor == Some(g) && p in last.privileges))
  {
    assert last in init + [last];
    assert forall change :: change in init ==> change in init + [last];
  }

  lemma HitsPush(init: seq<Change>, last: Change, k: GrantKey, p: Privilege)
    ensures Hits(init + [last], k, p) <==>
      (Hits(init, k, p) || (last.Revoke? && last.key == k && p in last.privileges))
  {
    assert last in init + [last];
    assert forall change :: change in init ==> change in init + [last];
  }

  lemma ReducedRecords(entries: Option<map<string, Privileges>>, privileges: Privileges, grantor: Option<string>,
                       g: string, p: Privilege)
    ensures Records(EntriesLeft(entries, privileges, grantor), g, p)
      <==> Records(entries, g, p) && !(grantor == Some(g) && p in privileges)
  {
    if Records(entries, g, p) && grantor == Some(g) {
      assert p in entries.value[g] - privileges <==> p !in privileges;
    }
  }

  lemma EntriesStepFollow(start: EntryView, init: seq<Change>, last: Change, k: GrantKey, v: EntryView)
    requires last.Revoke? && EntriesFollow(start, init, k, v)
    ensures EntriesFollow(start, init + [last], k, EntryAfter(k, v, last))
  {
    forall g, p
      ensures Records(EntryAfter(k, v, last).entries, g, p)
        <==> Records(start.entries, g, p) && !HitBy(init + [last], k, g, p)
    {
      HitBySnoc(init, last, k, g, p);
      ReducedRecords(v.entries, last.privileges, last.grantor, g, p);
    }
  }

  lemma LeftRecorded(v: EntryView, privileges: Privileges, grantor: Option<string>, p: Privilege)
    ensures Recorded(RevokedView(v, privileges, grantor).entries) ==
      Recorded(EntriesLeft(v.entries, privileges, grantor))
    ensures p in Recorded(EntriesLeft(v.entries, privileges, grantor)) ==> p in Recorded(v.entries)
    ensures p in Recorded(v.entries) && p !in Recorded(EntriesLeft(v.entries, privileges, grantor))
      ==> grantor.Some? && p in privileges
  {
    var left := EntriesLeft(v.entries, privileges, grantor);
    RecordedIff(v.entries, p);
    RecordedIff(left, p);
    forall g ensures Records(left, g, p) <==> Records(v.entries, g, p) && !(grantor == Some(g) && p in privileges) {
      ReducedRecords(v.entries, privileges, grantor, g, p);
    }
    if left == Some(map[]) {
      assert Recorded(left) == {};
    }
  }

  lemma RowStepFollow(start: EntryView, init: seq<Change>, last: Change, k: GrantKey, v: EntryView)
    requires last.Revoke? && last.key == k && RowFollows(start, init, k, v)
    requires last.grantor.None? ==> last.privileges !! Recorded(v.entries)
    ensures RowFollows(start, init + [last], k, RevokedView(v, last.privileges, last.grantor))
  {
    var next := RevokedView(v, last.privileges, last.grantor);
    forall p
      ensures next.row.Some? && p in next.row.value ==>
        p in Recorded(next.entries) || (p in start.row.value && !Hits(init + [last], k, p))
      ensures start.row.Some? && p in start.row.value && p in Recorded(next.entries) ==>
        next.row.Some? && p in next.row.value
    {
      HitsPush(init, last, k, p);
      RowLoses(v, last.privileges, last.grantor, p);
    }
  }

  /** What one revoke does to one privilege of the row. */
  lemma RowLoses(v: EntryView, privileges: Privileges, grantor: Option<string>, p: Privilege)
    requires grantor.None? ==> privileges !! Recorded(v.entries)
    ensures var next := RevokedView(v, privileges, grantor);
      && (next.row.Some? ==> v.row.Some?)
      && (next.row.Some? && p in next.row.value ==>
            (p in Recorded(next.entries) || (p in v.row.value && p !in Recorded(v.entries) && p !in privileges)))
      && (p in Recorded(next.entries) ==> p in Recorded(v.entries))
      && (v.row.Some? && p in v.row.value && p in Recorded(next.entries) ==> next.row.Some? && p in next.row.value)
  {
    LeftRecorded(v, privileges, grantor, p);
    if v.row.Some? {
      assert p in v.row.value - privileges <==> p in v.row.value && p !in privileges;
    }
  }

  /** Folding revokes keeps both relations. */
  lemma {:induction false} FollowRevokes(start: EntryView, changes: seq<Change>, k: GrantKey)
    requires AllOf(changes, RevokeKind) && PlainSpares(changes, k, Recorded(start.entries))
    ensures var v := Fold(EntryStep(k), start, changes);
      EntriesFollow(start, changes, k, v) && RowFollows(start, changes, k, v)
  {
    if changes == [] {
      forall g, p ensures !HitBy(changes, k, g, p) {}
    } else {
      var init, last := changes[..|changes| - 1], changes[|changes| - 1];
      assert changes == init + [last] && last in changes && KindOf(last) == RevokeKind;
      assert forall change :: change in init ==> change in changes;
      FollowRevokes(start, init, k);
      var v := Fold(EntryStep(k), start, init);
      EntriesStepFollow(start, init, last, k, v);
      if last.key == k {
        StillSpared(start, init, k, v, last.privileges);
        RowStepFollow(start, init, last, k, v);
      } else {
        RowElsewhere(start, init, last, k, v);
      }
    }
  }

  lemma StillSpared(start: EntryView, init: seq<Change>, k: GrantKey, v: EntryView, privileges: Privileges)
    requires EntriesFollow(start, init, k, v)
    ensures privileges !! Recorded(start.entries) ==> privileges !! Recorded(v.entries)
  {
    forall p | p in Recorded(v.entries) ensures p in Recorded(start.entries) {
      RecordedIff(v.entries, p);
      var g :| Records(v.entries, g, p);
      assert Records(start.entries, g, p);
      RecordedIff(start.entries, p);
    }
  }

  lemma RowElsewhere(start: EntryView, init: seq<Change>, last: Change, k: GrantKey, v: EntryView)
    requires last.Revoke? && last.key != k && RowFollows(start, init, k, v)
    ensures RowFollows(start, init + [last], k, v)
  {
    forall p ensures Hits(init + [last], k, p) <==> Hits(init, k, p) {
      HitsPush(init, last, k, p);
    }
  }
}
