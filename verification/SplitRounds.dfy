/**
 What a planned split leaves of a target with recorded entries: each targeted
 revoke rewrites the row from the entries of the grantors still to come.
 */
module SplitRounds {
  import opened Sequences
  import opened Orders
  import opened Model
  import opened Diff
  import opened Views
  import opened Sections
  import opened EntryRounds

  type Entries = map<string, Privileges>

  /** Two grantors recorded something. */
  ghost predicate Shared(entries: Entries) {
    exists g, h :: g in entries && h in entries && g != h && entries[g] != {} && entries[h] != {}
  }

  /**
   A row of `held` once the privileges `taken` are revoked grantor by grantor:
   the entries decide as soon as one of them is met and something recorded
   survives, and with two grantors to ask the last one finds only its own.
   */
  ghost function RowAfterSplit(held: Privileges, entries: Entries, taken: Privileges): Option<Privileges> {
    var recorded := EntryUnion(entries);
    if recorded * taken != {} && recorded - taken != {} then Some(recorded - taken)
    else if recorded * taken != {} && Shared(entries) then None
    else Reduced(held, taken)
  }

  // ---- Grantor by grantor ----

  /** Some grantor among `xs` is asked to revoke. */
  ghost predicate Asked(entries: Entries, taken: Privileges, xs: seq<string>) {
    exists g :: g in xs && g in entries && taken * entries[g] != {}
  }

  /** Entries once the grantors `xs` have been asked. */
  ghost predicate EntriesOnce(entries: Entries, taken: Privileges, xs: seq<string>, left: Option<Entries>) {
    forall g, p :: Records(left, g, p) <==> Records(Some(entries), g, p) && !(g in xs && p in taken)
  }

  /** The view once the grantors `xs` have been asked. */
  ghost predicate SplitSoFar(held: Privileges, entries: Entries, taken: Privileges, xs: seq<string>, v: EntryView) {
    && EntriesOnce(entries, taken, xs, v.entries)
    && (!Asked(entries, taken, xs) ==> v.row == Some(held))
    && (Asked(entries, taken, xs) && Recorded(v.entries) != {} ==> v.row == Some(Recorded(v.entries)))
    && (Asked(entries, taken, xs) && Recorded(v.entries) == {} ==>
          v.row == if Shared(entries) then None else Reduced(held, EntryUnion(entries)))
  }

  /** The grantor `g` is not asked. */
  lemma NotAsked(held: Privileges, entries: Entries, taken: Privileges, xs: seq<string>, g: string, v: EntryView)
    requires g in entries && taken * entries[g] == {} && SplitSoFar(held, entries, taken, xs, v)
    ensures SplitSoFar(held, entries, taken, xs + [g], v)
  {
    assert forall p :: p in taken && p in entries[g] ==> p in taken * entries[g];
    assert forall h :: h in xs + [g] <==> h in xs || h == g;
    assert EntriesOnce(entries, taken, xs + [g], v.entries);
    if Asked(entries, taken, xs) {
      assert forall h :: h in xs ==> h in xs + [g];
    }
    assert Asked(entries, taken, xs + [g]) ==> Asked(entries, taken, xs);
  }

  /** The entries after the grantor `g` is asked. */
  lemma AskedEntries(entries: Entries, taken: Privileges, xs: seq<string>, g: string, v: EntryView)
    requires g in entries && EntriesOnce(entries, taken, xs, v.entries)
    ensures EntriesOnce(entries, taken, xs + [g], RevokedView(v, taken * entries[g], Some(g)).entries)
  {
    var next := RevokedView(v, taken * entries[g], Some(g)).entries;
    forall h, p
      ensures Records(next, h, p) <==> Records(Some(entries), h, p) && !(h in xs + [g] && p in taken)
    {
      ReducedRecords(v.entries, taken * entries[g], Some(g), h, p);
    }
  }

  /** The last grantor asked was the only one recorded, or the row held nothing but its entry. */
  lemma LastAsked(held: Privileges, entries: Entries, taken: Privileges, xs: seq<string>, g: string, v: EntryView)
    requires g in entries && g !in xs && taken * entries[g] != {} && SplitSoFar(held, entries, taken, xs, v)
    requires var next := RevokedView(v, taken * entries[g], Some(g));
      Recorded(next.entries) == {} && EntriesOnce(entries, taken, xs + [g], next.entries)
    ensures RevokedView(v, taken * entries[g], Some(g)).row
      == if Shared(entries) then None else Reduced(held, EntryUnion(entries))
  {
    var asked := taken * entries[g];
    NothingLeft(entries, taken, xs + [g], RevokedView(v, asked, Some(g)).entries);
    LeftRecorded(v, asked, Some(g), Select);
    assert asked == entries[g];
    if Asked(entries, taken, xs) {
      var h :| h in xs && h in entries && taken * entries[h] != {};
      assert Shared(entries);
      OnlyOwnLeft(entries, taken, xs, g, v.entries);
    } else {
      forall h | h in entries && h != g ensures entries[h] == {} {
        if h in xs {
          assert taken * entries[h] == {};
        }
      }
      assert EntryUnion(entries) == entries[g];
    }
  }

  lemma NothingLeft(entries: Entries, taken: Privileges, xs: seq<string>, left: Option<Entries>)
    requires EntriesOnce(entries, taken, xs, left) && Recorded(left) == {}
    ensures forall g :: g in entries ==> entries[g] <= taken && (entries[g] == {} || g in xs)
  {
    forall g | g in entries ensures entries[g] <= taken && (entries[g] == {} || g in xs) {
      forall p | p in entries[g] ensures p in taken && g in xs {
        assert Records(Some(entries), g, p);
        RecordedIff(left, p);
      }
    }
  }

  lemma OnlyOwnLeft(entries: Entries, taken: Privileges, xs: seq<string>, g: string, left: Option<Entries>)
    requires EntriesOnce(entries, taken, xs, left) && g in entries && g !in xs
    requires forall h :: h in entries ==> entries[h] <= taken && (entries[h] == {} || h in xs + [g])
    ensures Recorded(left) == entries[g]
  {
    forall p ensures p in Recorded(left) <==> p in entries[g] {
      RecordedIff(left, p);
      if p in entries[g] {
        assert Records(left, g, p);
      }
      if h :| Records(left, h, p) {
        assert Records(Some(entries), h, p);
      }
    }
  }

  lemma AskedNext(held: Privileges, entries: Entries, taken: Privileges, xs: seq<string>, g: string, v: EntryView)
    requires g in entries && g !in xs && taken * entries[g] != {} && SplitSoFar(held, entries, taken, xs, v)
    ensures SplitSoFar(held, entries, taken, xs + [g], RevokedView(v, taken * entries[g], Some(g)))
  {
    var asked := taken * entries[g];
    var next := RevokedView(v, asked, Some(g));
    AskedEntries(entries, taken, xs, g, v);
    assert g in xs + [g];
    LeftRecorded(v, asked, Some(g), Select);
    StillHeld(held, entries, taken, xs, g, v);
    if Recorded(next.entries) == {} {
      LastAsked(held, entries, taken, xs, g, v);
    }
  }

  /** A row is there as long as a grantor is still to be asked. */
  lemma StillHeld(held: Privileges, entries: Entries, taken: Privileges, xs: seq<string>, g: string, v: EntryView)
    requires g in entries && g !in xs && taken * entries[g] != {} && SplitSoFar(held, entries, taken, xs, v)
    ensures v.row.Some?
  {
    var p :| p in taken * entries[g];
    assert Records(v.entries, g, p);
    RecordedIff(v.entries, p);
  }

  ghost function AskFn(k: GrantKey, entries: Entries, taken: Privileges): string -> seq<Change> {
    g => if g !in entries || taken * entries[g] == {} then [] else [Revoke(k, taken * entries[g], Some(g))]
  }

  lemma {:induction false} AskAll(k: GrantKey, held: Privileges, entries: Entries, taken: Privileges, xs: seq<string>)
    requires Distinct(xs) && forall g :: g in xs ==> g in entries
    ensures SplitSoFar(held, entries, taken, xs,
              Fold(EntryStep(k), EntryView(Some(held), Some(entries)), FlatMap(xs, AskFn(k, entries, taken))))
  {
    if xs != [] {
      var init, g := xs[..|xs| - 1], xs[|xs| - 1];
      assert xs == init + [g] && g !in init && g in xs && forall h :: h in init ==> h in xs;
      AskAll(k, held, entries, taken, init);
      var start, done := EntryView(Some(held), Some(entries)), FlatMap(init, AskFn(k, entries, taken));
      FoldConcat(EntryStep(k), start, done, AskFn(k, entries, taken)(g));
      AskOne(k, held, entries, taken, init, g, Fold(EntryStep(k), start, done));
    }
  }

  lemma AskOne(k: GrantKey, held: Privileges, entries: Entries, taken: Privileges, xs: seq<string>, g: string,
               v: EntryView)
    requires g in entries && g !in xs && SplitSoFar(held, entries, taken, xs, v)
    ensures SplitSoFar(held, entries, taken, xs + [g], Fold(EntryStep(k), v, AskFn(k, entries, taken)(g)))
  {
    if taken * entries[g] == {} {
      NotAsked(held, entries, taken, xs, g, v);
    } else {
      FoldSingle(EntryStep(k), v, Revoke(k, taken * entries[g], Some(g)));
      AskedNext(held, entries, taken, xs, g, v);
    }
  }

  // ---- All grantors, and the remainder ----

  lemma AllAsked(entries: Entries, taken: Privileges, xs: seq<string>, left: Option<Entries>)
    requires EntriesOnce(entries, taken, xs, left) && forall g :: g in entries ==> g in xs
    ensures Recorded(left) == EntryUnion(entries) - taken
    ensures Asked(entries, taken, xs) <==> EntryUnion(entries) * taken != {}
  {
    forall p ensures p in Recorded(left) <==> p in EntryUnion(entries) - taken {
      RecordedIff(left, p);
      RecordedIff(Some(entries), p);
      if g :| Records(Some(entries), g, p) {
        assert p !in taken ==> Records(left, g, p);
      }
    }
    if Asked(entries, taken, xs) {
      var g :| g in xs && g in entries && taken * entries[g] != {};
      var p :| p in taken * entries[g];
      assert p in EntryUnion(entries) * taken;
    }
    if EntryUnion(entries) * taken != {} {
      var p :| p in EntryUnion(entries) * taken;
      var g :| g in entries && p in entries[g];
      assert p in taken * entries[g];
    }
  }

  /** What no entry records is revoked plainly, last. */
  lemma AfterRemainder(held: Privileges, entries: Entries, taken: Privileges, row: Option<Privileges>)
    requires taken != {}
    requires var recorded := EntryUnion(entries);
      if recorded * taken == {} then row == Some(held)
      else if recorded - taken != {} then row == Some(recorded - taken)
      else row == if Shared(entries) then None else Reduced(held, recorded)
    ensures var rest := taken - EntryUnion(entries);
      (if rest == {} || row.None? then row else Reduced(row.value, rest)) == RowAfterSplit(held, entries, taken)
  {
    var recorded := EntryUnion(entries);
    var rest := taken - recorded;
    if recorded * taken == {} {
      assert forall p :: p in taken && p in recorded ==> p in recorded * taken;
      assert rest == taken;
    } else if recorded - taken != {} {
      assert (recorded - taken) - rest == recorded - taken;
    } else {
      assert forall p :: p in recorded && p !in taken ==> p in recorded - taken;
      assert held - recorded - rest == held - taken;
      assert held - recorded == {} ==> held - taken == {};
      assert rest == {} ==> held - recorded == held - taken;
    }
  }

  /** Revoking a request grantor by grantor leaves exactly the row above. */
  lemma SplitLeaves(c: RoleGraph, d: RoleGraph, k: GrantKey, held: Privileges, taken: Privileges)
    requires k in c.entryGrantors && !Transferred(c, d, k) && taken != {}
    ensures Fold(EntryStep(k), EntryView(Some(held), Some(c.entryGrantors[k])), SplitConcrete(c, d, k, taken)).row
         == RowAfterSplit(held, c.entryGrantors[k], taken)
  {
    var entries, step := c.entryGrantors[k], EntryStep(k);
    var start := EntryView(Some(held), Some(entries));
    var xs := Sorted(entries.Keys, StringLe);
    FlatMapSame(xs, GrantorFn(c, k, taken), AskFn(k, entries, taken));
    var asks := FlatMap(xs, AskFn(k, entries, taken));
    AskAll(k, held, entries, taken, xs);
    var v := Fold(step, start, asks);
    AllAsked(entries, taken, xs, v.entries);
    AfterRemainder(held, entries, taken, v.row);
    FoldConcat(step, start, asks, Remainder(c, k, taken));
    RemainderStep(c, k, v, taken);
  }

  lemma RemainderStep(c: RoleGraph, k: GrantKey, v: EntryView, taken: Privileges)
    ensures var rest := taken - Attributed(c, k);
      Fold(EntryStep(k), v, Remainder(c, k, taken)).row
        == if rest == {} || v.row.None? then v.row else Reduced(v.row.value, rest)
  {
    if Remainder(c, k, taken) != [] {
      FoldSingle(EntryStep(k), v, Remainder(c, k, taken)[0]);
    }
  }

  // ---- In a whole plan ----

  /** Requests on other targets do not touch `k`, its wildcard aside. */
  lemma ElsewhereInert(c: RoleGraph, d: RoleGraph, k: GrantKey, l: GrantKey)
    requires !IsStar(k) && l != k && (l == Star(k) ==> ToRevoke(c, d, l) == {})
    ensures Inert(EntryStep(k), RevokeFn(c, d)(l))
  {
    forall change, v | change in RevokeFn(c, d)(l) ensures EntryStep(k)(v, change) == v {
      ElsewhereKey(c, d, k, l, ToRevoke(c, d, l), change);
    }
  }

  lemma ElsewhereKey(c: RoleGraph, d: RoleGraph, k: GrantKey, l: GrantKey, requested: Privileges, change: Change)
    requires !IsStar(k) && l != k && (l == Star(k) ==> requested == {}) && change in Split(c, d, l, requested)
    ensures change.Revoke? && change.key != k
  {
    if Expands(c, l) {
      InFlatMap(Sorted(Targets(c, l), GrantKeyLe), TargetFn(c, d, requested), change);
      var t :| t in Targets(c, l) && change in TargetFn(c, d, requested)(t);
      InSplitConcrete(c, d, t, requested * HeldOn(c, t), change);
      assert t == k ==> l == Star(k);
    } else {
      InSplitConcrete(c, d, l, requested, change);
    }
  }

  /** With nothing revoked through its wildcard, a target sees its own request alone. */
  lemma OwnRequest(c: RoleGraph, d: RoleGraph, k: GrantKey, v: EntryView)
    requires !IsStar(k) && ToRevoke(c, d, Star(k)) == {}
    ensures Fold(EntryStep(k), v, AllRevokes(c, d))
         == if ToRevoke(c, d, k) == {} then v
            else Fold(EntryStep(k), v, SplitConcrete(c, d, k, ToRevoke(c, d, k)))
  {
    forall l | l != k ensures Inert(EntryStep(k), RevokeFn(c, d)(l)) {
      ElsewhereInert(c, d, k, l);
    }
    FoldFlatMapOne(EntryStep(k), v, Sorted(RevokeMap(c, d).Keys, GrantKeyLe), RevokeFn(c, d), k);
    assert ToRevoke(c, d, k) != {} ==> k in c.grants.Keys + d.grantAbsences.Keys;
  }

  // ---- What a declaration loses ----

  function EntriesOf(c: RoleGraph, k: GrantKey): Entries {
    if k in c.entryGrantors then c.entryGrantors[k] else map[]
  }

  /**
   Taking `taken` from a row that holds `held` and is declared to hold `declared`
   loses part of the declaration, or the row with it: the entries that survive
   do not record it all, or two grantors are asked and nothing recorded survives,
   or nothing is declared and nothing else held.
   */
  ghost predicate Loses(held: Privileges, entries: Entries, declared: Privileges, taken: Privileges) {
    var recorded := EntryUnion(entries);
    taken != {} &&
    if recorded * taken != {} && recorded - taken != {} then !(declared <= recorded)
    else (recorded * taken != {} && Shared(entries)) || (declared == {} && held <= taken)
  }

  lemma LosesIff(held: Privileges, entries: Entries, declared: Privileges, taken: Privileges)
    requires taken != {} && taken <= held && taken !! declared
    ensures var row := RowAfterSplit(held + declared, entries, taken);
      row.Some? && declared <= row.value <==> !Loses(held, entries, declared, taken)
  {
    var recorded := EntryUnion(entries);
    assert declared <= recorded - taken <==> declared <= recorded;
    assert declared <= held + declared - taken;
    if held + declared - taken == {} {
      forall p | p in held + declared ensures p in taken {
        assert p !in held + declared - taken;
      }
      assert declared == {} && held <= taken;
    } else {
      var p :| p in held + declared - taken;
      assert !(declared == {} && held <= taken);
    }
  }
}
