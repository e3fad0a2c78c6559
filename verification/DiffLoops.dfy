/**
 The plan as the planner builds it: loops over sorted keys push into the
 sections, revokes accumulate in maps, and the sections are assembled in
 dependency order.
 */
module DiffLoops {
  import opened Sequences
  import opened Orders
  import opened Model
  import opened Roles
  import opened Diff
  import opened RevokeLoops

  // ---- Accumulating revokes per key ----

  function Accumulate<K>(m: map<K, Privileges>, k: K, privileges: Privileges): map<K, Privileges> {
    if privileges == {} then m else m[k := Lookup(m, k) + privileges]
  }

  /** `m` holds exactly the non-empty values of `f`. */
  ghost predicate Tabulates<K(!new)>(m: map<K, Privileges>, f: K -> Privileges) {
    forall k :: Get(m, k) == if f(k) == {} then None else Some(f(k))
  }

  lemma TabulateOne<K(!new)>(m: map<K, Privileges>, f: K -> Privileges, g: K -> Privileges, x: K,
                             privileges: Privileges)
    requires Tabulates(m, f) && g(x) == f(x) + privileges
    requires forall k :: k != x ==> g(k) == f(k)
    ensures Tabulates(Accumulate(m, x, privileges), g)
  {
    var n := Accumulate(m, x, privileges);
    forall k ensures Get(n, k) == if g(k) == {} then None else Some(g(k)) {
      assert Get(m, k) == if f(k) == {} then None else Some(f(k));
      if k == x {
        assert Lookup(m, x) == f(x);
        if privileges == {} {
          assert f(x) + {} == f(x);
        } else {
          var p :| p in privileges;
          assert p in g(x);
        }
      }
    }
  }

  // ---- Grants ----

  /** Excess of the matched keys met so far. */
  ghost function MatchedFn(c: RoleGraph, d: RoleGraph, done: seq<GrantKey>): GrantKey -> Privileges {
    (k: GrantKey) => if k in done && k in c.grants then Excess(c, d, k) else {}
  }

  /** Excess of every matched key, and of the undeclared keys met so far. */
  ghost function ExcessFn(c: RoleGraph, d: RoleGraph, done: seq<GrantKey>): GrantKey -> Privileges {
    (k: GrantKey) => if k in c.grants && (k in d.grants || k in done) then Excess(c, d, k) else {}
  }

  /** All excess, and what is asserted absent by the assertions met so far. */
  ghost function AssertedFn(c: RoleGraph, d: RoleGraph, done: seq<GrantKey>): GrantKey -> Privileges {
    (k: GrantKey) => Excess(c, d, k) + if k in done then Asserted(c, d, k) else {}
  }

  method GrantMatched(c: RoleGraph, d: RoleGraph, k: GrantKey, before: map<GrantKey, Privileges>)
    returns (grants: seq<Change>, revokes: map<GrantKey, Privileges>)
    requires k in d.grants
    ensures grants == GrantFn(c, d)(k)
    ensures revokes == Accumulate(before, k, if k in c.grants then Excess(c, d, k) else {})
  {
    grants, revokes := [], before;
    if k !in c.grants {
      grants := [Grant(k, d.grants[k])];
    } else {
      var toAdd := d.grants[k] - c.grants[k];
      if toAdd != {} {
        grants := [Grant(k, toAdd)];
      }
      if !k.role.Public? && k !in c.inherent {
        revokes := Accumulate(before, k, Unshadowed(d, k, c.grants[k] - d.grants[k]));
      }
    }
  }

  lemma InPrefix<K>(xs: seq<K>, i: nat)
    requires i < |xs| && Distinct(xs)
    ensures xs[i] !in xs[..i] && forall k :: k in xs[..i + 1] <==> k in xs[..i] || k == xs[i]
  {
    assert xs[..i + 1] == xs[..i] + [xs[i]];
  }

  lemma MatchedNext(c: RoleGraph, d: RoleGraph, xs: seq<GrantKey>, i: nat, m: map<GrantKey, Privileges>)
    requires i < |xs| && Distinct(xs) && Tabulates(m, MatchedFn(c, d, xs[..i]))
    ensures var excess := if xs[i] in c.grants then Excess(c, d, xs[i]) else {};
      Tabulates(Accumulate(m, xs[i], excess), MatchedFn(c, d, xs[..i + 1]))
  {
    InPrefix(xs, i);
    TabulateOne(m, MatchedFn(c, d, xs[..i]), MatchedFn(c, d, xs[..i + 1]), xs[i],
                if xs[i] in c.grants then Excess(c, d, xs[i]) else {});
  }

  lemma MatchedDone(c: RoleGraph, d: RoleGraph, keys: seq<GrantKey>, m: map<GrantKey, Privileges>)
    requires Tabulates(m, MatchedFn(c, d, keys)) && forall k :: k in keys <==> k in d.grants
    ensures Tabulates(m, ExcessFn(c, d, []))
  {
    forall k ensures MatchedFn(c, d, keys)(k) == ExcessFn(c, d, [])(k) {}
  }

  /** Desired targets: missing privileges to grant, and what matched targets hold in excess. */
  method DiffDeclared(c: RoleGraph, d: RoleGraph) returns (grants: seq<Change>, revokes: map<GrantKey, Privileges>)
    ensures grants == Grants(c, d)
    ensures Tabulates(revokes, ExcessFn(c, d, []))
  {
    var keys := SortGrantKeys(d.grants.Keys);
    grants, revokes := DiffMatched(c, d, keys);
    MatchedDone(c, d, keys, revokes);
  }

  method DiffMatched(c: RoleGraph, d: RoleGraph, keys: seq<GrantKey>)
    returns (grants: seq<Change>, revokes: map<GrantKey, Privileges>)
    requires Distinct(keys) && forall k :: k in keys ==> k in d.grants
    ensures grants == FlatMap(keys, GrantFn(c, d))
    ensures Tabulates(revokes, MatchedFn(c, d, keys))
  {
    grants, revokes := [], map[];
    ghost var f := GrantFn(c, d);
    for i := 0 to |keys|
      invariant grants == FlatMap(keys[..i], f)
      invariant Tabulates(revokes, MatchedFn(c, d, keys[..i]))
    {
      assert keys[i] in keys;
      FlatMapSnoc(keys, i, f);
      MatchedNext(c, d, keys, i, revokes);
      var more;
      more, revokes := GrantMatched(c, d, keys[i], revokes);
      grants := grants + more;
    }
    assert keys[..|keys|] == keys;
  }

  lemma ExcessNext(c: RoleGraph, d: RoleGraph, xs: seq<GrantKey>, i: nat, m: map<GrantKey, Privileges>)
    requires i < |xs| && Distinct(xs) && xs[i] in c.grants && Tabulates(m, ExcessFn(c, d, xs[..i]))
    ensures var n := if xs[i] in d.grants then m else Accumulate(m, xs[i], Excess(c, d, xs[i]));
      Tabulates(n, ExcessFn(c, d, xs[..i + 1]))
  {
    InPrefix(xs, i);
    if xs[i] in d.grants {
      forall k ensures ExcessFn(c, d, xs[..i])(k) == ExcessFn(c, d, xs[..i + 1])(k) {}
    } else {
      TabulateOne(m, ExcessFn(c, d, xs[..i]), ExcessFn(c, d, xs[..i + 1]), xs[i], Excess(c, d, xs[i]));
    }
  }

  /** Targets held but not declared. */
  method DiffUndeclared(c: RoleGraph, d: RoleGraph, before: map<GrantKey, Privileges>)
    returns (revokes: map<GrantKey, Privileges>)
    requires Tabulates(before, ExcessFn(c, d, []))
    ensures Tabulates(revokes, AssertedFn(c, d, []))
  {
    revokes := before;
    var keys := SortGrantKeys(c.grants.Keys);
    for i := 0 to |keys|
      invariant Tabulates(revokes, ExcessFn(c, d, keys[..i]))
    {
      var k := keys[i];
      assert k in keys;
      ExcessNext(c, d, keys, i, revokes);
      if k !in d.grants && !k.role.Public? && k !in c.inherent {
        assert c.grants[k] - Lookup(d.grants, k) == c.grants[k];
        revokes := Accumulate(revokes, k, Unshadowed(d, k, c.grants[k]));
      }
    }
    assert keys[..|keys|] == keys;
    forall k ensures ExcessFn(c, d, keys)(k) == AssertedFn(c, d, [])(k) {
      assert k in keys <==> k in c.grants;
    }
  }

  lemma AssertedNext(c: RoleGraph, d: RoleGraph, xs: seq<GrantKey>, i: nat, m: map<GrantKey, Privileges>)
    requires i < |xs| && Distinct(xs) && Tabulates(m, AssertedFn(c, d, xs[..i]))
    ensures Tabulates(Accumulate(m, xs[i], Asserted(c, d, xs[i])), AssertedFn(c, d, xs[..i + 1]))
  {
    InPrefix(xs, i);
    TabulateOne(m, AssertedFn(c, d, xs[..i]), AssertedFn(c, d, xs[..i + 1]), xs[i], Asserted(c, d, xs[i]));
  }

  method AssertedPrivileges(c: RoleGraph, d: RoleGraph, k: GrantKey) returns (privileges: Privileges)
    requires k in d.grantAbsences
    ensures privileges == Asserted(c, d, k)
  {
    var held: Privileges := {};
    if IsStar(k) {
      held := CollectHeld(c, k);
    } else if k !in c.inherent {
      held := Lookup(c.grants, k);
    }
    privileges := d.grantAbsences[k] * held;
  }

  /** Absence assertions. */
  method DiffAbsences(c: RoleGraph, d: RoleGraph, before: map<GrantKey, Privileges>)
    returns (revokes: map<GrantKey, Privileges>)
    requires Tabulates(before, AssertedFn(c, d, []))
    ensures revokes == RevokeMap(c, d)
  {
    revokes := before;
    var keys := SortGrantKeys(d.grantAbsences.Keys);
    for i := 0 to |keys|
      invariant Tabulates(revokes, AssertedFn(c, d, keys[..i]))
    {
      assert keys[i] in keys;
      AssertedNext(c, d, keys, i, revokes);
      var privileges := AssertedPrivileges(c, d, keys[i]);
      revokes := Accumulate(revokes, keys[i], privileges);
    }
    assert keys[..|keys|] == keys;
    RevokeMapTabulates(c, d, keys, revokes);
  }

  lemma RevokeMapTabulates(c: RoleGraph, d: RoleGraph, keys: seq<GrantKey>, m: map<GrantKey, Privileges>)
    requires Tabulates(m, AssertedFn(c, d, keys)) && forall k :: k in keys <==> k in d.grantAbsences
    ensures m == RevokeMap(c, d)
  {
    forall k ensures Get(m, k) == Get(RevokeMap(c, d), k) {
      assert Get(m, k) == if AssertedFn(c, d, keys)(k) == {} then None else Some(AssertedFn(c, d, keys)(k));
      assert AssertedFn(c, d, keys)(k) == ToRevoke(c, d, k);
      assert k !in c.grants.Keys + d.grantAbsences.Keys ==> ToRevoke(c, d, k) == {};
    }
    SameGets(m, RevokeMap(c, d));
  }

  lemma TableRow(c: RoleGraph, d: RoleGraph, k: GrantKey)
    requires k in RevokeMap(c, d)
    ensures RevokeFn(c, d)(k) == Split(c, d, k, RevokeMap(c, d)[k])
  {
  }

  method PushRow(c: RoleGraph, d: RoleGraph, k: GrantKey, table: map<GrantKey, Privileges>, out: seq<Change>)
    returns (r: seq<Change>)
    requires table == RevokeMap(c, d) && k in table
    ensures r == out + RevokeFn(c, d)(k)
  {
    TableRow(c, d, k);
    r := PushRevokes(c, d, k, table[k], out);
  }

  method PushAll(c: RoleGraph, d: RoleGraph, table: map<GrantKey, Privileges>) returns (revokes: seq<Change>)
    requires table == RevokeMap(c, d)
    ensures revokes == AllRevokes(c, d)
  {
    var keys := SortGrantKeys(table.Keys);
    revokes := PushRows(c, d, keys, table);
  }

  method PushRows(c: RoleGraph, d: RoleGraph, keys: seq<GrantKey>, table: map<GrantKey, Privileges>)
    returns (revokes: seq<Change>)
    requires table == RevokeMap(c, d) && forall k :: k in keys ==> k in table
    ensures revokes == FlatMap(keys, RevokeFn(c, d))
  {
    revokes := [];
    ghost var f := RevokeFn(c, d);
    for i := 0 to |keys|
      invariant revokes == FlatMap(keys[..i], f)
    {
      assert keys[i] in keys;
      FlatMapSnoc(keys, i, f);
      revokes := PushRow(c, d, keys[i], table, revokes);
    }
    assert keys[..|keys|] == keys;
  }

  method DiffGrants(c: RoleGraph, d: RoleGraph) returns (grants: seq<Change>, revokes: seq<Change>)
    ensures grants == Grants(c, d)
    ensures revokes == AllRevokes(c, d)
  {
    var table;
    grants, table := DiffDeclared(c, d);
    table := DiffUndeclared(c, d, table);
    table := DiffAbsences(c, d, table);
    revokes := PushAll(c, d, table);
  }

  // ---- Roles ----

  method ConfigAttributesOf(state: RoleState) returns (attributes: seq<RoleAttribute>)
    ensures attributes == ConfigAttributes(state)
  {
    attributes := [];
    var names := SortStrings(state.config.Keys);
    for i := 0 to |names|
      invariant attributes == FlatMap(names[..i], ConfigFn(state))
    {
      assert names[i] in names;
      FlatMapSnoc(names, i, ConfigFn(state));
      attributes := attributes + [SetConfig(names[i], state.config[names[i]])];
    }
    assert names[..|names|] == names;
  }

  method DiffRole(c: RoleGraph, d: RoleGraph, n: string) returns (creates: seq<Change>, alters: seq<Change>)
    requires n in d.roles
    ensures creates == CreateFn(c, d)(n) && alters == AlterFn(c, d)(n)
  {
    creates, alters := [], [];
    var to := d.roles[n];
    if n !in c.roles {
      creates := [CreateRole(n, to)];
      if to.config != map[] {
        var attributes := ConfigAttributesOf(to);
        alters := [AlterRole(n, attributes)];
      }
    } else {
      alters := DiffExisting(n, c.roles[n], to);
    }
  }

  method DiffExisting(n: string, from: RoleState, to: RoleState) returns (alters: seq<Change>)
    ensures alters == AlterExisting(n, from, to)
  {
    alters := [];
    var attributes := ChangedAttributes(from, to);
    if attributes != [] {
      alters := alters + [AlterRole(n, attributes)];
    }
    if from.comment != to.comment {
      alters := alters + [SetComment(n, to.comment)];
    }
  }

  method DiffRoles(c: RoleGraph, d: RoleGraph) returns (creates: seq<Change>, alters: seq<Change>, drops: seq<Change>)
    ensures creates == Creates(c, d) && alters == Alters(c, d) && drops == Drops(c, d)
  {
    creates, alters, drops := [], [], [];
    var names := SortStrings(d.roles.Keys);
    for i := 0 to |names|
      invariant creates == FlatMap(names[..i], CreateFn(c, d))
      invariant alters == FlatMap(names[..i], AlterFn(c, d))
    {
      assert names[i] in names;
      FlatMapSnoc(names, i, CreateFn(c, d));
      FlatMapSnoc(names, i, AlterFn(c, d));
      var create, alter := DiffRole(c, d, names[i]);
      creates, alters := creates + create, alters + alter;
    }
    assert names[..|names|] == names;
    drops := DropUndeclared(c, d);
  }

  method DropUndeclared(c: RoleGraph, d: RoleGraph) returns (drops: seq<Change>)
    ensures drops == Drops(c, d)
  {
    drops := [];
    var names := SortStrings(c.roles.Keys);
    ghost var f := DropFn(d);
    for i := 0 to |names|
      invariant drops == FlatMap(names[..i], f)
    {
      FlatMapSnoc(names, i, f);
      if names[i] !in d.roles {
        drops := drops + [DropRole(names[i])];
      }
    }
    assert names[..|names|] == names;
  }

  // ---- Schemas ----

  method DiffSchema(c: RoleGraph, d: RoleGraph, n: string) returns (changes: seq<Change>, grants: seq<Change>)
    requires n in d.schemas
    ensures changes == SchemaFn(c, d)(n) && grants == OwnerFn(c, d)(n)
  {
    changes, grants := [], [];
    var to := d.schemas[n];
    if n !in c.schemas {
      changes := [CreateSchema(n, to.owner)];
      return;
    }
    var ownerChanged := c.schemas[n].owner != to.owner;
    if to.owner.Some? {
      if ownerChanged {
        changes := [AlterSchemaOwner(n, to.owner.value)];
      }
      var present := if ownerChanged then {} else c.schemas[n].ownerPrivileges;
      var missing := OWNER_PRIVILEGES - present;
      assert missing == MissingOwnerPrivileges(c, d, n);
      if missing != {} {
        grants := [EnsureSchemaOwnerPrivileges(n, to.owner.value, missing)];
      }
    }
  }

  method DiffSchemas(c: RoleGraph, d: RoleGraph) returns (changes: seq<Change>, grants: seq<Change>)
    ensures changes == SchemaChanges(c, d) && grants == OwnerGrants(c, d)
  {
    changes, grants := [], [];
    var names := SortStrings(d.schemas.Keys);
    for i := 0 to |names|
      invariant changes == FlatMap(names[..i], SchemaFn(c, d))
      invariant grants == FlatMap(names[..i], OwnerFn(c, d))
    {
      assert names[i] in names;
      FlatMapSnoc(names, i, SchemaFn(c, d));
      FlatMapSnoc(names, i, OwnerFn(c, d));
      var change, grant := DiffSchema(c, d, names[i]);
      changes, grants := changes + change, grants + grant;
    }
    assert names[..|names|] == names;
  }

  /** Revokes that would strip a schema's incoming owner are dropped. */
  method RetainRevokes(c: RoleGraph, d: RoleGraph, schemaChanges: seq<Change>, all: seq<Change>)
    returns (revokes: seq<Change>)
    requires schemaChanges == SchemaChanges(c, d)
    ensures revokes == Filter(all, Kept(c, d))
  {
    revokes := [];
    for i := 0 to |all|
      invariant revokes == Filter(all[..i], Kept(c, d))
    {
      var change := all[i];
      FilterSnoc(all, i, Kept(c, d));
      IncomingOwner(c, d, change);
      if !(change.Revoke? && change.key.objectType.Schema? && change.key.name.Some?
           && AlterSchemaOwner(change.key.name.value, change.key.role.AsString()) in schemaChanges) {
        revokes := revokes + [change];
      }
    }
    assert all[..|all|] == all;
  }

  lemma IncomingOwner(c: RoleGraph, d: RoleGraph, change: Change)
    ensures FromIncomingOwner(c, d, change) <==>
      (change.Revoke? && change.key.objectType.Schema? && change.key.name.Some?
       && AlterSchemaOwner(change.key.name.value, change.key.role.AsString()) in SchemaChanges(c, d))
  {
    if change.Revoke? && change.key.objectType.Schema? && change.key.name.Some? {
      var n := change.key.name.value;
      TransferPlanned(c, d, n, change.key.role.AsString());
    }
  }

  lemma TransferPlanned(c: RoleGraph, d: RoleGraph, n: string, owner: string)
    ensures AlterSchemaOwner(n, owner) in SchemaChanges(c, d) <==>
      OwnerMoves(c, d, n) && d.schemas[n].owner == Some(owner)
  {
    var names := Sorted(d.schemas.Keys, StringLe);
    InFlatMap(names, SchemaFn(c, d), AlterSchemaOwner(n, owner));
    if OwnerMoves(c, d, n) && d.schemas[n].owner == Some(owner) {
      assert n in names && AlterSchemaOwner(n, owner) in SchemaFn(c, d)(n);
    }
  }

  // ---- Default privileges ----

  /** The keys met so far. */
  function Upto<K>(xs: seq<K>, i: nat): set<K>
    requires i <= |xs|
  {
    set k | k in xs[..i]
  }

  lemma UptoNext<K>(xs: seq<K>, i: nat)
    requires i < |xs| && Distinct(xs)
    ensures xs[i] !in Upto(xs, i) && Upto(xs, i + 1) == Upto(xs, i) + {xs[i]}
  {
    InPrefix(xs, i);
  }

  lemma UptoAll<K(!new)>(xs: seq<K>, s: set<K>)
    requires Enumerates(xs, s)
    ensures Upto(xs, |xs|) == s
  {
    assert xs[..|xs|] == xs;
  }

  /** Planned default revokes: present keys may carry an empty set. */
  ghost predicate DefaultTable(c: RoleGraph, d: RoleGraph, matched: set<DefaultPrivKey>,
                               undeclared: set<DefaultPrivKey>,
                               asserted: set<DefaultPrivKey>, m: map<DefaultPrivKey, Privileges>) {
    && (forall k :: k in m ==> m[k] == DefaultPart(c, d, matched, undeclared, asserted, k))
    && (forall k :: k in m <==>
          (DefaultPart(c, d, matched, undeclared, asserted, k) != {}
           || (k in undeclared && k in c.defaults && k !in d.defaults && !k.grantee.Public?)))
  }

  ghost function DefaultPart(c: RoleGraph, d: RoleGraph, matched: set<DefaultPrivKey>, undeclared: set<DefaultPrivKey>,
                             asserted: set<DefaultPrivKey>, k: DefaultPrivKey): Privileges {
    (if (k in matched && k in d.defaults) || (k in undeclared && k !in d.defaults) then DefaultExcess(c, d, k) else {})
    + (if k in asserted then DefaultAsserted(c, d, k) else {})
  }

  lemma MatchDefault(c: RoleGraph, d: RoleGraph, xs: seq<DefaultPrivKey>, i: nat, m: map<DefaultPrivKey, Privileges>)
    requires i < |xs| && Distinct(xs) && xs[i] in d.defaults && DefaultTable(c, d, Upto(xs, i), {}, {}, m)
    ensures DefaultTable(c, d, Upto(xs, i + 1), {}, {}, Accumulate(m, xs[i], DefaultExcess(c, d, xs[i])))
  {
    UptoNext(xs, i);
    DefaultStep(c, d, Upto(xs, i), {}, {}, Upto(xs, i + 1), {}, {}, xs[i], m, DefaultExcess(c, d, xs[i]), false);
  }

  /** One key gains `privileges`, and a row even when empty if `force`. */
  lemma DefaultStep(c: RoleGraph, d: RoleGraph,
                    a: set<DefaultPrivKey>, b: set<DefaultPrivKey>, e: set<DefaultPrivKey>,
                    a': set<DefaultPrivKey>, b': set<DefaultPrivKey>, e': set<DefaultPrivKey>,
                    x: DefaultPrivKey, m: map<DefaultPrivKey, Privileges>, privileges: Privileges, force: bool)
    requires DefaultTable(c, d, a, b, e, m)
    requires forall k :: k != x ==> (k in a <==> k in a') && (k in b <==> k in b') && (k in e <==> k in e')
    requires DefaultPart(c, d, a', b', e', x) == DefaultPart(c, d, a, b, e, x) + privileges
    requires force <==> (x in b' && x in c.defaults && x !in d.defaults && !x.grantee.Public?)
    requires x in b ==> x in b'
    ensures var n := if force then m[x := Lookup(m, x) + privileges] else Accumulate(m, x, privileges);
      DefaultTable(c, d, a', b', e', n)
  {
    var n := if force then m[x := Lookup(m, x) + privileges] else Accumulate(m, x, privileges);
    assert Lookup(m, x) == DefaultPart(c, d, a, b, e, x);
    forall k
      ensures k in n ==> n[k] == DefaultPart(c, d, a', b', e', k)
      ensures k in n <==> (DefaultPart(c, d, a', b', e', k) != {}
                           || (k in b' && k in c.defaults && k !in d.defaults && !k.grantee.Public?))
    {
      if k != x {
        assert DefaultPart(c, d, a', b', e', k) == DefaultPart(c, d, a, b, e, k);
      } else if privileges == {} {
        assert DefaultPart(c, d, a', b', e', x) == DefaultPart(c, d, a, b, e, x);
      } else {
        var p :| p in privileges;
        assert p in DefaultPart(c, d, a', b', e', x);
      }
    }
  }

  method DiffDeclaredDefaults(c: RoleGraph, d: RoleGraph)
    returns (sets: seq<Change>, revokes: map<DefaultPrivKey, Privileges>)
    ensures sets == SetDefaults(c, d)
    ensures DefaultTable(c, d, d.defaults.Keys, {}, {}, revokes)
  {
    sets, revokes := [], map[];
    var xs := SortDefaultKeys(d.defaults.Keys);
    for i := 0 to |xs|
      invariant sets == FlatMap(xs[..i], SetDefaultFn(c, d))
      invariant DefaultTable(c, d, Upto(xs, i), {}, {}, revokes)
    {
      var k := xs[i];
      assert k in xs;
      FlatMapSnoc(xs, i, SetDefaultFn(c, d));
      MatchDefault(c, d, xs, i, revokes);
      if k !in c.defaults {
        sets := sets + [SetDefault(k, d.defaults[k])];
      } else {
        var toAdd := d.defaults[k] - c.defaults[k];
        if toAdd != {} {
          sets := sets + [SetDefault(k, toAdd)];
        }
        if !k.grantee.Public? {
          revokes := Accumulate(revokes, k, c.defaults[k] - d.defaults[k]);
        }
      }
    }
    assert xs[..|xs|] == xs;
    UptoAll(xs, d.defaults.Keys);
  }

  lemma UndeclaredDefault(c: RoleGraph, d: RoleGraph, keys: set<DefaultPrivKey>, xs: seq<DefaultPrivKey>, i: nat,
                          m: map<DefaultPrivKey, Privileges>)
    requires i < |xs| && Distinct(xs) && xs[i] in c.defaults && DefaultTable(c, d, keys, Upto(xs, i), {}, m)
    ensures var x := xs[i];
      DefaultTable(c, d, keys, Upto(xs, i + 1), {},
        if x in d.defaults || x.grantee.Public? then m else m[x := Lookup(m, x) + c.defaults[x]])
  {
    var x := xs[i];
    UptoNext(xs, i);
    if x in d.defaults || x.grantee.Public? {
      DefaultStep(c, d, keys, Upto(xs, i), {}, keys, Upto(xs, i + 1), {}, x, m, {}, false);
    } else {
      assert c.defaults[x] - {} == c.defaults[x];
      DefaultStep(c, d, keys, Upto(xs, i), {}, keys, Upto(xs, i + 1), {}, x, m, c.defaults[x], true);
    }
  }

  method RevokeUndeclared(c: RoleGraph, d: RoleGraph, k: DefaultPrivKey, m: map<DefaultPrivKey, Privileges>)
    returns (r: map<DefaultPrivKey, Privileges>)
    requires k in c.defaults
    ensures r == if k in d.defaults || k.grantee.Public? then m else m[k := Lookup(m, k) + c.defaults[k]]
  {
    r := m;
    if k !in d.defaults && !k.grantee.Public? {
      r := m[k := Lookup(m, k) + c.defaults[k]];
    }
  }

  method DiffUndeclaredDefaults(c: RoleGraph, d: RoleGraph, before: map<DefaultPrivKey, Privileges>)
    returns (revokes: map<DefaultPrivKey, Privileges>)
    requires DefaultTable(c, d, d.defaults.Keys, {}, {}, before)
    ensures DefaultTable(c, d, d.defaults.Keys, c.defaults.Keys, {}, revokes)
  {
    revokes := before;
    var xs := SortDefaultKeys(c.defaults.Keys);
    for i := 0 to |xs|
      invariant DefaultTable(c, d, d.defaults.Keys, Upto(xs, i), {}, revokes)
    {
      assert xs[i] in xs;
      UndeclaredDefault(c, d, d.defaults.Keys, xs, i, revokes);
      revokes := RevokeUndeclared(c, d, xs[i], revokes);
    }
    UptoAll(xs, c.defaults.Keys);
  }

  lemma AssertedDefault(c: RoleGraph, d: RoleGraph, keys: set<DefaultPrivKey>, present: set<DefaultPrivKey>,
                        xs: seq<DefaultPrivKey>, i: nat, m: map<DefaultPrivKey, Privileges>)
    requires i < |xs| && Distinct(xs) && DefaultTable(c, d, keys, present, Upto(xs, i), m)
    ensures DefaultTable(c, d, keys, present, Upto(xs, i + 1), Accumulate(m, xs[i], DefaultAsserted(c, d, xs[i])))
  {
    var x, asserted := xs[i], DefaultAsserted(c, d, xs[i]);
    UptoNext(xs, i);
    var kept := x in present && x in c.defaults && x !in d.defaults && !x.grantee.Public?;
    AssertedPart(c, d, keys, present, xs, i);
    DefaultStep(c, d, keys, present, Upto(xs, i), keys, present, Upto(xs, i + 1), x, m, asserted, kept);
    if kept && asserted == {} {
      assert m[x] + {} == m[x] && m[x := m[x]] == m;
    }
  }

  lemma AssertedPart(c: RoleGraph, d: RoleGraph, keys: set<DefaultPrivKey>, present: set<DefaultPrivKey>,
                     xs: seq<DefaultPrivKey>, i: nat)
    requires i < |xs| && Distinct(xs)
    ensures DefaultPart(c, d, keys, present, Upto(xs, i + 1), xs[i])
         == DefaultPart(c, d, keys, present, Upto(xs, i), xs[i]) + DefaultAsserted(c, d, xs[i])
  {
    UptoNext(xs, i);
  }

  method AssertedDefaults(c: RoleGraph, d: RoleGraph, k: DefaultPrivKey) returns (privileges: Privileges)
    requires k in d.defaultAbsences
    ensures privileges == DefaultAsserted(c, d, k)
  {
    var held := if k in c.defaults then c.defaults[k] else BuiltinDefaults(c, d, k);
    privileges := d.defaultAbsences[k] * held;
  }

  method AssertEach(c: RoleGraph, d: RoleGraph, xs: seq<DefaultPrivKey>, before: map<DefaultPrivKey, Privileges>)
    returns (revokes: map<DefaultPrivKey, Privileges>)
    requires Distinct(xs) && forall k :: k in xs ==> k in d.defaultAbsences
    requires DefaultTable(c, d, d.defaults.Keys, c.defaults.Keys, {}, before)
    ensures DefaultTable(c, d, d.defaults.Keys, c.defaults.Keys, Upto(xs, |xs|), revokes)
  {
    revokes := before;
    for i := 0 to |xs|
      invariant DefaultTable(c, d, d.defaults.Keys, c.defaults.Keys, Upto(xs, i), revokes)
    {
      AssertedDefault(c, d, d.defaults.Keys, c.defaults.Keys, xs, i, revokes);
      var privileges := AssertedDefaults(c, d, xs[i]);
      revokes := Accumulate(revokes, xs[i], privileges);
    }
  }

  method DiffDefaultAbsences(c: RoleGraph, d: RoleGraph, before: map<DefaultPrivKey, Privileges>)
    returns (revokes: map<DefaultPrivKey, Privileges>)
    requires DefaultTable(c, d, d.defaults.Keys, c.defaults.Keys, {}, before)
    ensures DefaultTable(c, d, d.defaults.Keys, c.defaults.Keys, d.defaultAbsences.Keys, revokes)
  {
    var xs := SortDefaultKeys(d.defaultAbsences.Keys);
    UptoAll(xs, d.defaultAbsences.Keys);
    revokes := AssertEach(c, d, xs, before);
  }

  /** The finished table holds the keys that the plan revokes, with what it revokes of each. */
  lemma DefaultTableIsPlan(c: RoleGraph, d: RoleGraph, m: map<DefaultPrivKey, Privileges>)
    requires DefaultTable(c, d, d.defaults.Keys, c.defaults.Keys, d.defaultAbsences.Keys, m)
    ensures forall k :: k in m <==> RevokesDefault(c, d, k)
    ensures forall k :: k in m ==> m[k] == DefaultToRevoke(c, d, k)
    ensures m.Keys <= c.defaults.Keys + d.defaultAbsences.Keys
  {
    forall k
      ensures DefaultPart(c, d, d.defaults.Keys, c.defaults.Keys, d.defaultAbsences.Keys, k) == DefaultToRevoke(c, d, k)
    {
      assert k !in d.defaults && k !in c.defaults ==> DefaultExcess(c, d, k) == {};
      assert k !in d.defaultAbsences ==> DefaultAsserted(c, d, k) == {};
    }
    forall k | k in m ensures k in c.defaults.Keys + d.defaultAbsences.Keys {
      assert k !in d.defaultAbsences ==> DefaultAsserted(c, d, k) == {};
    }
  }

  lemma DefaultRows(c: RoleGraph, d: RoleGraph, keys: set<DefaultPrivKey>)
    requires keys <= c.defaults.Keys + d.defaultAbsences.Keys
    requires forall k :: RevokesDefault(c, d, k) ==> k in keys
    ensures FlatMap(Sorted(keys, DefaultKeyLe), RevokeDefaultFn(c, d)) == RevokeDefaults(c, d)
  {
    DefaultKeyLeTotal();
    FlatMapSortedSubset(keys, c.defaults.Keys + d.defaultAbsences.Keys, DefaultKeyLe, RevokeDefaultFn(c, d));
  }

  method PushDefaults(c: RoleGraph, d: RoleGraph, table: map<DefaultPrivKey, Privileges>) returns (revokes: seq<Change>)
    requires forall k :: k in table <==> RevokesDefault(c, d, k)
    requires forall k :: k in table ==> table[k] == DefaultToRevoke(c, d, k)
    ensures revokes == FlatMap(Sorted(table.Keys, DefaultKeyLe), RevokeDefaultFn(c, d))
  {
    revokes := [];
    var xs := SortDefaultKeys(table.Keys);
    for i := 0 to |xs|
      invariant revokes == FlatMap(xs[..i], RevokeDefaultFn(c, d))
    {
      assert xs[i] in xs;
      FlatMapSnoc(xs, i, RevokeDefaultFn(c, d));
      revokes := revokes + [RevokeDefault(xs[i], table[xs[i]])];
    }
    assert xs[..|xs|] == xs;
  }

  method DiffDefaultPrivileges(c: RoleGraph, d: RoleGraph) returns (sets: seq<Change>, revokes: seq<Change>)
    ensures sets == SetDefaults(c, d) && revokes == RevokeDefaults(c, d)
  {
    var table;
    sets, table := DiffDeclaredDefaults(c, d);
    table := DiffUndeclaredDefaults(c, d, table);
    table := DiffDefaultAbsences(c, d, table);
    DefaultTableIsPlan(c, d, table);
    revokes := PushDefaults(c, d, table);
    DefaultRows(c, d, table.Keys);
  }

  // ---- Memberships ----

  method RemoveAllEdges(c: RoleGraph, p: Pair, out: seq<Change>) returns (r: seq<Change>)
    ensures r == out + RemoveAll(c, p)
  {
    r := out;
    if IsAttributed(c, p) {
      var grantors := SortStrings(c.edgeGrantors[p]);
      ghost var f := RemoveEdgeFn(c, p);
      for i := 0 to |grantors|
        invariant r == out + FlatMap(grantors[..i], f)
      {
        PushPiece(out, grantors, i, f);
        if (p.0, p.1, grantors[i]) !in c.executorEdges {
          r := r + [RemoveMember(p.0, p.1, Some(grantors[i]))];
        }
      }
      assert grantors[..|grantors|] == grantors;
    } else {
      r := r + [RemoveMember(p.0, p.1, None)];
    }
  }

  method LowerEdges(c: RoleGraph, cur: MembershipEdge, des: MembershipEdge, p: Pair, out: seq<Change>)
    returns (r: seq<Change>)
    requires IsAttributed(c, p)
    ensures r == out + LowerAll(c, cur, des, c.edgeGrantors[p])
  {
    var grantors := SortStrings(c.edgeGrantors[p]);
    r := LowerThrough(c, cur, des, grantors, out);
  }

  method LowerThrough(c: RoleGraph, cur: MembershipEdge, des: MembershipEdge, grantors: seq<string>, out: seq<Change>)
    returns (r: seq<Change>)
    ensures r == out + FlatMap(grantors, LowerFn(c, cur, des))
  {
    r := out;
    ghost var f := LowerFn(c, cur, des);
    for i := 0 to |grantors|
      invariant r == out + FlatMap(grantors[..i], f)
    {
      PushPiece(out, grantors, i, f);
      r := LowerEdge(c, cur, des, grantors[i], r);
    }
    assert grantors[..|grantors|] == grantors;
  }

  method LowerEdge(c: RoleGraph, cur: MembershipEdge, des: MembershipEdge, g: string, out: seq<Change>)
    returns (r: seq<Change>)
    ensures r == out + LowerFn(c, cur, des)(g)
  {
    r := out;
    var inherit, admin := LowerInherit(c, cur, des, g), LowerAdmin(c, cur, des, g);
    if inherit.Some? || admin.Some? {
      r := r + [UpdateMemberOptions(cur.role, cur.member, g, inherit, admin, None)];
    }
  }

  method FirstGrantor(c: RoleGraph, p: Pair) returns (g: string)
    requires IsAttributed(c, p)
    ensures g == Least(c.edgeGrantors[p], StringLe)
  {
    var grantors := SortStrings(c.edgeGrantors[p]);
    g := grantors[0];
  }

  /** One declared pair: what is lowered or removed, and what is raised or added. */
  method DiffPair(c: RoleGraph, d: RoleGraph, p: Pair) returns (removes: seq<Change>, adds: seq<Change>)
    ensures removes == LowerPairFn(c, d)(p) && adds == AddPairFn(c, d)(p)
  {
    removes, adds := [], [];
    var cur, des := EdgeOf(c.memberships, p), EdgeOf(d.memberships, p);
    if des.None? {
      return;
    }
    if cur.None? {
      adds := [AddMember(des.value.role, des.value.member, des.value.inherit, des.value.admin)];
    } else if cur.value.inherit != des.value.inherit || cur.value.admin != des.value.admin {
      if IsAttributed(c, p) {
        removes := LowerEdges(c, cur.value, des.value, p, []);
        var inherit, admin := Raised(cur.value.inherit, des.value.inherit), Raised(cur.value.admin, des.value.admin);
        if inherit.Some? || admin.Some? {
          var g := FirstGrantor(c, p);
          adds := [UpdateMemberOptions(p.0, p.1, g, inherit, admin, None)];
        }
      } else {
        removes := RemoveAllEdges(c, p, []);
        adds := [AddMember(des.value.role, des.value.member, des.value.inherit, des.value.admin)];
      }
    }
  }

  method RemoveStale(c: RoleGraph, d: RoleGraph, out: seq<Change>) returns (r: seq<Change>)
    ensures r == out + FlatMap(Sorted(Pairs(c.memberships), PairLe), StalePairFn(c, d))
  {
    r := out;
    var pairs := SortPairs(Pairs(c.memberships));
    ghost var f := StalePairFn(c, d);
    for i := 0 to |pairs|
      invariant r == out + FlatMap(pairs[..i], f)
    {
      PushPiece(out, pairs, i, f);
      if pairs[i] !in Pairs(d.memberships) {
        r := RemoveAllEdges(c, pairs[i], r);
      }
    }
    assert pairs[..|pairs|] == pairs;
  }

  method DiffMemberships(c: RoleGraph, d: RoleGraph) returns (adds: seq<Change>, removes: seq<Change>)
    ensures adds == Adds(c, d) && removes == Removes(c, d)
  {
    adds, removes := [], [];
    var pairs := SortPairs(Pairs(d.memberships));
    for i := 0 to |pairs|
      invariant adds == FlatMap(pairs[..i], AddPairFn(c, d))
      invariant removes == FlatMap(pairs[..i], LowerPairFn(c, d))
    {
      FlatMapSnoc(pairs, i, AddPairFn(c, d));
      FlatMapSnoc(pairs, i, LowerPairFn(c, d));
      var lower, add := DiffPair(c, d, pairs[i]);
      adds, removes := adds + add, removes + lower;
    }
    assert pairs[..|pairs|] == pairs;
    removes := RemoveStale(c, d, removes);
  }

  // ---- Routine aliases ----

  /** `m` is the part of the renamed map that the keys of `done` give. */
  ghost predicate Renamed(aliases: map<Pair, string>, m: map<GrantKey, Privileges>, done: set<GrantKey>,
                          r: map<GrantKey, Privileges>) {
    && (forall k :: k in r <==> exists o :: o in done && ResolveKey(aliases, o) == k)
    && (forall k, p :: k in r ==>
          (p in r[k] <==> exists o :: o in done && ResolveKey(aliases, o) == k && p in Lookup(m, o)))
  }

  lemma RenameOne(aliases: map<Pair, string>, m: map<GrantKey, Privileges>, done: set<GrantKey>,
                  r: map<GrantKey, Privileges>, x: GrantKey)
    requires Renamed(aliases, m, done, r)
    ensures var key := ResolveKey(aliases, x);
      Renamed(aliases, m, done + {x}, r[key := Lookup(r, key) + Lookup(m, x)])
  {
    var key := ResolveKey(aliases, x);
    var n := r[key := Lookup(r, key) + Lookup(m, x)];
    forall k ensures k in n <==> exists o :: o in done + {x} && ResolveKey(aliases, o) == k {
      if k == key {
        assert x in done + {x};
      }
      if exists o :: o in done && ResolveKey(aliases, o) == k {
        var o :| o in done && ResolveKey(aliases, o) == k;
        assert o in done + {x};
      }
    }
    forall k, p | k in n
      ensures p in n[k] <==> exists o :: o in done + {x} && ResolveKey(aliases, o) == k && p in Lookup(m, o)
    {
      if exists o :: o in done && ResolveKey(aliases, o) == k && p in Lookup(m, o) {
        var o :| o in done && ResolveKey(aliases, o) == k && p in Lookup(m, o);
        assert o in done + {x};
      }
      if k == key && p in Lookup(m, x) {
        assert x in done + {x};
      }
    }
  }

  lemma RenamedAll(aliases: map<Pair, string>, m: map<GrantKey, Privileges>, r: map<GrantKey, Privileges>)
    requires Renamed(aliases, m, m.Keys, r)
    ensures r == ResolveKeys(aliases, m)
  {
    var n := ResolveKeys(aliases, m);
    forall k ensures k in r <==> k in n {}
    forall k | k in r ensures r[k] == n[k] {
      forall p ensures p in r[k] <==> p in n[k] {
        if p in r[k] {
          var o :| o in m.Keys && ResolveKey(aliases, o) == k && p in Lookup(m, o);
        }
        if p in n[k] {
          var o :| o in m && ResolveKey(aliases, o) == k && p in m[o];
          assert o in m.Keys && p in Lookup(m, o);
        }
      }
    }
  }

  method RenameKeys(aliases: map<Pair, string>, m: map<GrantKey, Privileges>) returns (r: map<GrantKey, Privileges>)
    ensures r == ResolveKeys(aliases, m)
  {
    r := map[];
    var rest := m.Keys;
    while rest != {}
      invariant rest <= m.Keys && Renamed(aliases, m, m.Keys - rest, r)
      decreases |rest|
    {
      var k :| k in rest;
      RenameOne(aliases, m, m.Keys - rest, r, k);
      assert m.Keys - (rest - {k}) == m.Keys - rest + {k};
      var key := ResolveKey(aliases, k);
      r := r[key := Lookup(r, key) + m[k]];
      rest := rest - {k};
    }
    assert m.Keys - rest == m.Keys;
    RenamedAll(aliases, m, r);
  }

  lemma NothingRenamed(aliases: map<Pair, string>, m: map<GrantKey, Privileges>)
    requires forall k :: k in m ==> ResolveKey(aliases, k) == k
    ensures ResolveKeys(aliases, m) == m
  {
    var n := ResolveKeys(aliases, m);
    forall k ensures k in n <==> k in m {}
    forall k | k in m ensures n[k] == m[k] {
      forall p ensures p in n[k] <==> p in m[k] {
        if p in m[k] {
          assert ResolveKey(aliases, k) == k;
        }
      }
    }
  }

  method ResolveRoutineAliases(d: RoleGraph, aliases: map<Pair, string>) returns (r: RoleGraph)
    ensures r == Resolve(d, aliases)
  {
    if forall k :: k in d.grants.Keys + d.grantAbsences.Keys ==> ResolveKey(aliases, k) == k {
      r := d;
      NothingRenamed(aliases, d.grants);
      NothingRenamed(aliases, d.grantAbsences);
    } else {
      var grants := RenameKeys(aliases, d.grants);
      var absences := RenameKeys(aliases, d.grantAbsences);
      r := d.(grants := grants, grantAbsences := absences);
    }
  }

  // ---- The plan ----

  method DiffResolved(c: RoleGraph, d: RoleGraph) returns (changes: seq<Change>)
    ensures changes == PlanFor(c, d)
  {
    var creates, alters, drops := DiffRoles(c, d);
    var schemaChanges, schemaGrants := DiffSchemas(c, d);
    var grants, revokes := DiffGrants(c, d);
    var sets, revokeDefaults := DiffDefaultPrivileges(c, d);
    var adds, removes := DiffMemberships(c, d);
    revokes := RetainRevokes(c, d, schemaChanges, revokes);
    changes := (creates + alters + schemaChanges) + (schemaGrants + grants + sets) + (revokes + removes)
      + (adds + revokeDefaults + drops);
  }

  method ComputeDiff(c: RoleGraph, d: RoleGraph) returns (changes: seq<Change>)
    ensures changes == DiffOf(c, d)
  {
    var resolved := ResolveRoutineAliases(d, c.routineAliases);
    changes := DiffResolved(c, resolved);
  }
}
