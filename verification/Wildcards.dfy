/**
 Schema-wide grants over a live database: what inspection compacts, what a plan
 does to the access lists of the objects in scope, and runs in which objects
 are dropped and recreated behind the planner's back.
 */
module Wildcards {
  import opened Model
  import opened Diff

  /**
   Objects by type and schema, the access list entries of grantees on them, and
   the privileges the executor may grant on each.
   */
  datatype Database = Database(
    inventory: map<(ObjectType, string), set<string>>,
    acl: map<GrantKey, Privileges>,
    grantable: map<(ObjectType, string, string), Privileges>)

  /** Schema-wide target. */
  predicate IsWildcard(k: GrantKey) {
    IsStar(k) && k.schema.Some?
  }

  function Names(inventory: map<(ObjectType, string), set<string>>, k: GrantKey): set<string> {
    if k.schema.Some? && (k.objectType, k.schema.value) in inventory
    then inventory[(k.objectType, k.schema.value)] - {"*"} else {}
  }

  /** The targets of `k`'s grantee on the objects in `k`'s scope. */
  function Members(inventory: map<(ObjectType, string), set<string>>, k: GrantKey): set<GrantKey> {
    set n | n in Names(inventory, k) :: k.(name := Some(n))
  }

  predicate Exists(inventory: map<(ObjectType, string), set<string>>, t: GrantKey) {
    t in Members(inventory, t)
  }

  lemma MembersScope(inventory: map<(ObjectType, string), set<string>>, k: GrantKey, t: GrantKey)
    requires IsStar(k)
    ensures t in Members(inventory, k) <==> Exists(inventory, t) && Star(t) == k
  {
    if t in Members(inventory, k) {
      assert t in Members(inventory, t);
    }
    if Exists(inventory, t) && Star(t) == k {
      var n :| n in Names(inventory, t) && t == t.(name := Some(n));
      assert t == k.(name := Some(n)) && n in Names(inventory, k);
    }
  }

  // ---- Inspection ----

  /** The inspected rows denote the access lists: held by name, or through the compacted wildcard. */
  ghost predicate Reads(db: Database, grants: map<GrantKey, Privileges>) {
    forall t, p :: Exists(db.inventory, t) ==>
      (p in Lookup(db.acl, t) <==> p in Lookup(grants, t) || p in Lookup(grants, Star(t)))
  }

  /** `p` is on every object of the scope, vacuously so when there is none. */
  ghost predicate Everywhere(db: Database, k: GrantKey, p: Privilege) {
    forall t :: t in Members(db.inventory, k) ==> p in Lookup(db.acl, t)
  }

  /** A declared privilege held everywhere is reported on the wildcard. */
  ghost predicate Compacts(db: Database, grants: map<GrantKey, Privileges>, k: GrantKey, privileges: Privileges) {
    forall p :: p in privileges && Everywhere(db, k, p) ==> p in Lookup(grants, k)
  }

  datatype Pattern = Pattern(role: string, objectType: ObjectType, schema: string, privileges: Privileges)
  {
    function Key(): GrantKey {
      GrantKey(ParseGrantee(role), objectType, Some(schema), Some("*"))
    }

    function Target(name: string): GrantKey {
      GrantKey(ParseGrantee(role), objectType, Some(schema), Some(name))
    }
  }

  ghost function HeldByAll(grants: map<GrantKey, Privileges>, w: Pattern, names: set<string>): Privileges {
    set p | p in w.privileges && forall n :: n in names ==> p in Lookup(grants, w.Target(n))
  }

  /** Declared privileges that every named object holds. */
  method SharedPrivileges(grants: map<GrantKey, Privileges>, w: Pattern, names: set<string>)
    returns (shared: Privileges)
    ensures shared == HeldByAll(grants, w, names)
  {
    shared := w.privileges;
    var rest := names;
    while rest != {}
      invariant rest <= names
      invariant shared == HeldByAll(grants, w, names - rest)
      decreases |rest|
    {
      var n :| n in rest;
      var next := rest - {n};
      assert names - next == names - rest + {n};
      var key := w.Target(n);
      if key in grants {
        shared := set p | p in shared && p in grants[key];
        rest := next;
      } else {
        shared := {};
        break;
      }
    }
    assert rest == {} ==> names - rest == names;
  }

  /** The rows of `names` once the privileges reported on the wildcard are taken off. */
  ghost predicate Stripped(grants: map<GrantKey, Privileges>, out: map<GrantKey, Privileges>, w: Pattern,
                           names: set<string>, shared: Privileges) {
    && (forall k :: Get(out, k) == Get(grants, k) ||
          (k.name.Some? && k.name.value in names && k == w.Target(k.name.value)))
    && (forall n :: n in names ==> Lookup(out, w.Target(n)) == Lookup(grants, w.Target(n)) - shared)
  }

  /** A row loses what the wildcard now reports, and disappears once empty. */
  method StripKey(grants: map<GrantKey, Privileges>, key: GrantKey, shared: Privileges)
    returns (out: map<GrantKey, Privileges>)
    ensures forall k :: k != key ==> Get(out, k) == Get(grants, k)
    ensures Lookup(out, key) == Lookup(grants, key) - shared
  {
    out := grants;
    if key in out {
      if out[key] - shared == {} {
        out := out - {key};
      } else {
        out := out[key := out[key] - shared];
      }
    }
  }

  method StripShared(grants: map<GrantKey, Privileges>, w: Pattern, names: set<string>, shared: Privileges)
    returns (out: map<GrantKey, Privileges>)
    ensures Stripped(grants, out, w, names, shared)
  {
    out := grants;
    var rest := names;
    while rest != {}
      invariant rest <= names
      invariant Stripped(grants, out, w, names - rest, shared)
      invariant forall n :: n in rest ==> Get(out, w.Target(n)) == Get(grants, w.Target(n))
      decreases |rest|
    {
      var n :| n in rest;
      ghost var before := out;
      assert Get(before, w.Target(n)) == Get(grants, w.Target(n));
      out := StripKey(out, w.Target(n), shared);
      StripOne(grants, before, out, w, names - rest, shared, n);
      forall m | m in rest - {n} ensures Get(out, w.Target(m)) == Get(grants, w.Target(m)) {
        assert w.Target(m) != w.Target(n);
      }
      assert names - (rest - {n}) == names - rest + {n};
      rest := rest - {n};
    }
    assert names - rest == names;
  }

  lemma StripOne(grants: map<GrantKey, Privileges>, before: map<GrantKey, Privileges>, out: map<GrantKey, Privileges>,
                 w: Pattern, names: set<string>, shared: Privileges, n: string)
    requires Stripped(grants, before, w, names, shared) && Get(before, w.Target(n)) == Get(grants, w.Target(n))
    requires forall k :: k != w.Target(n) ==> Get(out, k) == Get(before, k)
    requires Lookup(out, w.Target(n)) == Lookup(before, w.Target(n)) - shared
    ensures Stripped(grants, out, w, names + {n}, shared)
  {
    forall m | m in names + {n}
      ensures Lookup(out, w.Target(m)) == Lookup(grants, w.Target(m)) - shared
    {
      if m != n {
        assert Get(out, w.Target(m)) == Get(before, w.Target(m));
      }
    }
  }

  /** What holds of the rows once the patterns of `done` have been compacted. */
  ghost predicate Compacted(db: Database, grants: map<GrantKey, Privileges>, done: seq<Pattern>) {
    && Reads(db, grants)
    && (forall k :: k in grants && IsStar(k) ==> exists w :: w in done && w.Key() == k && grants[k] <= w.privileges)
    && (forall w :: w in done ==> Compacts(db, grants, w.Key(), w.privileges))
  }

  ghost predicate DistinctKeys(patterns: seq<Pattern>) {
    forall i, j :: 0 <= i < j < |patterns| ==> patterns[i].Key() != patterns[j].Key()
  }

  /** Inspection's compaction of per-name rows under the declared wildcards. */
  method NormalizeWildcardGrants(db: Database, patterns: seq<Pattern>) returns (grants: map<GrantKey, Privileges>)
    requires DistinctKeys(patterns)
    requires forall k :: k in db.acl ==> !IsStar(k)
    requires forall s :: s in db.inventory ==> "*" !in db.inventory[s]
    ensures Compacted(db, grants, patterns)
  {
    grants := db.acl;
    for i := 0 to |patterns|
      invariant Compacted(db, grants, patterns[..i])
    {
      var w := patterns[i];
      ghost var before := grants;
      assert w.Key() !in grants;
      var names := {};
      if (w.objectType, w.schema) in db.inventory {
        names := db.inventory[(w.objectType, w.schema)];
      }
      if names == {} {
        grants := grants[w.Key() := w.privileges];
        PatternNames(db, w);
        CompactVacuous(db, before, patterns[..i], w);
      } else {
        var shared := SharedPrivileges(grants, w, names);
        PatternNames(db, w);
        if shared != {} {
          grants := StripShared(grants[w.Key() := shared], w, names, shared);
          CompactShared(db, before, grants, patterns[..i], w);
        } else {
          CompactNothing(db, before, patterns[..i], w);
        }
      }
      assert patterns[..i + 1] == patterns[..i] + [w];
    }
    assert patterns[..|patterns|] == patterns;
  }

  /** A pattern's targets are the objects of its scope. */
  ghost predicate TargetsAre(db: Database, w: Pattern) {
    forall t: GrantKey :: t in Members(db.inventory, w.Key()) <==>
      t.name.Some? && t.name.value in Names(db.inventory, w.Key()) && t == w.Target(t.name.value)
  }

  lemma PatternNames(db: Database, w: Pattern)
    requires forall s :: s in db.inventory ==> "*" !in db.inventory[s]
    ensures Names(db.inventory, w.Key())
         == if (w.objectType, w.schema) in db.inventory then db.inventory[(w.objectType, w.schema)] else {}
    ensures TargetsAre(db, w)
  {
    forall t: GrantKey | t.name.Some? && t.name.value in Names(db.inventory, w.Key()) && t == w.Target(t.name.value)
      ensures t in Members(db.inventory, w.Key())
    {
      assert t == w.Key().(name := Some(t.name.value));
    }
  }

  lemma CompactVacuous(db: Database, grants: map<GrantKey, Privileges>, done: seq<Pattern>, w: Pattern)
    requires Compacted(db, grants, done) && w.Key() !in grants && Names(db.inventory, w.Key()) == {}
    ensures Compacted(db, grants[w.Key() := w.privileges], done + [w])
  {
    forall t, p | Exists(db.inventory, t)
      ensures p in Lookup(db.acl, t) <==>
        p in Lookup(grants[w.Key() := w.privileges], t) || p in Lookup(grants[w.Key() := w.privileges], Star(t))
    {
      MembersScope(db.inventory, w.Key(), t);
    }
    assert w in done + [w];
  }

  lemma CompactNothing(db: Database, grants: map<GrantKey, Privileges>, done: seq<Pattern>, w: Pattern)
    requires Compacted(db, grants, done) && w.Key() !in grants
    requires TargetsAre(db, w)
    requires HeldByAll(grants, w, Names(db.inventory, w.Key())) == {}
    ensures Compacted(db, grants, done + [w])
  {
    forall p | p in w.privileges
      ensures !Everywhere(db, w.Key(), p)
    {
      SharedIsHeld(db, grants, w, p);
    }
  }

  lemma SharedIsHeld(db: Database, grants: map<GrantKey, Privileges>, w: Pattern, p: Privilege)
    requires Reads(db, grants) && w.Key() !in grants && p in w.privileges
    requires TargetsAre(db, w)
    ensures p in HeldByAll(grants, w, Names(db.inventory, w.Key())) <==> Everywhere(db, w.Key(), p)
  {
    forall n | n in Names(db.inventory, w.Key())
      ensures p in Lookup(grants, w.Target(n)) <==> p in Lookup(db.acl, w.Target(n))
    {
      MembersScope(db.inventory, w.Key(), w.Target(n));
    }
    if p in HeldByAll(grants, w, Names(db.inventory, w.Key())) {
      forall t | t in Members(db.inventory, w.Key()) ensures p in Lookup(db.acl, t) {
        assert t == w.Target(t.name.value);
      }
    }
    if Everywhere(db, w.Key(), p) {
      forall n | n in Names(db.inventory, w.Key()) ensures p in Lookup(grants, w.Target(n)) {
        assert w.Target(n) in Members(db.inventory, w.Key());
      }
    }
  }

  lemma CompactShared(db: Database, before: map<GrantKey, Privileges>, grants: map<GrantKey, Privileges>,
                      done: seq<Pattern>, w: Pattern)
    requires Compacted(db, before, done) && w.Key() !in before
    requires TargetsAre(db, w)
    requires var shared := HeldByAll(before, w, Names(db.inventory, w.Key()));
      Stripped(before[w.Key() := shared], grants, w, Names(db.inventory, w.Key()), shared)
    ensures Compacted(db, grants, done + [w])
  {
    var names := Names(db.inventory, w.Key());
    var shared := HeldByAll(before, w, names);
    assert "*" !in names;
    forall k | IsStar(k)
      ensures Get(grants, k) == Get(before[w.Key() := shared], k)
    {
    }
    forall t, p | Exists(db.inventory, t)
      ensures p in Lookup(db.acl, t) <==> p in Lookup(grants, t) || p in Lookup(grants, Star(t))
    {
      MembersScope(db.inventory, w.Key(), t);
      MembersScope(db.inventory, Star(t), t);
      if Star(t) == w.Key() {
        assert t == w.Target(t.name.value) && t.name.value in names;
        assert p in shared ==> p in Lookup(before, t);
      } else {
        assert Get(grants, Star(t)) == Get(before, Star(t));
        assert Get(grants, t) == Get(before, t);
      }
    }
    assert w in done + [w];
    forall p | p in w.privileges && Everywhere(db, w.Key(), p)
      ensures p in Lookup(grants, w.Key())
    {
      SharedIsHeld(db, before, w, p);
      assert Get(grants, w.Key()) == Get(before[w.Key() := shared], w.Key());
    }
    forall v | v in done
      ensures Compacts(db, grants, v.Key(), v.privileges)
    {
      assert Get(grants, v.Key()) == Get(before[w.Key() := shared], v.Key());
      if v.Key() != w.Key() {
        assert Compacts(db, before, v.Key(), v.privileges);
      }
    }
  }
}
