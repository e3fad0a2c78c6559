/**
 Role attributes: the delta between two role states and its application.
 */
module Roles {
  import opened Sequences
  import opened Orders
  import opened Model

  // ---- The delta ----

  /** The scalar attributes of a state, numbered in the order they are compared. */
  function Scalar(s: RoleState, i: nat): RoleAttribute {
    match i
    case 0 => Login(s.login)
    case 1 => Superuser(s.superuser)
    case 2 => Createdb(s.createdb)
    case 3 => Createrole(s.createrole)
    case 4 => Inherit(s.inherit)
    case 5 => Replication(s.replication)
    case 6 => Bypassrls(s.bypassrls)
    case 7 => ConnectionLimit(s.connectionLimit)
    case _ => ValidUntil(s.validUntil)
  }

  /** The first `n` scalar attributes of `to`, those that differ from `from`. */
  ghost function ScalarDelta(from: RoleState, to: RoleState, n: nat): seq<RoleAttribute> {
    if n == 0 then []
    else if Scalar(from, n - 1) == Scalar(to, n - 1) then ScalarDelta(from, to, n - 1)
    else ScalarDelta(from, to, n - 1) + [Scalar(to, n - 1)]
  }

  ghost function SetFn(from: RoleState, to: RoleState): string -> seq<RoleAttribute> {
    p => if p in to.config && Get(from.config, p) != Some(to.config[p])
         then [SetConfig(p, to.config[p])] else []
  }

  ghost function ResetFn(to: RoleState): string -> seq<RoleAttribute> {
    p => if p !in to.config then [ResetConfig(p)] else []
  }

  /** The attribute changes that turn `from` into `to`, comments aside. */
  ghost function Delta(from: RoleState, to: RoleState): seq<RoleAttribute> {
    ScalarDelta(from, to, 9)
    + FlatMap(Sorted(to.config.Keys, StringLe), SetFn(from, to))
    + FlatMap(Sorted(from.config.Keys, StringLe), ResetFn(to))
  }

  method SettingChanges(from: RoleState, to: RoleState) returns (sets: seq<RoleAttribute>)
    ensures sets == FlatMap(Sorted(to.config.Keys, StringLe), SetFn(from, to))
  {
    sets := [];
    var declared := SortStrings(to.config.Keys);
    ghost var f := SetFn(from, to);
    for i := 0 to |declared|
      invariant sets == FlatMap(declared[..i], f)
    {
      var p := declared[i];
      assert p in declared;
      FlatMapSnoc(declared, i, f);
      if p !in from.config || from.config[p] != to.config[p] {
        sets := sets + [SetConfig(p, to.config[p])];
      }
    }
    assert declared[..|declared|] == declared;
  }

  method SettingResets(from: RoleState, to: RoleState) returns (resets: seq<RoleAttribute>)
    ensures resets == FlatMap(Sorted(from.config.Keys, StringLe), ResetFn(to))
  {
    resets := [];
    var present := SortStrings(from.config.Keys);
    ghost var f := ResetFn(to);
    for i := 0 to |present|
      invariant resets == FlatMap(present[..i], f)
    {
      FlatMapSnoc(present, i, f);
      if present[i] !in to.config {
        resets := resets + [ResetConfig(present[i])];
      }
    }
    assert present[..|present|] == present;
  }

  method ChangedAttributes(from: RoleState, to: RoleState) returns (changes: seq<RoleAttribute>)
    ensures changes == Delta(from, to)
  {
    var scalars: seq<RoleAttribute> := [];
    for i := 0 to 9
      invariant scalars == ScalarDelta(from, to, i)
    {
      if Scalar(from, i) != Scalar(to, i) {
        scalars := scalars + [Scalar(to, i)];
      }
    }
    var sets := SettingChanges(from, to);
    var resets := SettingResets(from, to);
    changes := scalars + sets + resets;
  }

  // ---- Its application ----

  function ApplyAttribute(s: RoleState, a: RoleAttribute): RoleState {
    match a
    case Login(v) => s.(login := v)
    case Superuser(v) => s.(superuser := v)
    case Createdb(v) => s.(createdb := v)
    case Createrole(v) => s.(createrole := v)
    case Inherit(v) => s.(inherit := v)
    case Replication(v) => s.(replication := v)
    case Bypassrls(v) => s.(bypassrls := v)
    case ConnectionLimit(v) => s.(connectionLimit := v)
    case ValidUntil(v) => s.(validUntil := v)
    case SetConfig(p, v) => s.(config := s.config[p := v])
    case ResetConfig(p) => s.(config := s.config - {p})
  }

  function ApplyAttributes(s: RoleState, attributes: seq<RoleAttribute>): RoleState {
    if attributes == [] then s
    else ApplyAttribute(ApplyAttributes(s, attributes[..|attributes| - 1]), attributes[|attributes| - 1])
  }

  lemma {:induction false} ApplyPush(s: RoleState, cs: seq<RoleAttribute>, a: RoleAttribute)
    ensures ApplyAttributes(s, cs + [a]) == ApplyAttribute(ApplyAttributes(s, cs), a)
  {
    assert (cs + [a])[..|cs|] == cs;
  }

  lemma {:induction false} ApplyConcat(s: RoleState, a: seq<RoleAttribute>, b: seq<RoleAttribute>)
    ensures ApplyAttributes(s, a + b) == ApplyAttributes(ApplyAttributes(s, a), b)
  {
    if b == [] {
      assert a + b == a;
    } else {
      ApplyConcat(s, a, b[..|b| - 1]);
      assert (a + b)[..|a + b| - 1] == a + b[..|b| - 1];
    }
  }

  /** `r` is `s` with the settings in `names` taken from `config`. */
  ghost predicate Overridden(s: RoleState, r: RoleState, names: seq<string>, config: map<string, string>) {
    && r == s.(config := r.config)
    && forall p :: Get(r.config, p) == if p in names then Get(config, p) else Get(s.config, p)
  }

  lemma OverrideKeep(s: RoleState, r: RoleState, names: seq<string>, config: map<string, string>, p: string)
    requires Overridden(s, r, names, config) && Get(r.config, p) == Get(config, p)
    ensures Overridden(s, r, names + [p], config)
  {
  }

  lemma OverrideSet(s: RoleState, r: RoleState, names: seq<string>, config: map<string, string>, p: string)
    requires Overridden(s, r, names, config) && p in config
    ensures Overridden(s, ApplyAttribute(r, SetConfig(p, config[p])), names + [p], config)
  {
  }

  lemma OverrideReset(s: RoleState, r: RoleState, names: seq<string>, config: map<string, string>, p: string)
    requires Overridden(s, r, names, config) && p !in config
    ensures Overridden(s, ApplyAttribute(r, ResetConfig(p)), names + [p], config)
  {
  }

  lemma {:induction false} ApplySets(s: RoleState, from: RoleState, to: RoleState, xs: seq<string>)
    requires forall p :: p in xs ==> p in to.config
    requires forall p :: p in xs ==> Get(s.config, p) == Get(from.config, p)
    ensures Overridden(s, ApplyAttributes(s, FlatMap(xs, SetFn(from, to))), xs, to.config)
  {
    if xs != [] {
      var init, last := xs[..|xs| - 1], xs[|xs| - 1];
      assert xs == init + [last];
      ApplySets(s, from, to, init);
      var done := FlatMap(init, SetFn(from, to));
      var d := SetFn(from, to)(last);
      if d == [] {
        assert done + d == done;
        OverrideKeep(s, ApplyAttributes(s, done), init, to.config, last);
      } else {
        ApplyPush(s, done, d[0]);
        OverrideSet(s, ApplyAttributes(s, done), init, to.config, last);
      }
    }
  }

  lemma {:induction false} ApplyResets(s: RoleState, to: RoleState, xs: seq<string>)
    requires forall p :: p in to.config ==> Get(s.config, p) == Get(to.config, p)
    ensures Overridden(s, ApplyAttributes(s, FlatMap(xs, ResetFn(to))), xs, to.config)
  {
    if xs != [] {
      var init, last := xs[..|xs| - 1], xs[|xs| - 1];
      assert xs == init + [last];
      ApplyResets(s, to, init);
      var done := FlatMap(init, ResetFn(to));
      var d := ResetFn(to)(last);
      if d == [] {
        assert done + d == done;
        OverrideKeep(s, ApplyAttributes(s, done), init, to.config, last);
      } else {
        ApplyPush(s, done, d[0]);
        OverrideReset(s, ApplyAttributes(s, done), init, to.config, last);
      }
    }
  }

  /** The first `i` scalars taken from `to`, the rest from `from`. */
  ghost function Mixed(from: RoleState, to: RoleState, i: nat): RoleState {
    RoleState(
      if i > 0 then to.login else from.login,
      if i > 1 then to.superuser else from.superuser,
      if i > 2 then to.createdb else from.createdb,
      if i > 3 then to.createrole else from.createrole,
      if i > 4 then to.inherit else from.inherit,
      if i > 5 then to.replication else from.replication,
      if i > 6 then to.bypassrls else from.bypassrls,
      if i > 7 then to.connectionLimit else from.connectionLimit,
      from.comment,
      if i > 8 then to.validUntil else from.validUntil,
      from.config)
  }

  /** Scalar `i` moves a mixed state one step towards `to`. */
  ghost predicate Steps(from: RoleState, to: RoleState, i: nat) {
    ApplyAttribute(Mixed(from, to, i), Scalar(to, i)) == Mixed(from, to, i + 1)
  }

  lemma StepLogin(from: RoleState, to: RoleState)
    ensures Steps(from, to, 0)
  {}
  lemma StepSuperuser(from: RoleState, to: RoleState)
    ensures Steps(from, to, 1)
  {}
  lemma StepCreatedb(from: RoleState, to: RoleState)
    ensures Steps(from, to, 2)
  {}
  lemma StepCreaterole(from: RoleState, to: RoleState)
    ensures Steps(from, to, 3)
  {}
  lemma StepInherit(from: RoleState, to: RoleState)
    ensures Steps(from, to, 4)
  {}
  lemma StepReplication(from: RoleState, to: RoleState)
    ensures Steps(from, to, 5)
  {}
  lemma StepBypassrls(from: RoleState, to: RoleState)
    ensures Steps(from, to, 6)
  {}
  lemma StepConnectionLimit(from: RoleState, to: RoleState)
    ensures Steps(from, to, 7)
  {}
  lemma StepValidUntil(from: RoleState, to: RoleState)
    ensures Steps(from, to, 8)
  {}

  lemma {:induction false} MixedStep(from: RoleState, to: RoleState, i: nat)
    requires i < 9
    ensures Steps(from, to, i)
  {
    match i
    case 0 => StepLogin(from, to);
    case 1 => StepSuperuser(from, to);
    case 2 => StepCreatedb(from, to);
    case 3 => StepCreaterole(from, to);
    case 4 => StepInherit(from, to);
    case 5 => StepReplication(from, to);
    case 6 => StepBypassrls(from, to);
    case 7 => StepConnectionLimit(from, to);
    case _ => StepValidUntil(from, to);
  }

  lemma MixedSame(from: RoleState, to: RoleState, i: nat)
    requires i < 9 && Scalar(from, i) == Scalar(to, i)
    ensures Mixed(from, to, i) == Mixed(from, to, i + 1)
  {
  }

  lemma {:induction false} ApplyScalars(from: RoleState, to: RoleState, i: nat)
    requires i <= 9
    ensures ApplyAttributes(from, ScalarDelta(from, to, i)) == Mixed(from, to, i)
  {
    if i > 0 {
      ApplyScalars(from, to, i - 1);
      if Scalar(from, i - 1) == Scalar(to, i - 1) {
        MixedSame(from, to, i - 1);
      } else {
        MixedStep(from, to, i - 1);
        ApplyPush(from, ScalarDelta(from, to, i - 1), Scalar(to, i - 1));
      }
    }
  }

  lemma {:induction false} ScalarDeltaNone(from: RoleState, to: RoleState, i: nat)
    requires i <= 9 && from.(comment := to.comment) == to
    ensures ScalarDelta(from, to, i) == []
  {
    if i > 0 {
      ScalarDeltaNone(from, to, i - 1);
    }
  }

  /** Applying the delta reaches the target state; only the comment is out of its reach. */
  lemma DeltaReaches(from: RoleState, to: RoleState)
    ensures ApplyAttributes(from, Delta(from, to)) == to.(comment := from.comment)
  {
    var scalars := ScalarDelta(from, to, 9);
    var declared := Sorted(to.config.Keys, StringLe);
    var present := Sorted(from.config.Keys, StringLe);
    var sets, resets := FlatMap(declared, SetFn(from, to)), FlatMap(present, ResetFn(to));
    ApplyScalars(from, to, 9);
    ApplyConcat(from, scalars, sets);
    ApplyConcat(from, scalars + sets, resets);
    var s1 := ApplyAttributes(from, scalars);
    var s2 := ApplyAttributes(s1, sets);
    ApplySets(s1, from, to, declared);
    ApplyResets(s2, to, present);
    SameGets(ApplyAttributes(s2, resets).config, to.config);
  }

  lemma SameGets<K(!new), V>(m: map<K, V>, n: map<K, V>)
    requires forall k :: Get(m, k) == Get(n, k)
    ensures m == n
  {
    forall k
      ensures k in m <==> k in n
      ensures k in m ==> m[k] == n[k]
    {
      assert Get(m, k) == Get(n, k);
    }
  }

  /** The delta is empty exactly when the states agree up to the comment. */
  lemma DeltaEmpty(from: RoleState, to: RoleState)
    ensures Delta(from, to) == [] <==> from.(comment := to.comment) == to
  {
    if Delta(from, to) == [] {
      DeltaReaches(from, to);
    } else if from.(comment := to.comment) == to {
      ScalarDeltaNone(from, to, 9);
      var declared, present := Sorted(to.config.Keys, StringLe), Sorted(from.config.Keys, StringLe);
      var a := (FlatMap(declared, SetFn(from, to)) + FlatMap(present, ResetFn(to)))[0];
      InFlatMap(declared, SetFn(from, to), a);
      InFlatMap(present, ResetFn(to), a);
      assert false;
    }
  }
}
