/**
 The approval form of a plan: what an approval is bound to.
 */
module Approval {
  import opened Orders
  import opened Model
  import opened Plan

  // ---- Effects ----

  /** A change as approved: a password is represented by the source it was derived from. */
  datatype Effect = PasswordFrom(name: string, source: string) | Plain(change: Change)

  function EffectOf(change: Change, sources: map<string, string>): Option<Effect> {
    if !change.SetPassword? then Some(Plain(change))
    else if change.name in sources then Some(PasswordFrom(change.name, sources[change.name]))
    else None
  }

  /** The effects of all changes; nothing when a password has no recorded source. */
  function Effects(changes: seq<Change>, sources: map<string, string>): Option<seq<Effect>> {
    if changes == [] then Some([])
    else
      var init, last := Effects(changes[..|changes| - 1], sources), EffectOf(changes[|changes| - 1], sources);
      if init.None? || last.None? then None else Some(init.value + [last.value])
  }

  method CollectEffects(changes: seq<Change>, sources: map<string, string>) returns (effects: Option<seq<Effect>>)
    ensures effects == Effects(changes, sources)
  {
    var done: seq<Effect> := [];
    for i := 0 to |changes|
      invariant Effects(changes[..i], sources) == Some(done)
    {
      assert changes[..i + 1][..i] == changes[..i];
      var effect := EffectOf(changes[i], sources);
      if effect.None? {
        EffectsFail(changes, i + 1, sources);
        return None;
      }
      done := done + [effect.value];
    }
    assert changes[..|changes|] == changes;
    effects := Some(done);
  }

  lemma {:induction false} EffectsFail(changes: seq<Change>, i: nat, sources: map<string, string>)
    requires i <= |changes| && Effects(changes[..i], sources).None?
    ensures Effects(changes, sources).None?
    decreases |changes|
  {
    if i < |changes| {
      assert changes[..|changes| - 1][..i] == changes[..i];
      EffectsFail(changes[..|changes| - 1], i, sources);
    } else {
      assert changes[..i] == changes;
    }
  }

  // ---- Sorting by serialized text ----

  ghost predicate InOrder(effects: seq<Effect>, render: Effect -> string) {
    forall i, j :: 0 <= i < j < |effects| ==> StringLe(render(effects[i]), render(effects[j]))
  }

  /** Insert after everything that does not sort behind the new effect. */
  function Insert(effects: seq<Effect>, x: Effect, render: Effect -> string): seq<Effect> {
    if effects == [] then [x]
    else
      var last := effects[|effects| - 1];
      if StringLe(render(last), render(x)) then effects + [x]
      else Insert(effects[..|effects| - 1], x, render) + [last]
  }

  function Arrange(effects: seq<Effect>, render: Effect -> string): seq<Effect> {
    if effects == [] then []
    else Insert(Arrange(effects[..|effects| - 1], render), effects[|effects| - 1], render)
  }

  method SortEffects(effects: seq<Effect>, render: Effect -> string) returns (sorted: seq<Effect>)
    ensures sorted == Arrange(effects, render)
  {
    sorted := [];
    for i := 0 to |effects|
      invariant sorted == Arrange(effects[..i], render)
    {
      assert effects[..i + 1][..i] == effects[..i];
      sorted := Insert(sorted, effects[i], render);
    }
    assert effects[..|effects|] == effects;
  }

  lemma OrderPush(effects: seq<Effect>, x: Effect, render: Effect -> string)
    requires InOrder(effects, render) && forall e :: e in effects ==> StringLe(render(e), render(x))
    ensures InOrder(effects + [x], render)
  {
  }

  lemma AllBelow(effects: seq<Effect>, x: Effect, render: Effect -> string, e: Effect)
    requires InOrder(effects, render) && effects != [] && StringLe(render(effects[|effects| - 1]), render(x))
    requires e in effects
    ensures StringLe(render(e), render(x))
  {
    LastIsGreatest(effects, e, render);
    StringLeTransitive(render(e), render(effects[|effects| - 1]), render(x));
  }

  lemma {:induction false} InsertKeeps(effects: seq<Effect>, x: Effect, render: Effect -> string)
    requires InOrder(effects, render)
    ensures InOrder(Insert(effects, x, render), render)
    ensures multiset(Insert(effects, x, render)) == multiset(effects) + multiset{x}
  {
    if effects != [] {
      var init, last := effects[..|effects| - 1], effects[|effects| - 1];
      assert effects == init + [last];
      PrefixInOrder(effects, render);
      if StringLe(render(last), render(x)) {
        forall e | e in effects ensures StringLe(render(e), render(x)) { AllBelow(effects, x, render, e); }
        OrderPush(effects, x, render);
      } else {
        InsertKeeps(init, x, render);
        StringLeConnected(render(last), render(x));
        var r := Insert(init, x, render);
        forall e | e in r ensures StringLe(render(e), render(last)) {
          assert e in multiset(r) && e in multiset(init) + multiset{x};
          LastIsGreatest(effects, if e == x then last else e, render);
        }
        OrderPush(r, last, render);
      }
    }
  }

  lemma {:induction false} ArrangeKeeps(effects: seq<Effect>, render: Effect -> string)
    ensures InOrder(Arrange(effects, render), render) && multiset(Arrange(effects, render)) == multiset(effects)
  {
    if effects != [] {
      var init, last := effects[..|effects| - 1], effects[|effects| - 1];
      assert effects == init + [last];
      ArrangeKeeps(init, render);
      InsertKeeps(Arrange(init, render), last, render);
    }
  }

  ghost predicate Injective(render: Effect -> string) {
    forall a, b :: render(a) == render(b) ==> a == b
  }

  /** With unambiguous text, an ordered listing of a multiset is unique. */
  lemma {:induction false} ListingIsUnique(xs: seq<Effect>, ys: seq<Effect>, render: Effect -> string)
    requires InOrder(xs, render) && InOrder(ys, render) && multiset(xs) == multiset(ys) && Injective(render)
    ensures xs == ys
    decreases |xs|
  {
    assert |xs| == |multiset(xs)| && |ys| == |multiset(ys)|;
    if xs != [] {
      SameLast(xs, ys, render);
      WithoutLast(xs);
      WithoutLast(ys);
      PrefixInOrder(xs, render);
      PrefixInOrder(ys, render);
      ListingIsUnique(xs[..|xs| - 1], ys[..|ys| - 1], render);
      Whole(xs, ys);
    }
  }

  lemma WithoutLast<T>(xs: seq<T>)
    requires xs != []
    ensures multiset(xs[..|xs| - 1]) == multiset(xs) - multiset{xs[|xs| - 1]}
  {
    assert xs == xs[..|xs| - 1] + [xs[|xs| - 1]];
  }

  lemma PrefixInOrder(xs: seq<Effect>, render: Effect -> string)
    requires xs != [] && InOrder(xs, render)
    ensures InOrder(xs[..|xs| - 1], render)
  {
  }

  lemma Whole<T>(xs: seq<T>, ys: seq<T>)
    requires xs != [] && ys != [] && xs[|xs| - 1] == ys[|ys| - 1] && xs[..|xs| - 1] == ys[..|ys| - 1]
    ensures xs == ys
  {
    assert xs == xs[..|xs| - 1] + [xs[|xs| - 1]] && ys == ys[..|ys| - 1] + [ys[|ys| - 1]];
  }

  lemma SameLast(xs: seq<Effect>, ys: seq<Effect>, render: Effect -> string)
    requires InOrder(xs, render) && InOrder(ys, render) && multiset(xs) == multiset(ys) && Injective(render)
    requires xs != [] && ys != []
    ensures xs[|xs| - 1] == ys[|ys| - 1]
  {
    var x, y := xs[|xs| - 1], ys[|ys| - 1];
    assert x in multiset(xs) && y in multiset(ys);
    assert x in multiset(ys) && y in multiset(xs);
    LastIsGreatest(xs, y, render);
    LastIsGreatest(ys, x, render);
    StringLeAntisymmetric(render(x), render(y));
  }

  lemma LastIsGreatest(xs: seq<Effect>, y: Effect, render: Effect -> string)
    requires InOrder(xs, render) && y in xs
    ensures StringLe(render(y), render(xs[|xs| - 1]))
  {
    var i :| 0 <= i < |xs| && xs[i] == y;
    if i == |xs| - 1 {
      StringLeConnected(render(y), render(y));
    }
  }

  // ---- The approval form ----

  datatype TargetIdentity = TargetIdentity(physical: Option<string>, logical: Option<string>)

  datatype Inputs = Inputs(
    mode: Mode, target: string, identity: TargetIdentity,
    sources: map<string, string>, ownedRoles: seq<string>, ownedSchemas: seq<string>)

  /** Everything that enters the digest. */
  datatype ChangeSet = ChangeSet(
    mode: Mode, target: string, physical: Option<string>, logical: Option<string>,
    ownedRoles: set<string>, ownedSchemas: set<string>, effects: seq<Effect>)

  function FormOf(changes: seq<Change>, inputs: Inputs, render: Effect -> string): Option<ChangeSet> {
    var effects := Effects(changes, inputs.sources);
    if effects.None? then None
    else Some(ChangeSet(inputs.mode, inputs.target, inputs.identity.physical, inputs.identity.logical,
                (set r | r in inputs.ownedRoles), (set s | s in inputs.ownedSchemas), Arrange(effects.value, render)))
  }

  method CanonicalChangeSet(changes: seq<Change>, inputs: Inputs, render: Effect -> string)
    returns (form: Option<ChangeSet>)
    ensures form == FormOf(changes, inputs, render)
  {
    var effects := CollectEffects(changes, inputs.sources);
    if effects.None? {
      return None;
    }
    var sorted := SortEffects(effects.value, render);
    form := Some(ChangeSet(inputs.mode, inputs.target, inputs.identity.physical, inputs.identity.logical,
      (set r | r in inputs.ownedRoles), (set s | s in inputs.ownedSchemas), sorted));
  }

  /** Equal up to the verifier of a password. */
  predicate Resalted(a: Change, b: Change) {
    a == b || (a.SetPassword? && b.SetPassword? && a.name == b.name)
  }

  lemma {:induction false} ResaltedEffects(a: seq<Change>, b: seq<Change>, sources: map<string, string>)
    requires |a| == |b| && forall i :: 0 <= i < |a| ==> Resalted(a[i], b[i])
    ensures Effects(a, sources) == Effects(b, sources)
  {
    if a != [] {
      ResaltedEffects(a[..|a| - 1], b[..|b| - 1], sources);
    }
  }

  /** How often an effect occurs depends only on how often the changes do. */
  ghost function EffectBag(changes: multiset<Change>, sources: map<string, string>): multiset<Effect>
    decreases |changes|
  {
    if changes == multiset{} then multiset{}
    else
      var c :| c in changes;
      EffectBag(changes - multiset{c}, sources) + Single(c, sources)
  }

  function Single(change: Change, sources: map<string, string>): multiset<Effect> {
    var e := EffectOf(change, sources);
    if e.Some? then multiset{e.value} else multiset{}
  }

  lemma {:induction false} BagTakesOut(changes: multiset<Change>, x: Change, sources: map<string, string>)
    requires x in changes
    ensures EffectBag(changes, sources) == EffectBag(changes - multiset{x}, sources) + Single(x, sources)
    decreases |changes|
  {
    var c :| && c in changes
             && EffectBag(changes, sources) == EffectBag(changes - multiset{c}, sources) + Single(c, sources);
    if c != x {
      var both := changes - multiset{c} - multiset{x};
      assert both == changes - multiset{x} - multiset{c};
      BagTakesOut(changes - multiset{c}, x, sources);
      BagTakesOut(changes - multiset{x}, c, sources);
      BagSwap(EffectBag(both, sources), Single(x, sources), Single(c, sources));
    }
  }

  lemma BagSwap(a: multiset<Effect>, b: multiset<Effect>, c: multiset<Effect>)
    ensures a + b + c == a + c + b
  {
  }

  lemma {:induction false} EffectsBag(changes: seq<Change>, sources: map<string, string>)
    requires Effects(changes, sources).Some?
    ensures multiset(Effects(changes, sources).value) == EffectBag(multiset(changes), sources)
  {
    if changes != [] {
      var init, last := changes[..|changes| - 1], changes[|changes| - 1];
      assert changes == init + [last];
      EffectsBag(init, sources);
      BagTakesOut(multiset(changes), last, sources);
      assert multiset(changes) - multiset{last} == multiset(init);
    }
  }

  lemma {:induction false} EffectsDefined(changes: seq<Change>, sources: map<string, string>)
    ensures Effects(changes, sources).Some? <==> forall c :: c in changes ==> EffectOf(c, sources).Some?
  {
    if changes != [] {
      var init, last := changes[..|changes| - 1], changes[|changes| - 1];
      assert changes == init + [last];
      EffectsDefined(init, sources);
    }
  }

  /**
   Reordering the changes and re-salting their password verifiers leaves the
   approval form alone.
   */
  lemma FormIsStable(a: seq<Change>, b: seq<Change>, c: seq<Change>, inputs: Inputs, render: Effect -> string)
    requires Injective(render) && multiset(a) == multiset(b)
    requires |b| == |c| && forall i :: 0 <= i < |b| ==> Resalted(b[i], c[i])
    ensures FormOf(a, inputs, render) == FormOf(c, inputs, render)
  {
    ResaltedEffects(b, c, inputs.sources);
    EffectsDefined(a, inputs.sources);
    EffectsDefined(b, inputs.sources);
    forall x ensures x in a <==> x in b {
      assert x in a <==> x in multiset(a);
      assert x in b <==> x in multiset(b);
    }
    if Effects(a, inputs.sources).Some? {
      EffectsBag(a, inputs.sources);
      EffectsBag(b, inputs.sources);
      var ea, eb := Effects(a, inputs.sources).value, Effects(b, inputs.sources).value;
      ArrangeKeeps(ea, render);
      ArrangeKeeps(eb, render);
      ListingIsUnique(Arrange(ea, render), Arrange(eb, render), render);
    }
  }

  /** What an approval is bound to: effects however listed, mode, target, identity, and scope as sets. */
  ghost predicate SameApproval(a: seq<Change>, b: seq<Change>, x: Inputs, y: Inputs) {
    && Effects(a, x.sources).Some? && Effects(b, y.sources).Some?
    && multiset(Effects(a, x.sources).value) == multiset(Effects(b, y.sources).value)
    && x.mode == y.mode && x.target == y.target && x.identity == y.identity
    && (forall r :: r in x.ownedRoles <==> r in y.ownedRoles)
    && (forall s :: s in x.ownedSchemas <==> s in y.ownedSchemas)
  }

  lemma SameScope(a: seq<string>, b: seq<string>)
    ensures (set r | r in a) == (set r | r in b) <==> forall r :: r in a <==> r in b
  {
    var s, t := set r | r in a, set r | r in b;
    if s == t {
      forall r ensures r in a <==> r in b {
        assert r in s <==> r in t;
      }
    }
  }

  /** Two plans have the same approval form exactly when they approve the same thing. */
  lemma FormsAgreeIff(a: seq<Change>, b: seq<Change>, x: Inputs, y: Inputs, render: Effect -> string)
    requires Injective(render)
    ensures FormOf(a, x, render).Some? && FormOf(a, x, render) == FormOf(b, y, render) <==> SameApproval(a, b, x, y)
  {
    SameScope(x.ownedRoles, y.ownedRoles);
    SameScope(x.ownedSchemas, y.ownedSchemas);
    if Effects(a, x.sources).Some? && Effects(b, y.sources).Some? {
      var ea, eb := Effects(a, x.sources).value, Effects(b, y.sources).value;
      ArrangeKeeps(ea, render);
      ArrangeKeeps(eb, render);
      if multiset(ea) == multiset(eb) {
        ListingIsUnique(Arrange(ea, render), Arrange(eb, render), render);
      }
    }
  }

  // ---- The target at execution time ----

  datatype Reason = TargetChanged | IdentityUnavailable | IdentityAppeared | PhysicalRequired

  datatype Verdict = Proceed | Superseded(reason: Reason) | Blocked(reason: Reason)

  function CompareIdentity(approved: Option<string>, observed: Option<string>): Option<Reason> {
    match (approved, observed)
    case (Some(a), Some(o)) => if a == o then None else Some(TargetChanged)
    case (Some(_), None) => Some(IdentityUnavailable)
    case (None, Some(_)) => Some(IdentityAppeared)
    case (None, None) => None
  }

  function VerdictOn(approved: TargetIdentity, observed: TargetIdentity, requirePhysical: bool): Verdict {
    var physical := CompareIdentity(approved.physical, observed.physical);
    var logical := CompareIdentity(approved.logical, observed.logical);
    if requirePhysical && (observed.physical.None? || approved.physical.None?) then Blocked(PhysicalRequired)
    else if physical.Some? then Superseded(physical.value)
    else if logical.Some? then Superseded(logical.value)
    else Proceed
  }

  method EvaluateTargetIdentity(approved: TargetIdentity, observed: TargetIdentity, requirePhysical: bool)
    returns (v: Verdict)
    ensures v == VerdictOn(approved, observed, requirePhysical)
    ensures v.Proceed? <==> approved == observed && (requirePhysical ==> observed.physical.Some?)
  {
    if requirePhysical && (observed.physical.None? || approved.physical.None?) {
      return Blocked(PhysicalRequired);
    }
    var pairs := [(approved.physical, observed.physical), (approved.logical, observed.logical)];
    for i := 0 to 2
      invariant forall j :: 0 <= j < i ==> CompareIdentity(pairs[j].0, pairs[j].1).None?
    {
      var reason := CompareIdentity(pairs[i].0, pairs[i].1);
      if reason.Some? {
        assert i > 0 ==> CompareIdentity(pairs[0].0, pairs[0].1).None?;
        return Superseded(reason.value);
      }
    }
    assert CompareIdentity(pairs[0].0, pairs[0].1).None? && CompareIdentity(pairs[1].0, pairs[1].1).None?;
    v := Proceed;
  }
}
