/**
 Where password changes are placed in a plan: by injection of verifiers, and by
 its redacted twin for review.
 */
module Passwords {
  import opened Sequences
  import opened Orders
  import opened Model
  import opened Manifest
  import opened Plan

  const REDACTED := "[REDACTED]"

  // ---- Injection ----

  function CreatedNames(changes: seq<Change>): set<string> {
    set change | change in changes && change.CreateRole? :: change.name
  }

  /** A new role's password follows its creation. */
  ghost function InjectFn(verifiers: map<string, string>): Change -> seq<Change> {
    (change: Change) =>
      if change.CreateRole? && change.name in verifiers then [change, SetPassword(change.name, verifiers[change.name])]
      else [change]
  }

  ghost function SetFn(verifiers: map<string, string>): string -> seq<Change> {
    n => if n in verifiers then [SetPassword(n, verifiers[n])] else []
  }

  /** The passwords of roles the plan does not create, in name order. */
  ghost function Appended(changes: seq<Change>, verifiers: map<string, string>): seq<Change> {
    FlatMap(Sorted(verifiers.Keys - CreatedNames(changes), StringLe), SetFn(verifiers))
  }

  ghost function Injected(changes: seq<Change>, verifiers: map<string, string>): seq<Change> {
    FlatMap(changes, InjectFn(verifiers)) + Appended(changes, verifiers)
  }

  /** `verifiers` maps each role with a resolved password to the verifier computed for it. */
  method InjectPasswordChanges(changes: seq<Change>, verifiers: map<string, string>) returns (result: seq<Change>)
    ensures result == Injected(changes, verifiers)
  {
    if verifiers == map[] {
      NothingToInject(changes);
      return changes;
    }
    var created := CreatedNames(changes);
    result := [];
    ghost var f := InjectFn(verifiers);
    for i := 0 to |changes|
      invariant result == FlatMap(changes[..i], f)
    {
      FlatMapSnoc(changes, i, f);
      result := result + [changes[i]];
      if changes[i].CreateRole? && changes[i].name in verifiers {
        result := result + [SetPassword(changes[i].name, verifiers[changes[i].name])];
      }
    }
    assert changes[..|changes|] == changes;
    result := AppendPasswords(result, verifiers.Keys - created, verifiers);
  }

  method AppendPasswords(out: seq<Change>, names: set<string>, verifiers: map<string, string>) returns (r: seq<Change>)
    requires names <= verifiers.Keys
    ensures r == out + FlatMap(Sorted(names, StringLe), SetFn(verifiers))
  {
    r := out;
    var xs := SortStrings(names);
    ghost var f := SetFn(verifiers);
    for i := 0 to |xs|
      invariant r == out + FlatMap(xs[..i], f)
    {
      assert xs[i] in xs;
      PushPiece(out, xs, i, f);
      r := r + [SetPassword(xs[i], verifiers[xs[i]])];
    }
    assert xs[..|xs|] == xs;
  }

  lemma {:induction false} InjectNothing(changes: seq<Change>)
    ensures FlatMap(changes, InjectFn(map[])) == changes
  {
    if changes != [] {
      InjectNothing(changes[..|changes| - 1]);
      assert changes == changes[..|changes| - 1] + [changes[|changes| - 1]];
    }
  }

  lemma NothingToInject(changes: seq<Change>)
    ensures Injected(changes, map[]) == changes
  {
    InjectNothing(changes);
    var none: map<string, string> := map[];
    assert none.Keys - CreatedNames(changes) == {};
    assert changes + [] == changes;
  }

  // ---- The review twin ----

  /** Names of managed roles that declare a password. */
  function DeclaredNames(roles: seq<RoleDefinition>): set<string> {
    set r | r in roles && !r.external && r.password.Some? :: r.name
  }

  /** The names still waiting after a list of changes: each is used up by its first creation. */
  function Waiting(names: set<string>, changes: seq<Change>): set<string> {
    names - CreatedNames(changes)
  }

  /** The pass over the changes: intent is placed after the first creation of a waiting name. */
  ghost function Reviewed(names: set<string>, changes: seq<Change>): seq<Change> {
    if changes == [] then []
    else
      var init, last := changes[..|changes| - 1], changes[|changes| - 1];
      Reviewed(names, init) + [last]
      + if last.CreateRole? && last.name in Waiting(names, init) then [SetPassword(last.name, REDACTED)] else []
  }

  function Redactions(names: set<string>): map<string, string> {
    map n | n in names :: REDACTED
  }

  ghost function Intent(changes: seq<Change>, names: set<string>): seq<Change> {
    Reviewed(names, changes) + FlatMap(Sorted(Waiting(names, changes), StringLe), SetFn(Redactions(names)))
  }

  lemma WaitingSnoc(names: set<string>, changes: seq<Change>, i: nat)
    requires i < |changes|
    ensures Waiting(names, changes[..i + 1])
      == if changes[i].CreateRole? then Waiting(names, changes[..i]) - {changes[i].name}
         else Waiting(names, changes[..i])
  {
    assert changes[..i + 1] == changes[..i] + [changes[i]];
    assert forall c :: c in changes[..i + 1] <==> c in changes[..i] || c == changes[i];
  }

  method PasswordIntentChanges(changes: seq<Change>, roles: seq<RoleDefinition>) returns (review: seq<Change>)
    ensures review == Intent(changes, DeclaredNames(roles))
  {
    var declared := DeclaredNames(roles);
    var names := declared;
    review := [];
    for i := 0 to |changes|
      invariant names == Waiting(declared, changes[..i])
      invariant review == Reviewed(declared, changes[..i])
    {
      assert changes[..i + 1][..i] == changes[..i];
      WaitingSnoc(declared, changes, i);
      var places := changes[i].CreateRole? && changes[i].name in names;
      if places {
        names := names - {changes[i].name};
      }
      review := review + [changes[i]];
      if places {
        review := review + [SetPassword(changes[i].name, REDACTED)];
      }
    }
    assert changes[..|changes|] == changes;
    var redactions := Redactions(declared);
    review := AppendPasswords(review, names, redactions);
  }

  // ---- The twins agree ----

  function Redact(change: Change): Change {
    if change.SetPassword? then change.(password := REDACTED) else change
  }

  function RedactAll(changes: seq<Change>): seq<Change> {
    seq(|changes|, i requires 0 <= i < |changes| => Redact(changes[i]))
  }

  lemma RedactConcat(a: seq<Change>, b: seq<Change>)
    ensures RedactAll(a + b) == RedactAll(a) + RedactAll(b)
  {
  }

  predicate NoPasswords(changes: seq<Change>) {
    forall change :: change in changes ==> !change.SetPassword?
  }

  /** Redacting an injected plan is injecting redactions. */
  lemma {:induction false} RedactPass(changes: seq<Change>, verifiers: map<string, string>)
    requires NoPasswords(changes)
    ensures RedactAll(FlatMap(changes, InjectFn(verifiers))) == FlatMap(changes, InjectFn(Redactions(verifiers.Keys)))
  {
    if changes != [] {
      var init, last := changes[..|changes| - 1], changes[|changes| - 1];
      assert last in changes && forall c :: c in init ==> c in changes;
      RedactPass(init, verifiers);
      RedactConcat(FlatMap(init, InjectFn(verifiers)), InjectFn(verifiers)(last));
      RedactOne(last, verifiers);
    }
  }

  lemma RedactOne(change: Change, verifiers: map<string, string>)
    requires !change.SetPassword?
    ensures RedactAll(InjectFn(verifiers)(change)) == InjectFn(Redactions(verifiers.Keys))(change)
  {
  }

  lemma {:induction false} RedactTail(xs: seq<string>, verifiers: map<string, string>)
    ensures RedactAll(FlatMap(xs, SetFn(verifiers))) == FlatMap(xs, SetFn(Redactions(verifiers.Keys)))
  {
    if xs != [] {
      RedactTail(xs[..|xs| - 1], verifiers);
      RedactConcat(FlatMap(xs[..|xs| - 1], SetFn(verifiers)), SetFn(verifiers)(xs[|xs| - 1]));
    }
  }

  lemma RedactInjected(changes: seq<Change>, verifiers: map<string, string>)
    requires NoPasswords(changes)
    ensures RedactAll(Injected(changes, verifiers)) == Injected(changes, Redactions(verifiers.Keys))
  {
    RedactPass(changes, verifiers);
    RedactTail(Sorted(verifiers.Keys - CreatedNames(changes), StringLe), verifiers);
    RedactConcat(FlatMap(changes, InjectFn(verifiers)), Appended(changes, verifiers));
    assert Redactions(verifiers.Keys).Keys == verifiers.Keys;
  }

  /** A name with a password is created again. */
  ghost predicate CreatedAgain(changes: seq<Change>, names: set<string>, i: nat) {
    i < |changes| && changes[i].CreateRole? && changes[i].name in names && CreatesRole(changes[..i], changes[i].name)
  }

  ghost predicate CreatesOnce(changes: seq<Change>, names: set<string>) {
    forall i :: 0 <= i < |changes| ==> !CreatedAgain(changes, names, i)
  }

  lemma WaitingIff(changes: seq<Change>, names: set<string>, n: string)
    ensures n in Waiting(names, changes) <==> n in names && !CreatesRole(changes, n)
  {
  }

  lemma OncePrefix(changes: seq<Change>, names: set<string>)
    requires changes != []
    ensures var n := |changes| - 1;
      CreatesOnce(changes, names) <==> CreatesOnce(changes[..n], names) && !CreatedAgain(changes, names, n)
  {
    var n := |changes| - 1;
    forall i | 0 <= i < n ensures CreatedAgain(changes, names, i) <==> CreatedAgain(changes[..n], names, i) {
      assert changes[..n][..i] == changes[..i] && changes[..n][i] == changes[i];
    }
  }

  /** The passes agree when nothing is created twice, and differ in length otherwise. */
  lemma {:induction false} PassesAgree(changes: seq<Change>, names: set<string>)
    ensures CreatesOnce(changes, names) ==> Reviewed(names, changes) == FlatMap(changes, InjectFn(Redactions(names)))
    ensures |Reviewed(names, changes)| <= |FlatMap(changes, InjectFn(Redactions(names)))|
    ensures !CreatesOnce(changes, names) ==>
      |Reviewed(names, changes)| < |FlatMap(changes, InjectFn(Redactions(names)))|
  {
    if changes != [] {
      var init, last := changes[..|changes| - 1], changes[|changes| - 1];
      PassesAgree(init, names);
      OncePrefix(changes, names);
      if last.CreateRole? {
        WaitingIff(init, names, last.name);
        var done := Reviewed(names, init);
        assert done + [last] + [SetPassword(last.name, REDACTED)] == done + [last, SetPassword(last.name, REDACTED)];
      }
    }
  }

  /**
   Review intent is, position by position, the injected plan with passwords
   redacted, exactly when no role that declares a password is created twice.
   */
  lemma TwinsAgree(changes: seq<Change>, roles: seq<RoleDefinition>, verifiers: map<string, string>)
    requires NoPasswords(changes) && verifiers.Keys == DeclaredNames(roles)
    ensures Intent(changes, DeclaredNames(roles)) == RedactAll(Injected(changes, verifiers))
      <==> CreatesOnce(changes, DeclaredNames(roles))
  {
    var names := DeclaredNames(roles);
    RedactInjected(changes, verifiers);
    PassesAgree(changes, names);
    assert Redactions(names).Keys == names;
    var tail := FlatMap(Sorted(Waiting(names, changes), StringLe), SetFn(Redactions(names)));
    assert Appended(changes, Redactions(names)) == tail;
    if !CreatesOnce(changes, names) {
      assert |Intent(changes, names)| < |Injected(changes, Redactions(names))|;
    }
  }
}
