/**
 Sequence vocabulary shared by the planner and the simulator: enumerations of
 finite sets, concatenating maps, and left folds.
 */
module Sequences {

  /** `xs` lists every element of `s` exactly once. */
  ghost predicate Enumerates<T(!new)>(xs: seq<T>, s: set<T>) {
    && (forall x :: x in xs <==> x in s)
    && Distinct(xs)
  }

  ghost predicate Distinct<T>(xs: seq<T>) {
    forall i, j :: 0 <= i < j < |xs| ==> xs[i] != xs[j]
  }

  /** The concatenation of `f(x)` for the successive elements of `xs`. */
  ghost function FlatMap<A, B>(xs: seq<A>, f: A -> seq<B>): seq<B> {
    if xs == [] then [] else FlatMap(xs[..|xs| - 1], f) + f(xs[|xs| - 1])
  }

  lemma {:induction false} FlatMapSnoc<A, B>(xs: seq<A>, i: nat, f: A -> seq<B>)
    requires i < |xs|
    ensures FlatMap(xs[..i + 1], f) == FlatMap(xs[..i], f) + f(xs[i])
  {
    assert xs[..i + 1][..i] == xs[..i];
  }

  /** One more piece pushed onto what has been pushed so far. */
  lemma {:induction false} PushPiece<A, B>(out: seq<B>, xs: seq<A>, i: nat, f: A -> seq<B>)
    requires i < |xs|
    ensures out + FlatMap(xs[..i + 1], f) == out + FlatMap(xs[..i], f) + f(xs[i])
  {
    FlatMapSnoc(xs, i, f);
    Assoc(out, FlatMap(xs[..i], f), f(xs[i]));
  }

  lemma {:induction false} InFlatMap<A, B>(xs: seq<A>, f: A -> seq<B>, y: B)
    ensures y in FlatMap(xs, f) <==> exists x :: x in xs && y in f(x)
  {
    if xs != [] {
      var init, last := xs[..|xs| - 1], xs[|xs| - 1];
      InFlatMap(init, f, y);
      assert xs == init + [last];
      if y in f(last) {
        assert last in xs;
      }
      forall x | x in xs && y in f(x)
        ensures y in FlatMap(xs, f)
      {
        assert x in init || x == last;
      }
    }
  }

  lemma {:induction false} FlatMapConcat<A, B>(xs: seq<A>, ys: seq<A>, f: A -> seq<B>)
    ensures FlatMap(xs + ys, f) == FlatMap(xs, f) + FlatMap(ys, f)
  {
    if ys == [] {
      assert xs + ys == xs;
      assert FlatMap(xs, f) + [] == FlatMap(xs, f);
    } else {
      FlatMapConcat(xs, ys[..|ys| - 1], f);
      assert (xs + ys)[..|xs + ys| - 1] == xs + ys[..|ys| - 1];
      Assoc(FlatMap(xs, f), FlatMap(ys[..|ys| - 1], f), f(ys[|ys| - 1]));
    }
  }

  lemma {:induction false} FlatMapOne<A, B>(x: A, f: A -> seq<B>)
    ensures FlatMap([x], f) == f(x)
  {
    assert [x][..0] == [];
    assert [] + f(x) == f(x);
  }

  /** Two concatenating maps that commute element by element commute. */
  lemma {:induction false} FlatMapCommute<A>(xs: seq<A>, f: A -> seq<A>, g: A -> seq<A>)
    requires forall x :: x in xs ==> FlatMap(f(x), g) == FlatMap(g(x), f)
    ensures FlatMap(FlatMap(xs, f), g) == FlatMap(FlatMap(xs, g), f)
  {
    if xs != [] {
      var init, last := xs[..|xs| - 1], xs[|xs| - 1];
      assert last in xs && forall x :: x in init ==> x in xs;
      FlatMapCommute(init, f, g);
      FlatMapConcat(FlatMap(init, f), f(last), g);
      FlatMapConcat(FlatMap(init, g), g(last), f);
    }
  }

  lemma {:induction false} FlatMapSame<A, B>(xs: seq<A>, f: A -> seq<B>, g: A -> seq<B>)
    requires forall x :: x in xs ==> f(x) == g(x)
    ensures FlatMap(xs, f) == FlatMap(xs, g)
  {
    if xs != [] {
      var init, last := xs[..|xs| - 1], xs[|xs| - 1];
      assert last in xs && forall x :: x in init ==> x in xs;
      FlatMapSame(init, f, g);
    }
  }

  lemma {:induction false} FlatMapNone<A, B>(xs: seq<A>, f: A -> seq<B>)
    requires forall x :: x in xs ==> f(x) == []
    ensures FlatMap(xs, f) == []
  {
    if xs != [] {
      assert forall x :: x in xs[..|xs| - 1] ==> x in xs;
      FlatMapNone(xs[..|xs| - 1], f);
    }
  }

  lemma {:induction false} Assoc<A>(a: seq<A>, b: seq<A>, c: seq<A>)
    ensures a + b + c == a + (b + c)
  {
  }

  ghost function Filter<A>(xs: seq<A>, p: A -> bool): seq<A> {
    if xs == [] then []
    else Filter(xs[..|xs| - 1], p) + if p(xs[|xs| - 1]) then [xs[|xs| - 1]] else []
  }

  lemma {:induction false} FilterSnoc<A>(xs: seq<A>, i: nat, p: A -> bool)
    requires i < |xs|
    ensures Filter(xs[..i + 1], p) == Filter(xs[..i], p) + if p(xs[i]) then [xs[i]] else []
  {
    assert xs[..i + 1][..i] == xs[..i];
  }

  lemma {:induction false} InFilter<A>(xs: seq<A>, p: A -> bool, y: A)
    ensures y in Filter(xs, p) <==> y in xs && p(y)
  {
    if xs != [] {
      InFilter(xs[..|xs| - 1], p, y);
      assert xs == xs[..|xs| - 1] + [xs[|xs| - 1]];
    }
  }

  lemma {:induction false} FilterConcat<A>(xs: seq<A>, ys: seq<A>, p: A -> bool)
    ensures Filter(xs + ys, p) == Filter(xs, p) + Filter(ys, p)
  {
    if ys == [] {
      assert xs + ys == xs;
    } else {
      FilterConcat(xs, ys[..|ys| - 1], p);
      assert (xs + ys)[..|xs + ys| - 1] == xs + ys[..|ys| - 1];
    }
  }

  lemma {:induction false} FilterAll<A>(xs: seq<A>, p: A -> bool)
    requires forall x :: x in xs ==> p(x)
    ensures Filter(xs, p) == xs
  {
    if xs != [] {
      assert xs[|xs| - 1] in xs && forall x :: x in xs[..|xs| - 1] ==> x in xs;
      FilterAll(xs[..|xs| - 1], p);
      assert xs == xs[..|xs| - 1] + [xs[|xs| - 1]];
    }
  }

  lemma {:induction false} FilterNone<A>(xs: seq<A>, p: A -> bool)
    requires forall x :: x in xs ==> !p(x)
    ensures Filter(xs, p) == []
  {
    if xs != [] {
      assert xs[|xs| - 1] in xs && forall x :: x in xs[..|xs| - 1] ==> x in xs;
      FilterNone(xs[..|xs| - 1], p);
    }
  }

  /** The left fold of `step` over `cs`. */
  ghost function Fold<S, C>(step: (S, C) -> S, s: S, cs: seq<C>): S {
    if cs == [] then s else step(Fold(step, s, cs[..|cs| - 1]), cs[|cs| - 1])
  }

  lemma {:induction false} FoldSnoc<S, C>(step: (S, C) -> S, s: S, cs: seq<C>, i: nat)
    requires i < |cs|
    ensures Fold(step, s, cs[..i + 1]) == step(Fold(step, s, cs[..i]), cs[i])
  {
    assert cs[..i + 1][..i] == cs[..i];
  }

  lemma {:induction false} FoldConcat<S, C>(step: (S, C) -> S, s: S, a: seq<C>, b: seq<C>)
    ensures Fold(step, s, a + b) == Fold(step, Fold(step, s, a), b)
  {
    if b == [] {
      assert a + b == a;
    } else {
      FoldConcat(step, s, a, b[..|b| - 1]);
      assert (a + b)[..|a + b| - 1] == a + b[..|b| - 1];
    }
  }

  lemma {:induction false} FoldPush<S, C>(step: (S, C) -> S, s: S, cs: seq<C>, c: C)
    ensures Fold(step, s, cs + [c]) == step(Fold(step, s, cs), c)
  {
    assert (cs + [c])[..|cs|] == cs;
  }

  /** Every element of `cs` leaves every state alone. */
  ghost predicate Inert<S(!new), C(!new)>(step: (S, C) -> S, cs: seq<C>) {
    forall c, s :: c in cs ==> step(s, c) == s
  }

  lemma {:induction false} FoldInert<S(!new), C(!new)>(step: (S, C) -> S, s: S, cs: seq<C>)
    requires Inert(step, cs)
    ensures Fold(step, s, cs) == s
  {
    if cs != [] {
      assert forall c :: c in cs[..|cs| - 1] ==> c in cs;
      FoldInert(step, s, cs[..|cs| - 1]);
    }
  }

  /** Two steps that do the same with each element do the same with all. */
  lemma {:induction false} FoldAgree<S(!new), C(!new)>(a: (S, C) -> S, b: (S, C) -> S, s: S, cs: seq<C>)
    requires forall c, t :: c in cs ==> a(t, c) == b(t, c)
    ensures Fold(a, s, cs) == Fold(b, s, cs)
  {
    if cs != [] {
      assert forall c :: c in cs[..|cs| - 1] ==> c in cs;
      FoldAgree(a, b, s, cs[..|cs| - 1]);
    }
  }

  lemma FoldSingle<S, C>(step: (S, C) -> S, s: S, c: C)
    ensures Fold(step, s, [c]) == step(s, c)
  {
    assert [c][..0] == [];
  }

  /** Folding a concatenating map whose pieces are all inert but those of one key. */
  lemma {:induction false} FoldFlatMapOne<S(!new), C(!new), K>(
    step: (S, C) -> S, s: S, keys: seq<K>, f: K -> seq<C>, key: K)
    requires Distinct(keys)
    requires forall k :: k in keys && k != key ==> Inert(step, f(k))
    ensures Fold(step, s, FlatMap(keys, f)) == if key in keys then Fold(step, s, f(key)) else s
  {
    if keys != [] {
      var init, last := keys[..|keys| - 1], keys[|keys| - 1];
      assert forall k :: k in init ==> k in keys;
      FoldFlatMapOne(step, s, init, f, key);
      FoldConcat(step, s, FlatMap(init, f), f(last));
      if last == key {
        assert key !in init;
      } else {
        FoldInert(step, Fold(step, s, FlatMap(init, f)), f(last));
        assert key in keys <==> key in init;
      }
    }
  }
}
