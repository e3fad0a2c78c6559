/**
 The orders that ordered maps and sets iterate in, and the sorted enumeration
 of a finite set under a total order.
 */
module Orders {
  import opened Sequences

  ghost predicate TotalOrder<T(!new)>(le: (T, T) -> bool) {
    && (forall x :: le(x, x))
    && (forall x, y :: le(x, y) && le(y, x) ==> x == y)
    && (forall x, y, z :: le(x, y) && le(y, z) ==> le(x, z))
    && (forall x, y :: le(x, y) || le(y, x))
  }

  ghost predicate IsLeast<T(!new)>(x: T, s: set<T>, le: (T, T) -> bool) {
    x in s && forall y :: y in s ==> le(x, y)
  }

  lemma {:induction false} LeastExists<T(!new)>(s: set<T>, le: (T, T) -> bool)
    requires s != {} && TotalOrder(le)
    ensures exists x :: IsLeast(x, s, le)
    decreases |s|
  {
    var a :| a in s;
    var rest := s - {a};
    if rest == {} {
      forall y | y in s
        ensures le(a, y)
      {
        assert y == a || y in rest;
      }
      assert IsLeast(a, s, le);
    } else {
      LeastExists(rest, le);
      var b :| IsLeast(b, rest, le);
      var m := if le(a, b) then a else b;
      forall y | y in s
        ensures le(m, y)
      {
        assert y == a || y in rest;
      }
      assert IsLeast(m, s, le);
    }
  }

  /** The least element, where there is one (as under every total order); some element otherwise. */
  ghost function Least<T(!new)>(s: set<T>, le: (T, T) -> bool): (x: T)
    requires s != {}
    ensures x in s
  {
    if exists x :: IsLeast(x, s, le) then
      var x :| IsLeast(x, s, le);
      x
    else
      var x :| x in s; x
  }

  lemma LeastIsLeast<T(!new)>(s: set<T>, le: (T, T) -> bool)
    requires s != {} && TotalOrder(le)
    ensures IsLeast(Least(s, le), s, le)
  {
    LeastExists(s, le);
  }

  /** The elements of `s` in increasing order: how an ordered set is iterated. */
  ghost function Sorted<T(!new)>(s: set<T>, le: (T, T) -> bool): (xs: seq<T>)
    ensures Enumerates(xs, s)
    decreases |s|
  {
    if s == {} then []
    else
      var x := Least(s, le);
      [x] + Sorted(s - {x}, le)
  }

  ghost predicate Ascending<T>(xs: seq<T>, le: (T, T) -> bool) {
    forall i, j :: 0 <= i < j < |xs| ==> le(xs[i], xs[j])
  }

  lemma {:induction false} SortedAscends<T(!new)>(s: set<T>, le: (T, T) -> bool)
    requires TotalOrder(le)
    ensures Ascending(Sorted(s, le), le)
    decreases |s|
  {
    if s != {} {
      var x := Least(s, le);
      LeastIsLeast(s, le);
      SortedAscends(s - {x}, le);
      var rest := Sorted(s - {x}, le);
      forall i | 0 <= i < |rest|
        ensures le(x, rest[i])
      {
        assert rest[i] in rest && rest[i] in s - {x};
      }
    }
  }

  /** Keys that contribute nothing may be left out of the iteration. */
  lemma {:induction false} FlatMapSortedSubset<T(!new), B>(sub: set<T>, all: set<T>, le: (T, T) -> bool, f: T -> seq<B>)
    requires TotalOrder(le) && sub <= all
    requires forall x :: x in all && x !in sub ==> f(x) == []
    ensures FlatMap(Sorted(sub, le), f) == FlatMap(Sorted(all, le), f)
    decreases |all|
  {
    if all != {} {
      var x := Least(all, le);
      LeastIsLeast(all, le);
      FlatMapConcat([x], Sorted(all - {x}, le), f);
      FlatMapOne(x, f);
      if x in sub {
        LeastIsLeast(sub, le);
        assert Least(sub, le) == x;
        FlatMapSortedSubset(sub - {x}, all - {x}, le, f);
        FlatMapConcat([x], Sorted(sub - {x}, le), f);
      } else {
        FlatMapSortedSubset(sub, all - {x}, le, f);
      }
    }
  }

  /** Materialise the iteration order of an ordered set. */
  method SortKeys<T(==, !new)>(s: set<T>, le: (T, T) -> bool) returns (xs: seq<T>)
    requires TotalOrder(le)
    ensures xs == Sorted(s, le)
  {
    xs := [];
    var rest := s;
    while rest != {}
      invariant Sorted(s, le) == xs + Sorted(rest, le)
      decreases |rest|
    {
      LeastIsLeast(rest, le);
      var x :| x in rest && forall y :: y in rest ==> le(x, y);
      assert le(x, Least(rest, le)) && le(Least(rest, le), x);
      xs := xs + [x];
      rest := rest - {x};
    }
  }

  // ---- Strings ----

  /** Lexicographic order of strings by code point. */
  predicate StringLe(a: string, b: string) {
    a == "" || (b != "" && (a[0] < b[0] || (a[0] == b[0] && StringLe(a[1..], b[1..]))))
  }

  lemma {:induction false} StringLeAntisymmetric(a: string, b: string)
    requires StringLe(a, b) && StringLe(b, a)
    ensures a == b
  {
    if a != "" && b != "" {
      StringLeAntisymmetric(a[1..], b[1..]);
      assert a == [a[0]] + a[1..] && b == [b[0]] + b[1..];
    }
  }

  lemma {:induction false} StringLeTransitive(a: string, b: string, c: string)
    requires StringLe(a, b) && StringLe(b, c)
    ensures StringLe(a, c)
  {
    if a != "" && a[0] == b[0] == c[0] {
      StringLeTransitive(a[1..], b[1..], c[1..]);
    }
  }

  lemma {:induction false} StringLeConnected(a: string, b: string)
    ensures StringLe(a, b) || StringLe(b, a)
  {
    if a != "" && b != "" && a[0] == b[0] {
      StringLeConnected(a[1..], b[1..]);
    }
  }

  lemma StringLeTotal()
    ensures TotalOrder(StringLe)
  {
    forall a, b | StringLe(a, b) && StringLe(b, a) ensures a == b {
      StringLeAntisymmetric(a, b);
    }
    forall a, b, c | StringLe(a, b) && StringLe(b, c) ensures StringLe(a, c) {
      StringLeTransitive(a, b, c);
    }
    forall a, b ensures StringLe(a, b) || StringLe(b, a) {
      StringLeConnected(a, b);
    }
  }

  method SortStrings(s: set<string>) returns (xs: seq<string>)
    ensures xs == Sorted(s, StringLe)
  {
    StringLeTotal();
    xs := SortKeys(s, StringLe);
  }
}
