/**
 The ADMIN OPTION verdict is exact, and does not depend on the order in which
 the edges are considered.
 */
module AdminOptions {
  import opened Sequences
  import opened Orders
  import opened Model
  import opened Authority
  import opened Simulation
  import opened Analysis

  predicate Certain(edge: (Status, Capability)) {
    edge.0.Reachable? && edge.1.Allowed?
  }

  predicate Conceivable(edge: (Status, Capability)) {
    !edge.0.Unreachable? && !edge.1.Denied?
  }

  /** The fold in closed form: only which edges occur matters. */
  lemma {:induction false} AdminFold(start: Status, edges: seq<(Status, Capability)>)
    requires !start.Reachable?
    ensures Fold(AdminStep, start, edges)
      == if exists e :: e in edges && Certain(e) then Reachable
         else if exists e :: e in edges && Conceivable(e) then Unproven
         else start
  {
    if edges != [] {
      var init, last := edges[..|edges| - 1], edges[|edges| - 1];
      assert edges == init + [last] && last in edges;
      AdminFold(start, init);
      assert forall e :: e in init ==> e in edges;
    }
  }

  /** Any two listings of the same edges give the same verdict. */
  lemma AdminOrderFree(start: Status, xs: seq<(Status, Capability)>, ys: seq<(Status, Capability)>)
    requires !start.Reachable? && forall e :: e in xs <==> e in ys
    ensures Fold(AdminStep, start, xs) == Fold(AdminStep, start, ys)
  {
    AdminFold(start, xs);
    AdminFold(start, ys);
  }

  /** With the edges settled, the executor administers `role` through some role it inherits from. */
  ghost predicate Administers(usage: EdgeFacts, admin: EdgeFacts, executor: string, role: string) {
    exists m :: (role, m) in admin && admin[(role, m)].Allowed? && CanReach(usage, OnlyAllowed, executor, m)
  }

  lemma InAdminEdges(x: Context, usageReach: map<string, Status>, admin: EdgeFacts, role: string,
                     e: (Status, Capability))
    ensures e in FlatMap(Sorted(AdminEdges(admin, role), PairLe), AdminFn(x, usageReach, admin))
      <==> exists m :: (role, m) in admin && e == (Seen(x, usageReach, m), admin[(role, m)])
  {
    var keys := Sorted(AdminEdges(admin, role), PairLe);
    InFlatMap(keys, AdminFn(x, usageReach, admin), e);
    if m :| (role, m) in admin && e == (Seen(x, usageReach, m), admin[(role, m)]) {
      assert (role, m) in AdminEdges(admin, role);
      assert (role, m) in keys && e in AdminFn(x, usageReach, admin)((role, m));
    }
    if p :| p in keys && e in AdminFn(x, usageReach, admin)(p) {
      assert p == (role, p.1);
    }
  }

  /** A recorded status is the status; an unrecorded role has no path at all. */
  lemma SeenStatus(x: Context, roles: set<string>, usage: EdgeFacts, m: string)
    ensures Seen(x, Reachability(roles, usage, x.executor.role, false, x.graphComplete), m)
      == StatusOf(usage, x.executor.role, false, x.graphComplete, m)
  {
    var executor := x.executor.role;
    if CanReach(usage, OnlyAllowed, executor, m) {
      ReachEndpoint(usage, OnlyAllowed, executor, m);
    }
    if CanReach(usage, NotDenied, executor, m) {
      ReachEndpoint(usage, NotDenied, executor, m);
    }
  }

  lemma ReachEndpoint(facts: EdgeFacts, f: Follow, from: string, to: string)
    requires CanReach(facts, f, from, to)
    ensures to == from || to in Endpoints(facts)
  {
    var path :| PathTo(facts, f, path, from, to);
    if |path| > 1 {
      assert Edge(facts, f, path[|path| - 2], to);
      assert (to, path[|path| - 2]) in facts && (to, path[|path| - 2]).0 == to;
    }
  }

  /** The verdict from the edges themselves. */
  lemma AdminVerdict(x: Context, roles: set<string>, usage: EdgeFacts, admin: EdgeFacts, role: string)
    ensures var reach := Reachability(roles, usage, x.executor.role, false, x.graphComplete);
      var verdict := AdminOption(x, reach, admin, role);
      && (verdict == Reachable <==>
            exists m :: (role, m) in admin && admin[(role, m)].Allowed?
              && StatusOf(usage, x.executor.role, false, x.graphComplete, m) == Reachable)
      && (x.graphComplete && verdict == Unreachable <==>
            x.graphComplete && forall m :: (role, m) in admin && !admin[(role, m)].Denied? ==>
              StatusOf(usage, x.executor.role, false, x.graphComplete, m) == Unreachable)
      && (!x.graphComplete ==> verdict != Unreachable)
  {
    var reach := Reachability(roles, usage, x.executor.role, false, x.graphComplete);
    var edges := FlatMap(Sorted(AdminEdges(admin, role), PairLe), AdminFn(x, reach, admin));
    AdminFold(Unseen(x), edges);
    forall e ensures e in edges <==> exists m :: (role, m) in admin && e == (Seen(x, reach, m), admin[(role, m)]) {
      InAdminEdges(x, reach, admin, role, e);
    }
    forall m ensures Seen(x, reach, m) == StatusOf(usage, x.executor.role, false, x.graphComplete, m) {
      SeenStatus(x, roles, usage, m);
    }
    forall m | (role, m) in admin ensures (Seen(x, reach, m), admin[(role, m)]) in edges {}
  }

  /**
   On a complete graph the verdict is exact: ADMIN is proven when it holds
   however the unknown edges turn out, disproven when it never does.
   */
  lemma AdminIsExact(x: Context, roles: set<string>, usage: EdgeFacts, admin: EdgeFacts, role: string)
    requires x.graphComplete
    ensures var verdict := AdminOption(x, Reachability(roles, usage, x.executor.role, false, true), admin, role);
      && (verdict == Reachable <==>
            forall u: EdgeFacts, a: EdgeFacts ::
              Completes(u, usage) && Completes(a, admin) ==> Administers(u, a, x.executor.role, role))
      && (verdict == Unreachable <==>
            forall u: EdgeFacts, a: EdgeFacts ::
              Completes(u, usage) && Completes(a, admin) ==> !Administers(u, a, x.executor.role, role))
  {
    AdminVerdict(x, roles, usage, admin, role);
    var executor := x.executor.role;
    forall m
      ensures StatusOf(usage, executor, false, true, m) == Reachable <==> CanReach(usage, OnlyAllowed, executor, m)
      ensures StatusOf(usage, executor, false, true, m) == Unreachable ==> !CanReach(usage, NotDenied, executor, m)
      ensures CanReach(usage, OnlyAllowed, executor, m) ==> CanReach(usage, NotDenied, executor, m)
    {
      if CanReach(usage, OnlyAllowed, executor, m) {
        SamePaths(usage, OnlyAllowed, usage, NotDenied, executor, m);
      }
    }
    LeastAdministers(usage, admin, executor, role);
    MostAdministers(usage, admin, executor, role);
  }

  lemma LeastAdministers(usage: EdgeFacts, admin: EdgeFacts, executor: string, role: string)
    ensures (exists m :: (role, m) in admin && admin[(role, m)].Allowed? && CanReach(usage, OnlyAllowed, executor, m))
      <==> forall u: EdgeFacts, a: EdgeFacts ::
        Completes(u, usage) && Completes(a, admin) ==> Administers(u, a, executor, role)
  {
    if m :| (role, m) in admin && admin[(role, m)].Allowed? && CanReach(usage, OnlyAllowed, executor, m) {
      forall u: EdgeFacts, a: EdgeFacts | Completes(u, usage) && Completes(a, admin)
        ensures Administers(u, a, executor, role)
      {
        SamePaths(usage, OnlyAllowed, u, OnlyAllowed, executor, m);
        assert (role, m) in a && a[(role, m)].Allowed?;
      }
    }
    var u: EdgeFacts, a: EdgeFacts := Settle(usage, Denied), Settle(admin, Denied);
    assert Completes(u, usage) && Completes(a, admin);
    if Administers(u, a, executor, role) {
      var m :| (role, m) in a && a[(role, m)].Allowed? && CanReach(u, OnlyAllowed, executor, m);
      SamePaths(u, OnlyAllowed, usage, OnlyAllowed, executor, m);
      assert (role, m) in admin && admin[(role, m)].Allowed?;
    }
  }

  lemma MostAdministers(usage: EdgeFacts, admin: EdgeFacts, executor: string, role: string)
    ensures (exists m :: (role, m) in admin && !admin[(role, m)].Denied? && CanReach(usage, NotDenied, executor, m))
      <==> exists u: EdgeFacts, a: EdgeFacts ::
        Completes(u, usage) && Completes(a, admin) && Administers(u, a, executor, role)
  {
    var u: EdgeFacts, a: EdgeFacts := Settle(usage, Allowed), Settle(admin, Allowed);
    assert Completes(u, usage) && Completes(a, admin);
    if m :| (role, m) in admin && !admin[(role, m)].Denied? && CanReach(usage, NotDenied, executor, m) {
      SamePaths(usage, NotDenied, u, OnlyAllowed, executor, m);
      assert (role, m) in a && a[(role, m)].Allowed?;
    }
    forall v: EdgeFacts, b: EdgeFacts | Completes(v, usage) && Completes(b, admin) && Administers(v, b, executor, role)
      ensures exists m :: (role, m) in admin && !admin[(role, m)].Denied? && CanReach(usage, NotDenied, executor, m)
    {
      var m :| (role, m) in b && b[(role, m)].Allowed? && CanReach(v, OnlyAllowed, executor, m);
      SamePaths(v, OnlyAllowed, usage, NotDenied, executor, m);
      assert (role, m) in admin && !admin[(role, m)].Denied?;
    }
  }
}
