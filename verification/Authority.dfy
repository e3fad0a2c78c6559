/**
 Tri-state authority facts and what the executor can reach through them.
 */
module Authority {
  import opened Sequences
  import opened Model

  datatype Capability = Allowed | Denied | Unknown

  function CapabilityOf(value: bool): Capability {
    if value then Allowed else Denied
  }

  /** Per-edge facts, keyed by granted role and member. */
  type EdgeFacts = map<Pair, Capability>

  datatype Status = Reachable | Unreachable | Unproven

  // ---- Paths ----

  datatype Follow = OnlyAllowed | NotDenied

  predicate Follows(f: Follow, c: Capability) {
    match f
    case OnlyAllowed => c.Allowed?
    case NotDenied => !c.Denied?
  }

  /** `to` is granted to `from` by an edge worth following. */
  predicate Edge(facts: EdgeFacts, f: Follow, from: string, to: string) {
    (to, from) in facts && Follows(f, facts[(to, from)])
  }

  ghost predicate IsPath(facts: EdgeFacts, f: Follow, path: seq<string>) {
    |path| > 0 && forall i :: 0 < i < |path| ==> Edge(facts, f, path[i - 1], path[i])
  }

  ghost predicate PathTo(facts: EdgeFacts, f: Follow, path: seq<string>, from: string, to: string) {
    IsPath(facts, f, path) && path[0] == from && path[|path| - 1] == to
  }

  ghost predicate CanReach(facts: EdgeFacts, f: Follow, from: string, to: string) {
    exists path :: PathTo(facts, f, path, from, to)
  }

  lemma ReachSelf(facts: EdgeFacts, f: Follow, from: string)
    ensures CanReach(facts, f, from, from)
  {
    assert PathTo(facts, f, [from], from, from);
  }

  lemma ReachNext(facts: EdgeFacts, f: Follow, from: string, via: string, to: string)
    requires CanReach(facts, f, from, via) && Edge(facts, f, via, to)
    ensures CanReach(facts, f, from, to)
  {
    var path :| PathTo(facts, f, path, from, via);
    assert PathTo(facts, f, path + [to], from, to);
  }

  /** A set that contains the start and is closed under edges contains all that is reachable. */
  lemma {:induction false} ClosedContains(facts: EdgeFacts, f: Follow, path: seq<string>, s: set<string>)
    requires IsPath(facts, f, path) && path[0] in s
    requires forall a, b :: a in s && Edge(facts, f, a, b) ==> b in s
    ensures path[|path| - 1] in s
  {
    if |path| > 1 {
      var init := path[..|path| - 1];
      ClosedContains(facts, f, init, s);
      assert Edge(facts, f, path[|path| - 2], path[|path| - 1]);
    }
  }

  // ---- The traversal ----

  type MemberIndex = map<string, seq<(string, Capability)>>

  predicate Listed(index: MemberIndex, member: string, entry: (string, Capability)) {
    member in index && entry in index[member]
  }

  /** The index lists exactly the recorded edges. */
  ghost predicate Indexes(index: MemberIndex, facts: EdgeFacts) {
    forall member, role, c ::
      Listed(index, member, (role, c)) <==> (role, member) in facts && facts[(role, member)] == c
  }

  lemma IndexPush(index: MemberIndex, facts: EdgeFacts, role: string, member: string, c: Capability)
    requires Indexes(index, facts) && (role, member) !in facts
    ensures Indexes(index[member := EntriesOf(index, member) + [(role, c)]], facts[(role, member) := c])
  {
    var entry := EntriesOf(index, member) + [(role, c)];
    var index', facts' := index[member := entry], facts[(role, member) := c];
    forall m, r, x
      ensures Listed(index', m, (r, x)) <==> (r, m) in facts' && facts'[(r, m)] == x
    {
      assert Listed(index, m, (r, x)) <==> (r, m) in facts && facts[(r, m)] == x;
      assert Listed(index', m, (r, x)) <==> Listed(index, m, (r, x)) || (m == member && (r, x) == (role, c));
    }
  }

  /** The facts about the edges met so far. */
  ghost function FactsUpto(facts: EdgeFacts, keys: seq<Pair>, i: nat): EdgeFacts
    requires i <= |keys|
  {
    map p | p in facts && p in keys[..i] :: facts[p]
  }

  lemma FactsNext(facts: EdgeFacts, keys: seq<Pair>, i: nat)
    requires i < |keys| && Distinct(keys) && keys[i] in facts
    ensures keys[i] !in FactsUpto(facts, keys, i)
    ensures FactsUpto(facts, keys, i + 1) == FactsUpto(facts, keys, i)[keys[i] := facts[keys[i]]]
  {
    assert keys[..i + 1] == keys[..i] + [keys[i]];
  }

  /** Edges by member, so each member's roles are found at once. */
  method IndexByMember(facts: EdgeFacts) returns (index: MemberIndex)
    ensures Indexes(index, facts)
  {
    var keys := SortPairs(facts.Keys);
    index := IndexEdges(facts, keys);
    assert keys[..|keys|] == keys;
    assert FactsUpto(facts, keys, |keys|) == facts;
  }

  method IndexEdges(facts: EdgeFacts, keys: seq<Pair>) returns (index: MemberIndex)
    requires Distinct(keys) && forall p :: p in keys ==> p in facts
    ensures Indexes(index, FactsUpto(facts, keys, |keys|))
  {
    index := map[];
    for i := 0 to |keys|
      invariant Indexes(index, FactsUpto(facts, keys, i))
    {
      var (role, member) := keys[i];
      FactsNext(facts, keys, i);
      IndexPush(index, FactsUpto(facts, keys, i), role, member, facts[keys[i]]);
      index := index[member := EntriesOf(index, member) + [(role, facts[keys[i]])]];
    }
  }

  /** The roles an index entry list leads to. */
  ghost function Followed(roles: seq<(string, Capability)>, f: Follow): set<string> {
    set j | 0 <= j < |roles| && Follows(f, roles[j].1) :: roles[j].0
  }

  /** Mark and enqueue the roles not seen before. */
  method Expand(roles: seq<(string, Capability)>, f: Follow, seen0: set<string>, queue0: seq<string>)
    returns (seen: set<string>, queue: seq<string>)
    ensures seen == seen0 + Followed(roles, f)
    ensures forall r :: r in queue <==> r in queue0 || r in seen - seen0
    ensures seen == seen0 ==> queue == queue0
  {
    seen, queue := seen0, queue0;
    for i := 0 to |roles|
      invariant seen == seen0 + Followed(roles[..i], f)
      invariant forall r :: r in queue <==> r in queue0 || r in seen - seen0
      invariant seen == seen0 ==> queue == queue0
    {
      var (role, capability) := roles[i];
      assert Followed(roles[..i + 1], f) == Followed(roles[..i], f) + if Follows(f, capability) then {role} else {} by {
        assert forall j :: 0 <= j < i ==> roles[..i + 1][j] == roles[..i][j];
        assert roles[..i + 1][i] == roles[i];
      }
      if Follows(f, capability) && role !in seen {
        seen := seen + {role};
        queue := queue + [role];
      }
    }
    assert roles[..|roles|] == roles;
  }

  /** The roles granted to a member, as indexed. */
  function EntriesOf(index: MemberIndex, member: string): seq<(string, Capability)> {
    if member in index then index[member] else []
  }

  lemma FollowedEdges(index: MemberIndex, facts: EdgeFacts, f: Follow, member: string, role: string)
    requires Indexes(index, facts)
    ensures role in Followed(EntriesOf(index, member), f) <==> Edge(facts, f, member, role)
  {
    var roles := EntriesOf(index, member);
    if role in Followed(roles, f) {
      var j :| 0 <= j < |roles| && Follows(f, roles[j].1) && roles[j].0 == role;
      assert Listed(index, member, (role, roles[j].1));
    }
    if Edge(facts, f, member, role) {
      assert Listed(index, member, (role, facts[(role, member)]));
    }
  }

  /** Breadth-first search along the edges worth following. */
  method Traverse(facts: EdgeFacts, index: MemberIndex, start: string, f: Follow) returns (seen: set<string>)
    requires Indexes(index, facts)
    ensures forall r :: r in seen <==> CanReach(facts, f, start, r)
  {
    seen := {start};
    var queue := [start];
    ReachSelf(facts, f, start);
    ghost var everyone := {start} + Endpoints(facts);
    while queue != []
      invariant start in seen && seen <= everyone
      invariant forall r :: r in seen ==> CanReach(facts, f, start, r)
      invariant forall r :: r in queue ==> r in seen
      invariant forall a, b :: a in seen && a !in queue && Edge(facts, f, a, b) ==> b in seen
      decreases everyone - seen, |queue|
    {
      var member := queue[0];
      assert member in queue && forall r :: r in queue <==> r == member || r in queue[1..];
      ghost var before := seen;
      queue := queue[1..];
      seen, queue := Expand(EntriesOf(index, member), f, seen, queue);
      forall role
        ensures role in Followed(EntriesOf(index, member), f) <==> Edge(facts, f, member, role)
        ensures Edge(facts, f, member, role) ==> CanReach(facts, f, start, role) && role in everyone
      {
        FollowedEdges(index, facts, f, member, role);
        if Edge(facts, f, member, role) {
          ReachNext(facts, f, start, member, role);
          assert (role, member) in facts && (role, member).0 == role;
        }
      }
    }
    forall r | CanReach(facts, f, start, r)
      ensures r in seen
    {
      var path :| PathTo(facts, f, path, start, r);
      ClosedContains(facts, f, path, seen);
    }
  }

  // ---- Statuses ----

  function Endpoints(facts: EdgeFacts): set<string> {
    (set p | p in facts :: p.0) + (set p | p in facts :: p.1)
  }

  ghost function StatusOf(facts: EdgeFacts, executor: string, superuser: bool, complete: bool, role: string): Status {
    if superuser || CanReach(facts, OnlyAllowed, executor, role) then Reachable
    else if CanReach(facts, NotDenied, executor, role) || !complete then Unproven
    else Unreachable
  }

  ghost function Reachability(roles: set<string>, facts: EdgeFacts, executor: string,
                              superuser: bool, complete: bool): map<string, Status> {
    map r | r in roles + {executor} + Endpoints(facts) :: StatusOf(facts, executor, superuser, complete, r)
  }

  method ComputeReachability(roles: set<string>, facts: EdgeFacts, executor: string, superuser: bool, complete: bool)
    returns (statuses: map<string, Status>)
    ensures statuses == Reachability(roles, facts, executor, superuser, complete)
  {
    var everyone := roles + {executor} + Endpoints(facts);
    if superuser {
      return map r | r in everyone :: Reachable;
    }
    var index := IndexByMember(facts);
    var definite := Traverse(facts, index, executor, OnlyAllowed);
    var possible := Traverse(facts, index, executor, NotDenied);
    statuses := map r | r in everyone ::
      if r in definite then Reachable
      else if r in possible || !complete then Unproven
      else Unreachable;
  }

  // ---- Three-valued exactness ----

  /** A way the unknown edges may turn out. */
  ghost predicate Completes(h: EdgeFacts, facts: EdgeFacts) {
    && h.Keys == facts.Keys
    && forall p :: p in facts ==> !h[p].Unknown? && (!facts[p].Unknown? ==> h[p] == facts[p])
  }

  /** The completion that settles every unknown edge the same way. */
  function Settle(facts: EdgeFacts, c: Capability): EdgeFacts {
    map p | p in facts :: if facts[p].Unknown? then c else facts[p]
  }

  lemma SamePaths(facts: EdgeFacts, f: Follow, facts': EdgeFacts, f': Follow, from: string, to: string)
    requires forall a, b :: Edge(facts, f, a, b) ==> Edge(facts', f', a, b)
    requires CanReach(facts, f, from, to)
    ensures CanReach(facts', f', from, to)
  {
    var path :| PathTo(facts, f, path, from, to);
    assert PathTo(facts', f', path, from, to);
  }

  /** Following only allowed edges finds what every completion reaches. */
  lemma DefiniteIsCertain(facts: EdgeFacts, executor: string, role: string)
    ensures CanReach(facts, OnlyAllowed, executor, role)
      <==> forall h :: Completes(h, facts) ==> CanReach(h, OnlyAllowed, executor, role)
  {
    if CanReach(facts, OnlyAllowed, executor, role) {
      forall h | Completes(h, facts) ensures CanReach(h, OnlyAllowed, executor, role) {
        SamePaths(facts, OnlyAllowed, h, OnlyAllowed, executor, role);
      }
    }
    var least := Settle(facts, Denied);
    assert Completes(least, facts);
    if CanReach(least, OnlyAllowed, executor, role) {
      SamePaths(least, OnlyAllowed, facts, OnlyAllowed, executor, role);
    }
  }

  /** Following all edges not denied finds what some completion reaches. */
  lemma PossibleIsConsistent(facts: EdgeFacts, executor: string, role: string)
    ensures CanReach(facts, NotDenied, executor, role)
      <==> exists h :: Completes(h, facts) && CanReach(h, OnlyAllowed, executor, role)
  {
    var most := Settle(facts, Allowed);
    assert Completes(most, facts);
    if CanReach(facts, NotDenied, executor, role) {
      SamePaths(facts, NotDenied, most, OnlyAllowed, executor, role);
    }
    forall h | Completes(h, facts) && CanReach(h, OnlyAllowed, executor, role)
      ensures CanReach(facts, NotDenied, executor, role)
    {
      SamePaths(h, OnlyAllowed, facts, NotDenied, executor, role);
    }
  }

  /**
   On a complete graph a non-superuser's status is exact: reachable when every
   completion of the unknown edges reaches the role, unreachable when none
   does, unproven otherwise. An incomplete graph disproves nothing.
   */
  lemma StatusIsExact(facts: EdgeFacts, executor: string, role: string)
    ensures StatusOf(facts, executor, false, true, role) == Reachable
      <==> forall h :: Completes(h, facts) ==> CanReach(h, OnlyAllowed, executor, role)
    ensures StatusOf(facts, executor, false, true, role) == Unreachable
      <==> forall h :: Completes(h, facts) ==> !CanReach(h, OnlyAllowed, executor, role)
    ensures StatusOf(facts, executor, false, false, role) != Unreachable
    ensures StatusOf(facts, executor, false, false, role) == Reachable
      <==> StatusOf(facts, executor, false, true, role) == Reachable
  {
    DefiniteIsCertain(facts, executor, role);
    PossibleIsConsistent(facts, executor, role);
    var least := Settle(facts, Denied);
    assert Completes(least, facts);
  }
}
