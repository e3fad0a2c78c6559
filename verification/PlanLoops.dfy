/**
 Retirement steps added to a plan, as a loop over its changes.
 */
module PlanLoops {
  import opened Sequences
  import opened Model
  import opened Manifest
  import opened Plan

  /** Retirements by role, a later declaration replacing an earlier one. */
  method IndexRetirements(retirements: seq<Retirement>) returns (byRole: map<string, Retirement>)
    ensures forall role :: Get(byRole, role) == RetirementOf(retirements, role)
  {
    byRole := map[];
    for i := 0 to |retirements|
      invariant forall role :: Get(byRole, role) == RetirementOf(retirements[..i], role)
    {
      assert retirements[..i + 1][..i] == retirements[..i];
      byRole := byRole[retirements[i].role := retirements[i]];
    }
    assert retirements[..|retirements|] == retirements;
  }

  method ApplyRoleRetirements(changes: seq<Change>, retirements: seq<Retirement>) returns (planned: seq<Change>)
    ensures planned == WithRetirements(changes, retirements)
  {
    var byRole := IndexRetirements(retirements);
    planned := [];
    ghost var f := RetireFn(retirements);
    for i := 0 to |changes|
      invariant planned == FlatMap(changes[..i], f)
    {
      FlatMapSnoc(changes, i, f);
      var steps := RetirementSteps(changes[i], byRole, retirements);
      planned := planned + steps + [changes[i]];
    }
    assert changes[..|changes|] == changes;
  }

  /** Sessions end first, owned objects move next, what is left is dropped last. */
  method RetirementSteps(change: Change, byRole: map<string, Retirement>, ghost retirements: seq<Retirement>)
    returns (steps: seq<Change>)
    requires forall role :: Get(byRole, role) == RetirementOf(retirements, role)
    ensures steps + [change] == RetireFn(retirements)(change)
  {
    steps := [];
    if change.DropRole? {
      assert Get(byRole, change.name) == RetirementOf(retirements, change.name);
      if change.name in byRole {
        var r := byRole[change.name];
        if r.terminateSessions {
          steps := steps + [TerminateSessions(change.name)];
        }
        if r.reassignOwnedTo.Some? {
          steps := steps + [ReassignOwned(change.name, r.reassignOwnedTo.value)];
        }
        if r.dropOwned {
          steps := steps + [DropOwned(change.name)];
        }
      }
    }
  }
}
