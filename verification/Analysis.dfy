/**
 The plan analysis: phases, the authority each change requires, and the
 reachability the executor gains or loses, computed incrementally.
 */
module Analysis {
  import opened Sequences
  import opened Orders
  import opened Model
  import opened Authority
  import opened Simulation

  // ---- Phases ----

  datatype Phase =
    | CreatePhase | AlterPhase | GrantPhase | RemovePhase
    | AddPhase | RevokePhase | DefaultRevokePhase | RetirePhase

  function PhaseFor(change: Change): Phase {
    match change
    case CreateRole(_, _) => CreatePhase
    case CreateSchema(_, _) => CreatePhase
    case AlterRole(_, _) => AlterPhase
    case SetComment(_, _) => AlterPhase
    case AlterSchemaOwner(_, _) => AlterPhase
    case EnsureSchemaOwnerPrivileges(_, _, _) => AlterPhase
    case SetPassword(_, _) => AlterPhase
    case Grant(_, _) => GrantPhase
    case SetDefault(_, _) => GrantPhase
    case UpdateMemberOptions(_, _, _, inherit, admin, _) =>
      if inherit == Some(false) || admin == Some(false) then RemovePhase else AddPhase
    case RemoveMember(_, _, _) => RemovePhase
    case AddMember(_, _, _, _) => AddPhase
    case Revoke(_, _, _) => RevokePhase
    case RevokeDefault(_, _) => DefaultRevokePhase
    case _ => RetirePhase
  }

  /** Maximal runs of changes of one phase. */
  function GroupedPhases(changes: seq<Change>): seq<(Phase, seq<Change>)> {
    if changes == [] then []
    else PushPhase(GroupedPhases(changes[..|changes| - 1]), changes[|changes| - 1])
  }

  function PushPhase(groups: seq<(Phase, seq<Change>)>, change: Change): seq<(Phase, seq<Change>)> {
    var last := |groups| - 1;
    if groups != [] && groups[last].0 == PhaseFor(change)
    then groups[..last] + [(groups[last].0, groups[last].1 + [change])]
    else groups + [(PhaseFor(change), [change])]
  }

  // ---- ADMIN authority ----

  function Unseen(x: Context): Status {
    if x.graphComplete then Unreachable else Unproven
  }

  function Seen(x: Context, reach: map<string, Status>, role: string): Status {
    if role in reach then reach[role] else Unseen(x)
  }

  /** One more edge through which ADMIN may be held. */
  function AdminStep(best: Status, edge: (Status, Capability)): Status {
    if edge.0.Reachable? && edge.1.Allowed? then Reachable
    else if !edge.0.Unreachable? && !edge.1.Denied? && !best.Reachable? then Unproven
    else best
  }

  ghost function AdminEdges(admin: EdgeFacts, role: string): set<Pair> {
    set p | p in admin && p.0 == role
  }

  ghost function AdminFn(x: Context, usageReach: map<string, Status>,
                         admin: EdgeFacts): Pair -> seq<(Status, Capability)> {
    p => if p in admin then [(Seen(x, usageReach, p.1), admin[p])] else []
  }

  /** Whether the executor holds ADMIN OPTION on a role, through any role it inherits from. */
  ghost function AdminOption(x: Context, usageReach: map<string, Status>, admin: EdgeFacts, role: string): Status {
    Fold(AdminStep, Unseen(x), FlatMap(Sorted(AdminEdges(admin, role), PairLe), AdminFn(x, usageReach, admin)))
  }

  ghost function MembershipAuthority(x: Context, usageReach: map<string, Status>, admin: EdgeFacts,
                                     createrole: Capability, role: string): Status {
    var held := AdminOption(x, usageReach, admin, role);
    if x.version >= 16 then held
    else match createrole
      case Allowed => Reachable
      case Unknown => if held.Reachable? then held else Unproven
      case Denied => held
  }

  // ---- Findings ----

  datatype FindingKind =
    | RequiredRoleUnavailable | RequiredRoleUnproven | ExecutorLosesAccess | MembershipDisconnectsRole
    | RoleBecomesReachable | DatabasePreflightRequired | SuperuserRequired | OwnershipTransferChangesGrantor

  datatype Severity = Info | Warning | Error

  datatype Finding = Finding(
    kind: FindingKind, severity: Severity, phase: Phase, index: Option<nat>, role: Option<string>, indices: seq<nat>)

  /** Findings so far, and where each aggregated preflight finding sits. */
  datatype Log = Log(findings: seq<Finding>, preflight: map<(Phase, string), nat>)

  /** The role whose authority a change acts under, and whether it must be set or used. */
  function RequiredRole(change: Change): Option<(string, bool)> {
    match change
    case SetDefault(k, _) => Some((k.owner, false))
    case RevokeDefault(k, _) => Some((k.owner, false))
    case Revoke(_, _, grantor) => if grantor.Some? then Some((grantor.value, true)) else None
    case UpdateMemberOptions(_, _, via, _, _, _) => Some((via, false))
    case RemoveMember(_, _, grantor) => if grantor.Some? then Some((grantor.value, false)) else None
    case _ => None
  }

  function Shortfall(status: Status, phase: Phase, index: nat, role: string): seq<Finding> {
    match status
    case Reachable => []
    case Unproven => [Finding(RequiredRoleUnproven, Warning, phase, Some(index), Some(role), [])]
    case Unreachable => [Finding(RequiredRoleUnavailable, Error, phase, Some(index), Some(role), [])]
  }

  ghost function RoleFindings(x: Context, w: World, setReach: map<string, Status>, usageReach: map<string, Status>,
                              phase: Phase, index: nat, change: Change): seq<Finding> {
    var required := RequiredRole(change);
    if w.attributes.superuser || required.None? then []
    else
      var (role, sets) := required.value;
      Shortfall(Seen(x, if sets then setReach else usageReach, role), phase, index, role)
  }

  predicate ChangesMembership(change: Change) {
    change.AddMember? || change.UpdateMemberOptions? || change.RemoveMember?
  }

  ghost function MembershipFindings(x: Context, w: World, usageReach: map<string, Status>,
                                    phase: Phase, index: nat, change: Change): seq<Finding> {
    if w.attributes.superuser || !ChangesMembership(change) then []
    else if change.role in w.graph.roles && w.graph.roles[change.role].superuser then
      [Finding(SuperuserRequired, Error, phase, Some(index), Some(change.role), [])]
    else if change.RemoveMember? && change.grantor.Some? then []
    else Shortfall(MembershipAuthority(x, usageReach, w.facts.admin, w.attributes.createrole, change.role),
                   phase, index, change.role)
  }

  function OwnershipFindings(phase: Phase, index: nat, change: Change): seq<Finding> {
    if change.AlterSchemaOwner?
    then [Finding(OwnershipTransferChangesGrantor, Info, phase, Some(index), Some(change.owner), [])]
    else []
  }

  function ChangeKind(change: Change): string {
    match change
    case CreateRole(_, _) => "CreateRole"
    case CreateSchema(_, _) => "CreateSchema"
    case AlterSchemaOwner(_, _) => "AlterSchemaOwner"
    case EnsureSchemaOwnerPrivileges(_, _, _) => "EnsureSchemaOwnerPrivileges"
    case AlterRole(_, _) => "AlterRole"
    case SetComment(_, _) => "SetComment"
    case Grant(_, _) => "Grant"
    case Revoke(_, _, _) => "Revoke"
    case SetDefault(_, _) => "SetDefaultPrivilege"
    case RevokeDefault(_, _) => "RevokeDefaultPrivilege"
    case AddMember(_, _, _, _) => "AddMember"
    case UpdateMemberOptions(_, _, _, _, _, _) => "UpdateMemberOptions"
    case RemoveMember(_, _, _) => "RemoveMember"
    case ReassignOwned(_, _) => "ReassignOwned"
    case DropOwned(_) => "DropOwned"
    case TerminateSessions(_) => "TerminateSessions"
    case DropRole(_) => "DropRole"
    case SetPassword(_, _) => "SetPassword"
  }

  predicate NeedsPreflight(change: Change) {
    !ChangesMembership(change) && !change.SetDefault? && !change.RevokeDefault?
  }

  /** Preflight findings aggregate per phase and kind of change. */
  function LogPreflight(log: Log, phase: Phase, index: nat, change: Change): Log {
    var key := (phase, ChangeKind(change));
    if !NeedsPreflight(change) then log
    else if key in log.preflight && log.preflight[key] < |log.findings| then
      var at := log.preflight[key];
      log.(findings := log.findings[at := log.findings[at].(indices := log.findings[at].indices + [index])])
    else
      Log(log.findings + [Finding(DatabasePreflightRequired, Warning, phase, Some(index), None, [index])],
          log.preflight[key := |log.findings|])
  }

  ghost function LogChange(x: Context, w: World, setReach: map<string, Status>, usageReach: map<string, Status>,
                           phase: Phase, index: nat, change: Change, log: Log): Log {
    LogPreflight(
      log.(findings := log.findings + RoleFindings(x, w, setReach, usageReach, phase, index, change)
                       + MembershipFindings(x, w, usageReach, phase, index, change)
                       + OwnershipFindings(phase, index, change)),
      phase, index, change)
  }

  function Compared(before: Status, after: Status): Option<(FindingKind, Severity)> {
    match (before, after)
    case (Reachable, Unreachable) => Some((ExecutorLosesAccess, Warning))
    case (Reachable, Unproven) => Some((ExecutorLosesAccess, Warning))
    case (Unproven, Unreachable) => Some((MembershipDisconnectsRole, Warning))
    case (Unreachable, Reachable) => Some((RoleBecomesReachable, Info))
    case (Unproven, Reachable) => Some((RoleBecomesReachable, Info))
    case _ => None
  }

  ghost function CompareFn(x: Context, phase: Phase, before: map<string, Status>, after: map<string, Status>,
                           dropped: set<string>): string -> seq<Finding> {
    role =>
      var verdict := Compared(Seen(x, before, role), Seen(x, after, role));
      if (role in dropped && role !in after) || verdict.None? then []
      else [Finding(verdict.value.0, verdict.value.1, phase, None, Some(role), [])]
  }

  ghost function CompareReachability(x: Context, phase: Phase, before: map<string, Status>, after: map<string, Status>,
                                     dropped: set<string>): seq<Finding> {
    FlatMap(Sorted(before.Keys + after.Keys, StringLe), CompareFn(x, phase, before, after, dropped))
  }

  // ---- The simulation ----

  datatype Recompute = WhenAffected | Always

  predicate Recomputes(recompute: Recompute, change: Change) {
    recompute.Always? || AffectsReachability(change)
  }

  datatype PhaseAnalysis = PhaseAnalysis(
    phase: Phase, changes: seq<Change>, reachability: map<string, Status>, usage: map<string, Status>)

  datatype Sim = Sim(
    world: World,
    setReach: map<string, Status>,
    usageReach: map<string, Status>,
    phases: seq<PhaseAnalysis>,
    log: Log,
    index: nat,
    computations: nat)

  ghost function StartSim(x: Context, w: World): Sim {
    Sim(w, SetReach(x, w), UsageReach(x, w), [], Log([], map[]), 0, 2)
  }

  /** One change: report the authority it needs, apply it, and refresh reachability if asked to. */
  ghost function SimStep(x: Context, recompute: Recompute, phase: Phase, s: Sim, change: Change): Sim {
    var w := WorldStep(x)(s.world, change);
    var log := LogChange(x, s.world, s.setReach, s.usageReach, phase, s.index, change, s.log);
    if Recomputes(recompute, change)
    then Sim(w, SetReach(x, w), UsageReach(x, w), s.phases, log, s.index + 1, s.computations + 2)
    else s.(world := w, log := log, index := s.index + 1)
  }

  ghost function SimChanges(x: Context, recompute: Recompute, phase: Phase, s: Sim, changes: seq<Change>): Sim {
    if changes == [] then s
    else SimStep(x, recompute, phase,
           SimChanges(x, recompute, phase, s, changes[..|changes| - 1]), changes[|changes| - 1])
  }

  function DroppedNames(changes: seq<Change>): set<string> {
    set change | change in changes && change.DropRole? :: change.name
  }

  /** All changes of one phase, then what they did to the executor's usage. */
  ghost function SimPhase(x: Context, recompute: Recompute, s: Sim, group: (Phase, seq<Change>)): Sim {
    var t := SimChanges(x, recompute, group.0, s, group.1);
    t.(log := t.log.(findings := t.log.findings
                + CompareReachability(x, group.0, s.usageReach, t.usageReach, DroppedNames(group.1))),
       phases := t.phases + [PhaseAnalysis(group.0, group.1, t.setReach, t.usageReach)])
  }

  ghost function SimGroups(x: Context, recompute: Recompute, s: Sim, groups: seq<(Phase, seq<Change>)>): Sim {
    if groups == [] then s
    else SimPhase(x, recompute, SimGroups(x, recompute, s, groups[..|groups| - 1]), groups[|groups| - 1])
  }

  ghost function Simulate(x: Context, recompute: Recompute, w: World, changes: seq<Change>): Sim {
    SimGroups(x, recompute, StartSim(x, w), GroupedPhases(changes))
  }

  lemma SimChangesNext(x: Context, recompute: Recompute, phase: Phase, s: Sim, changes: seq<Change>, i: nat)
    requires i < |changes|
    ensures SimChanges(x, recompute, phase, s, changes[..i + 1])
         == SimStep(x, recompute, phase, SimChanges(x, recompute, phase, s, changes[..i]), changes[i])
  {
    assert changes[..i + 1][..i] == changes[..i];
  }

  lemma SimGroupsNext(x: Context, recompute: Recompute, s: Sim, groups: seq<(Phase, seq<Change>)>, i: nat)
    requires i < |groups|
    ensures SimGroups(x, recompute, s, groups[..i + 1])
         == SimPhase(x, recompute, SimGroups(x, recompute, s, groups[..i]), groups[i])
  {
    assert groups[..i + 1][..i] == groups[..i];
  }

  // ---- Incremental equals full ----

  ghost predicate InSync(x: Context, s: Sim) {
    s.setReach == SetReach(x, s.world) && s.usageReach == UsageReach(x, s.world)
  }

  /** The two simulations agree on everything but the number of computations. */
  ghost predicate Agree(x: Context, s: Sim, t: Sim) {
    s == t.(computations := s.computations) && InSync(x, s)
  }

  lemma StepAgrees(x: Context, phase: Phase, s: Sim, t: Sim, change: Change)
    requires Agree(x, s, t)
    ensures Agree(x, SimStep(x, WhenAffected, phase, s, change), SimStep(x, Always, phase, t, change))
  {
    if AffectsReachability(change) {
      StepFresh(x, phase, s, t, change);
    } else {
      StepStale(x, phase, s, t, change);
    }
  }

  lemma StepFresh(x: Context, phase: Phase, s: Sim, t: Sim, change: Change)
    requires Agree(x, s, t) && AffectsReachability(change)
    ensures Agree(x, SimStep(x, WhenAffected, phase, s, change), SimStep(x, Always, phase, t, change))
  {
    SameLog(x, phase, s, t, change);
  }

  lemma SameLog(x: Context, phase: Phase, s: Sim, t: Sim, change: Change)
    requires Agree(x, s, t)
    ensures LogChange(x, s.world, s.setReach, s.usageReach, phase, s.index, change, s.log)
         == LogChange(x, t.world, t.setReach, t.usageReach, phase, t.index, change, t.log)
  {
  }

  /** A change that cannot alter reachability leaves the old values right. */
  lemma StepStale(x: Context, phase: Phase, s: Sim, t: Sim, change: Change)
    requires Agree(x, s, t) && !AffectsReachability(change)
    ensures Agree(x, SimStep(x, WhenAffected, phase, s, change), SimStep(x, Always, phase, t, change))
  {
    SameLog(x, phase, s, t, change);
    StaysInSync(x, s, change);
  }

  lemma StaysInSync(x: Context, s: Sim, change: Change)
    requires InSync(x, s) && !AffectsReachability(change)
    ensures var w := WorldStep(x)(s.world, change);
      SetReach(x, w) == s.setReach && UsageReach(x, w) == s.usageReach
  {
    Unaffected(x, s.world, change);
  }

  lemma {:induction false} ChangesAgree(x: Context, phase: Phase, s: Sim, t: Sim, changes: seq<Change>)
    requires Agree(x, s, t)
    ensures Agree(x, SimChanges(x, WhenAffected, phase, s, changes), SimChanges(x, Always, phase, t, changes))
  {
    if changes != [] {
      ChangesAgree(x, phase, s, t, changes[..|changes| - 1]);
      StepAgrees(x, phase, SimChanges(x, WhenAffected, phase, s, changes[..|changes| - 1]),
        SimChanges(x, Always, phase, t, changes[..|changes| - 1]), changes[|changes| - 1]);
    }
  }

  lemma {:induction false} GroupsAgree(x: Context, s: Sim, t: Sim, groups: seq<(Phase, seq<Change>)>)
    requires Agree(x, s, t)
    ensures Agree(x, SimGroups(x, WhenAffected, s, groups), SimGroups(x, Always, t, groups))
  {
    if groups != [] {
      var init, last := groups[..|groups| - 1], groups[|groups| - 1];
      GroupsAgree(x, s, t, init);
      ChangesAgree(x, last.0, SimGroups(x, WhenAffected, s, init), SimGroups(x, Always, t, init), last.1);
    }
  }

  ghost function Affecting(): Change -> bool {
    change => AffectsReachability(change)
  }

  /** How many changes refresh reachability. */
  ghost function AffectingCount(changes: seq<Change>): nat {
    |Filter(changes, Affecting())|
  }

  lemma {:induction false} CountChanges(x: Context, phase: Phase, s: Sim, changes: seq<Change>)
    ensures SimChanges(x, WhenAffected, phase, s, changes).computations == s.computations + 2 * AffectingCount(changes)
  {
    if changes != [] {
      CountChanges(x, phase, s, changes[..|changes| - 1]);
    }
  }

  function Flatten(groups: seq<(Phase, seq<Change>)>): seq<Change> {
    if groups == [] then [] else Flatten(groups[..|groups| - 1]) + groups[|groups| - 1].1
  }

  lemma {:induction false} CountGroups(x: Context, s: Sim, groups: seq<(Phase, seq<Change>)>)
    ensures SimGroups(x, WhenAffected, s, groups).computations == s.computations + 2 * AffectingCount(Flatten(groups))
  {
    if groups != [] {
      var init, last := groups[..|groups| - 1], groups[|groups| - 1];
      CountGroups(x, s, init);
      CountChanges(x, last.0, SimGroups(x, WhenAffected, s, init), last.1);
      FilterConcat(Flatten(init), last.1, Affecting());
    }
  }

  /** Grouping by phase loses and reorders nothing. */
  lemma {:induction false} GroupsFlatten(changes: seq<Change>)
    ensures Flatten(GroupedPhases(changes)) == changes
  {
    if changes != [] {
      var init, last := changes[..|changes| - 1], changes[|changes| - 1];
      GroupsFlatten(init);
      var groups := GroupedPhases(init);
      assert GroupedPhases(changes) == PushPhase(groups, last);
      PushFlatten(groups, last);
      assert changes == init + [last];
    }
  }

  lemma PushFlatten(groups: seq<(Phase, seq<Change>)>, change: Change)
    ensures Flatten(PushPhase(groups, change)) == Flatten(groups) + [change]
  {
    var pushed := PushPhase(groups, change);
    if groups != [] && groups[|groups| - 1].0 == PhaseFor(change) {
      assert pushed[..|pushed| - 1] == groups[..|groups| - 1];
    } else {
      assert pushed[..|pushed| - 1] == groups;
    }
  }

  /** Groups are nonempty and of one phase, and neighbours differ in phase. */
  ghost predicate MaximalGroups(groups: seq<(Phase, seq<Change>)>) {
    && (forall i :: 0 <= i < |groups| ==>
          groups[i].1 != [] && forall change :: change in groups[i].1 ==> PhaseFor(change) == groups[i].0)
    && (forall i :: 0 < i < |groups| ==> groups[i - 1].0 != groups[i].0)
  }

  lemma PushKeepsMaximal(groups: seq<(Phase, seq<Change>)>, change: Change)
    requires MaximalGroups(groups)
    ensures MaximalGroups(PushPhase(groups, change))
  {
    var pushed, last := PushPhase(groups, change), |groups| - 1;
    if groups != [] && groups[last].0 == PhaseFor(change) {
      assert forall i :: 0 <= i < last ==> pushed[i] == groups[i];
    } else {
      assert forall i :: 0 <= i < |groups| ==> pushed[i] == groups[i];
    }
  }

  /** Together with GroupsFlatten: the groups are exactly the maximal runs of one phase. */
  lemma {:induction false} GroupsAreMaximal(changes: seq<Change>)
    ensures MaximalGroups(GroupedPhases(changes))
  {
    if changes != [] {
      GroupsAreMaximal(changes[..|changes| - 1]);
      PushKeepsMaximal(GroupedPhases(changes[..|changes| - 1]), changes[|changes| - 1]);
    }
  }

  /**
   Refreshing reachability only after the changes that can alter it gives the
   same phases, reachability and findings as refreshing after every change, with
   exactly two computations at the start and two per affecting change.
   */
  lemma IncrementalEqualsFull(x: Context, w: World, changes: seq<Change>)
    ensures var fast, full := Simulate(x, WhenAffected, w, changes), Simulate(x, Always, w, changes);
      && fast.phases == full.phases && fast.log == full.log && fast.world == full.world
      && fast.computations == 2 + 2 * AffectingCount(changes)
  {
    GroupsAgree(x, StartSim(x, w), StartSim(x, w), GroupedPhases(changes));
    CountGroups(x, StartSim(x, w), GroupedPhases(changes));
    GroupsFlatten(changes);
  }
}
