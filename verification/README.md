# pgroles, modelled and verified

pgroles is a planner for PostgreSQL roles. It compares a current role graph with
a desired one, emits an ordered list of changes, filters that list by
reconciliation mode and ownership, simulates it step by step to see which
authority each change needs, and binds approvals to a canonical form of it.
This project models that core in Dafny and proves what the planner is for: plans
converge, do not oscillate, revoke only what is justified, keep their order
through every filter, and are analysed exactly.

Check the whole project with `dafny verify dfyconfig.toml`.

## How the model is laid out

Sections of a plan are written twice. `Diff` gives every section in closed form:
a concatenating map over sorted keys, with revokes defined key by key. `RevokeLoops`
and `DiffLoops` build the same sections the way the planner does, with range
scans, accumulated maps, a recursive split by grantor and pushes into vectors, and
are proved equal to the closed form. Properties are proved about the closed form.
The simulator is treated the same way: `Steps`, `Simulation` and `Analysis` say
what a step and a run mean, `Explorer` and `ExplorerRun` hold the classes that
rewrite a graph, three fact maps and the findings in place.

| modules | subject |
|---|---|
| Sequences, Orders | folds, concatenating maps, filters, iteration order of ordered maps |
| Model, Manifest, Roles | the role graph, its keys and their orders, changes, declarations, role attributes |
| Diff, Sections, RevokeLoops, DiffLoops | the plan, in closed form and as loops |
| Revocation | which privilege a plan revokes, from which target, through which grantor |
| Steps, Views, Rounds, EntryRounds, SplitRounds, GrantRounds, MemberRounds, OptionRounds, Convergence | applying a plan, and planning again |
| Wildcards, WildcardRuns | schema-wide grants over a live database with objects recreated under it |
| Inspection, Validation | the graphs inspection and accepted manifests give, and what rounds make of them |
| Plan, PlanLoops, PlanOrder, AdditiveMode, External, Brownfield | retirements and filters |
| Authority, Simulation, Analysis, AdminOptions, PlanAuthority | tri-state reachability, the simulation, its findings |
| Explorer, ExplorerRun | the simulator and the analysis as they run |
| OptionPlans, FilteredOptions | membership option intents resolved to attributed grantors, in the plan as filtered |
| Composition, Ownership, DocumentOrder, SchemaMerge | bundles of scoped documents |
| Guc, Expansion, Export, RoundTrip | list settings, the desired graph of a manifest, export and re-import |
| Candidate, Approval, Passwords | canonical content, the approval form, password placement |

## Where the code decides

- Two rounds of planning and applying are not always enough. When a schema moves
  to a new owner, revokes from that owner are held back for a round. In the second
  round they may cost the owner's target its declaration: an emptied row is removed
  even if it is declared, and a revoke that names its grantor rewrites the row from
  the entries still recorded, which forgets privileges granted meanwhile. A third
  round grants them again. `SplitRounds.Loses` gives the condition on the two graphs;
  `Convergence.TransferNeedsThreeRounds` and
  `Convergence.RecordedTransferNeedsThreeRounds` exhibit it.
- Three rounds are not always enough either. A membership whose options must change
  in place, while its option tuples are not all recorded, is stuck if an option must
  rise or if a grantor without a tuple is asked to lower one: its update is planned in
  every round and reached in none (`Convergence.StuckNeverConverges`, concretely
  `Convergence.PartialTuplesNeverConverge`). `Convergence.ConvergesInTwoRounds` and
  `Convergence.ConvergesInThreeRounds` prove that these two are the only exceptions, both
  ways; for inspected graphs and accepted manifests see `Validation.ManifestConverges`.
- Opposite assertions on a target never settle (`Convergence.OppositeNeverSettles`), which
  is why manifests with such assertions are rejected. The check compares a name with a
  wildcard only where both a schema and a name are given: `Validation.AcceptedIffDisjoint`
  says exactly what passes, `Validation.LooseConflictPasses` gives two rules that should not.
- Composition may depend on the order of documents that share a label:
  `Ownership.SharedLabelsDependOnOrder` gives three documents that are accepted in
  one order and refused in another. A list is accepted in every order exactly when
  every document is sound, no claim is made twice, and no two documents under
  different labels split an exclusive member list (`DocumentOrder.AcceptedInEveryOrder`).
- `password_intent_changes` places a marker after the first creation of a name
  only, `inject_password_changes` after every one. `Passwords.TwinsAgree` shows that
  the two agree exactly when no such name is created twice.
- An executor that itself holds ADMIN through an edge keeps that edge: the plan
  never lowers it, so a pair may keep ADMIN beyond what is declared.
  `OptionPlans.ResolvedOutcome` says exactly when; `MemberRounds.Outcome` only that
  nothing else stands in the way.

## Model

| member | source | states |
|---|---|---|
| `RevokeLoops.ScanScope` | crates/pgroles-core/src/diff.rs:1161-1173 | seeking to the start of a (grantee, type, schema) prefix and taking while it lasts yields exactly the keys of that scope, in order |
| `RevokeLoops.ScopeConvex` | crates/pgroles-core/src/model.rs:279-295 | with the name as last field and no name least, every key between the start of a scope and a key of the scope is in the scope |
| `RevokeLoops.CollectHeld` | crates/pgroles-core/src/diff.rs:1160-1176 | a wildcard assertion sees everything held in its scope, owner-inherent rows aside |
| `RevokeLoops.ConcreteTargets` | crates/pgroles-core/src/diff.rs:1220-1254 | a wildcard revoke expands over the named targets known from grant rows and from attributed entries, each with all it holds |
| `RevokeLoops.PushRevokes` | crates/pgroles-core/src/diff.rs:1209-1313 | the recursive split terminates after one level and pushes exactly the closed-form revokes of the key |
| `RevokeLoops.PushGrantors` | crates/pgroles-core/src/diff.rs:1294-1308 | one attributed revoke per holding grantor, and the covered set is the requested part of all entries together |
| `DiffLoops.DiffDeclared` | crates/pgroles-core/src/diff.rs:1085-1132 | missing privileges are granted in key order, and the excess of matched targets is what accumulates |
| `DiffLoops.DiffUndeclared` | crates/pgroles-core/src/diff.rs:1134-1151 | after the undeclared targets the table holds the excess of every current target |
| `DiffLoops.DiffAbsences` | crates/pgroles-core/src/diff.rs:1153-1192 | after the assertions the table is the revoke map: excess and asserted absences merged per key |
| `DiffLoops.DiffGrants` | crates/pgroles-core/src/diff.rs:1024-1197 | the grant and revoke vectors equal the closed-form sections |
| `DiffLoops.DiffRoles` | crates/pgroles-core/src/diff.rs:685-736 | creations, follow-up and in-place alterations, and drops equal the closed-form sections |
| `DiffLoops.DiffSchemas` | crates/pgroles-core/src/diff.rs:801-866 | schema changes and owner reassertions equal the closed-form sections; an incoming owner is owed the whole set |
| `DiffLoops.DiffDefaultPrivileges` | crates/pgroles-core/src/diff.rs:1344-1421 | default privilege changes equal the closed-form sections, built-in defaults of created owners included |
| `DiffLoops.DiffMemberships` | crates/pgroles-core/src/diff.rs:1467-1608 | membership removals, reductions, increases and additions equal the closed-form sections |
| `DiffLoops.RetainRevokes` | crates/pgroles-core/src/diff.rs:754-779 | exactly the revokes whose grantee is an incoming schema owner are dropped |
| `DiffLoops.ResolveRoutineAliases` | crates/pgroles-core/src/model.rs:444-490 | routine spellings are resolved and keys that then coincide are united |
| `DiffLoops.ComputeDiff` | crates/pgroles-core/src/diff.rs:670-799 | the assembled plan equals the closed form, section by section and in order |
| `Roles.ChangedAttributes` | crates/pgroles-core/src/model.rs:97-139 | the loop yields the attribute delta in comparison order |
| `Roles.DeltaReaches` | crates/pgroles-core/src/explorer.rs:1624-1647 | applying the delta to the old state gives the new one, the comment aside |
| `Roles.DeltaEmpty` | crates/pgroles-core/src/model.rs:97-139 | the delta is empty exactly when the states agree up to the comment |
| `Revocation.SplitIsExact` | crates/pgroles-core/src/diff.rs:1294-1312 | outside a schema transfer the split holds exactly: per holding grantor its entry intersected with the request, and a plain revoke for what no entry records |
| `Revocation.SplitConserves` | crates/pgroles-core/src/diff.rs:1209-1313 | the emitted revokes together take exactly the requested privileges, from the target and nothing else |
| `Revocation.SplitHits` | crates/pgroles-core/src/diff.rs:1220-1272 | a wildcard request hits a privilege on a named target iff the target is known, not owner-inherent, and holds it |
| `Revocation.NamedHits` | crates/pgroles-core/src/diff.rs:1091-1197 | a plan revokes a privilege from a named target iff it is excess or asserted absent there, or reached through its wildcard |
| `Revocation.StarHits` | crates/pgroles-core/src/diff.rs:1255-1277 | a literal wildcard is revoked only where no named and no owner-inherent entry is known |
| `Revocation.OwnersAreSafe` | crates/pgroles-core/src/diff.rs:1115-1179 | no revoke takes anything from an owner-inherent entry |
| `Revocation.PublicLosesOnlyAsserted` | crates/pgroles-core/src/diff.rs:1108-1140 | PUBLIC loses only privileges asserted absent for the target or its wildcard |
| `Revocation.RevokesOnlyHeld` | crates/pgroles-core/src/diff.rs:1220-1276 | a named target is only ever revoked what the graph records on it |
| `Rounds.RolesAfterRound` | crates/pgroles-core/src/diff.rs:685-736 | one round makes the roles equal to the desired ones |
| `Rounds.SchemasAfterRound` | crates/pgroles-core/src/explorer.rs:1603-1623 | one round places every schema with its owner, the next completes the owner privileges |
| `Rounds.DefaultsAfterRound` | crates/pgroles-core/src/diff.rs:1344-1421 | one round leaves no default privilege to revoke, the next none to grant |
| `EntryRounds.FollowRevokes` | crates/pgroles-core/src/explorer.rs:1674-1723 | through revokes of which the plain ones take nothing an entry records, each grantor's entry is what it was less what that grantor was told to revoke, and the row keeps nothing but what is still recorded or was never hit |
| `SplitRounds.SplitLeaves` | crates/pgroles-core/src/explorer.rs:1674-1723 | the exact row a planned split leaves of a recorded target: the entries that survive once one is met, nothing when two grantors are asked and none survives, plain subtraction otherwise |
| `SplitRounds.OwnRequest` | crates/pgroles-core/src/diff.rs:1209-1313 | with nothing revoked through its wildcard, a named target sees of the whole plan exactly the split of its own request |
| `GrantRounds.GrantAfterRound` | crates/pgroles-core/src/explorer.rs:1653-1723 | where no entries are consulted, a target after a round is what was held or declared, less exactly what the plan's revokes hit |
| `GrantRounds.EveryGrantorHit` | crates/pgroles-core/src/diff.rs:1294-1312 | a privilege the plan takes from a recorded target is revoked through every grantor that recorded it |
| `GrantRounds.RecordedAfterRound` | crates/pgroles-core/src/explorer.rs:1674-1723 | a recorded target after a round holds only what was held, declared or recorded and not revoked, and still holds what was held and is still recorded |
| `GrantRounds.RoundLeavesNoRevokes` | crates/pgroles-core/src/diff.rs:1091-1197 | with no revoke held back, a round leaves nothing to revoke, attributed entries included |
| `GrantRounds.SatisfiedAfterTwo` | crates/pgroles-core/src/diff.rs:754-779 | after two rounds a declared target is satisfied iff no revoke held back for an incoming owner costs it its declaration |
| `MemberRounds.ReadyAfterRound` | crates/pgroles-core/src/explorer.rs:1765-1982 | a round brings every pair that needs no update in place, or whose tuples are known, to its declared options, executor-held ADMIN aside, or loses it with a dropped role |
| `OptionRounds.PairAfterRound` | crates/pgroles-core/src/explorer.rs:1806-1910 | for every pair, whatever is recorded of it: its edge goes with a dropped role, known tuples bring it to its outcome, and otherwise updates decide its edge iff all tuples are recorded |
| `OptionRounds.StuckIffAfterRound` | crates/pgroles-core/src/diff.rs:1527-1599 | a round neither frees a stuck membership nor makes one |
| `OptionRounds.SettledAfterTwo` | crates/pgroles-core/src/diff.rs:1467-1608 | after two rounds nothing is left to change about a pair iff it is not stuck |
| `Convergence.ConvergesInTwoRounds` | crates/pgroles-core/src/diff.rs:670-866 | two rounds of planning and applying reach an empty plan iff no revoke held back for an incoming schema owner takes a declaration along and no membership is stuck |
| `Convergence.ConvergesInThreeRounds` | crates/pgroles-core/src/diff.rs:670-866 | a third round is enough iff no membership is stuck |
| `Convergence.TransferNeedsThreeRounds` | crates/pgroles-core/src/diff.rs:754-779 | a concrete transfer for which two rounds are not enough: an empty declared grant |
| `Convergence.RecordedTransferNeedsThreeRounds` | crates/pgroles-core/src/explorer.rs:1702-1708 | a concrete transfer that loses a freshly granted privilege because two grantors are on record |
| `Convergence.StuckNeverConverges` | crates/pgroles-core/src/explorer.rs:1806-1910 | along every run a stuck membership stays stuck and keeps the plan from ever becoming empty |
| `Convergence.PartialTuplesNeverConverge` | crates/pgroles-core/src/explorer.rs:1847-1875 | a concrete pair with the tuple of one of its two grantors recorded, raised in every round in vain |
| `Convergence.OppositeNeverSettles` | crates/pgroles-core/src/manifest.rs:1617-1624 | a privilege declared on a named target that is not owner-inherent, and asserted absent on it or its wildcard, leaves no graph with an empty plan |
| `Convergence.DiffConverges` | crates/pgroles-core/src/diff.rs:670-672 | the same with routine spellings resolved on every round |
| `Wildcards.NormalizeWildcardGrants` | crates/pgroles-inspect/src/privileges.rs:1740-1844 | compacting rows under the declared wildcards keeps what every object holds, reports a declared privilege on the wildcard iff all objects hold it, and reports nothing undeclared |
| `WildcardRuns.WildcardIsNeverRevoked` | crates/pgroles-core/src/diff.rs:1030-1084 | whatever was inspected, no planned revoke takes a privilege that a desired wildcard declares, from any target in its scope |
| `WildcardRuns.ReconcileCompletes` | correctness/README.md:201-219 | from every database without a diagnostic and every faithful inspection, one reconcile gives every object in scope every wildcard privilege |
| `WildcardRuns.RunsDoNotFlap` | correctness/races/Convergence.tla:137-194 | along every run of reconciles and external recreations, with objects the executor may not grant on, the lacking objects are exactly those recreated since the last reconcile that no diagnostic stopped |
| `WildcardRuns.ReconcileSettles` | correctness/races/Convergence.tla:151-194 | a reconcile is diagnosed and changes nothing, or leaves no object lacking and no diagnostic |
| `WildcardRuns.SettledScopeIsQuiet` | correctness/races/Convergence.tla:146-149 | once no object lacks a privilege the plan neither grants nor revokes it on the wildcard |
| `Inspection.InspectedIsPlannable` | crates/pgroles-inspect/src/privileges.rs:1740-1844 | every graph read from a database and compacted under the desired wildcards meets what convergence is proved for |
| `Inspection.InspectedConverges` | crates/pgroles-core/src/diff.rs:670-866 | for every inspected graph, two rounds settle iff nothing is held back or stuck, three iff nothing is stuck |
| `Validation.ValidateEnsureConflicts` | crates/pgroles-core/src/manifest.rs:1625-1693 | grant rules pass iff no two of them assert one privilege both ways on one target, or on a wildcard and a name in its scope |
| `Validation.AcceptedIffDisjoint` | crates/pgroles-core/src/manifest.rs:1617-1693 | the graph of a manifest is free of opposite declarations iff the manifest passes and no target without schema or name is in conflict with its wildcard |
| `Validation.LooseConflictPasses` | crates/pgroles-core/src/manifest.rs:1664-1690 | two rules that pass although no graph is ever settled for them, owner-inherent targets aside |
| `Validation.ManifestConverges` | crates/pgroles-core/src/manifest.rs:1617-1624 | from an accepted manifest and an inspected database, two rounds settle iff nothing is held back or stuck, three iff nothing is stuck |
| `PlanLoops.ApplyRoleRetirements` | crates/pgroles-core/src/diff.rs:873-905 | each drop is preceded by its own cleanup steps and nothing else moves |
| `PlanOrder.PlanIsRanked` | crates/pgroles-core/src/diff.rs:781-798 | every filtered plan keeps the order: object revokes, then membership reductions, additions, default revokes, retirements and drops |
| `PlanOrder.PlanIsOneWay` | crates/pgroles-core/src/diff.rs:1527-1599 | in every filtered plan an option update only lowers or only raises |
| `PlanOrder.RetirementStaysWithDrop` | crates/pgroles-core/src/diff.rs:873-905 | filtering commutes with adding retirements: cleanup steps stay immediately before their drop, and vanish with it |
| `PlanAuthority.SetRoleIntact` | crates/pgroles-core/src/diff.rs:789-794 | until the last object revoke no SET ROLE fact changes that the plan does not itself replace by a creation |
| `PlanAuthority.GrantorStillAssumable` | crates/pgroles-core/src/diff.rs:789-794 | a grantor assumable at the start is still assumable when its targeted revoke runs |
| `PlanAuthority.PlannedRevokesAreAssumable` | crates/pgroles-core/src/diff.rs:501-514 | the same for every canonical plan |
| `PlanAuthority.ProjectionEqualsSimulation` | crates/pgroles-core/src/explorer.rs:641-668 | applying only the early phases and skipping object revokes gives the roles, memberships and facts that the full simulation has at the first membership addition |
| `PlanAuthority.ProjectionEqualsResolved` | crates/pgroles-core/src/explorer.rs:421-439 | projecting the unresolved plan gives the roles, memberships and facts that the simulation of the resolved plan has at the first membership addition |
| `PlanAuthority.PlannedProjection` | crates/pgroles-core/src/explorer.rs:1133-1158 | every canonical plan has such a boundary, the same before and after resolution |
| `AdditiveMode.AdditiveIsMonotone` | crates/pgroles-core/src/diff.rs:570-649 | an additive plan, as planned and as resolved, leaves every role, owner, grant, default privilege and effective membership option at least as large, and no pre-existing role altered |
| `Brownfield.FilterDenotesAbsences` | crates/pgroles-core/src/diff.rs:381-496 | for a preserving role the revocations denoted over an inventory after the filter are those denoted before that are asserted absent, exactly or by wildcard |
| `Brownfield.OthersUntouched` | crates/pgroles-core/src/diff.rs:381-496 | all other changes are kept, in order |
| `External.UnmanagedRolesUntouched` | crates/pgroles-core/src/diff.rs:318-365 | running any canonical plan leaves a role that is external or predefined exactly as it was |
| `External.UndeclaredMembersUntouched` | crates/pgroles-core/src/diff.rs:300-365 | running any canonical plan leaves an undeclared membership in an unmanaged role as it was, tuples and edge, unless the role is exclusive and the member not predefined, or the member is dropped |
| `Authority.Traverse` | crates/pgroles-core/src/explorer.rs:1185-1196 | the breadth-first search sees exactly the roles reachable along edges worth following |
| `Authority.ComputeReachability` | crates/pgroles-core/src/explorer.rs:1160-1214 | the status table equals the path-based definition |
| `Authority.StatusIsExact` | crates/pgroles-core/src/explorer.rs:1197-1213 | reachable iff in every completion of the unknown edges, unreachable iff in none; an incomplete graph disproves nothing |
| `AdminOptions.AdminOrderFree` | crates/pgroles-core/src/explorer.rs:1311-1323 | the ADMIN fold depends only on which edges occur |
| `AdminOptions.AdminIsExact` | crates/pgroles-core/src/explorer.rs:1298-1323 | the ADMIN verdict is reachable iff every completion administers the role, unreachable iff none does |
| `Analysis.IncrementalEqualsFull` | crates/pgroles-core/src/explorer.rs:530-639 | recomputing only after affecting changes gives the same phases, reachability and findings as recomputing always, with 2 + 2n computations for n affecting changes |
| `Analysis.GroupsFlatten` | crates/pgroles-core/src/explorer.rs:1118-1131 | grouping by phase loses and reorders nothing |
| `Analysis.GroupsAreMaximal` | crates/pgroles-core/src/explorer.rs:1118-1131 | every group is nonempty and of one phase, and neighbouring groups differ in phase |
| `Simulation.Unaffected` | crates/pgroles-core/src/explorer.rs:845-871 | a change outside the affecting ones leaves everything reachability depends on |
| `Explorer.Simulator.ApplyChange` | crates/pgroles-core/src/explorer.rs:1584-2004 | rewriting graph and facts in place is the step the properties are about, for every kind of change |
| `Explorer.Simulator.UpdateMemberOptions` | crates/pgroles-core/src/explorer.rs:1806-1910 | one tuple is bound or overwritten, the effective edge and facts follow when all tuples are known and become unknown otherwise |
| `Explorer.Simulator.RemoveMember` | crates/pgroles-core/src/explorer.rs:1911-1973 | one edge or the whole pair goes, and the facts follow what the surviving tuples supply |
| `Explorer.Simulator.Revoke` | crates/pgroles-core/src/explorer.rs:1674-1723 | a grantor's entry shrinks and the row becomes what the entries left over record, or is subtracted from |
| `Explorer.Simulator.ApplyAttributeChanges` | crates/pgroles-core/src/explorer.rs:825-838 | the executor's superuser and createrole follow the plan's changes to its own role |
| `ExplorerRun.GroupPhases` | crates/pgroles-core/src/explorer.rs:1118-1131 | the loop computes the phase groups |
| `ExplorerRun.AdminOptionOf` | crates/pgroles-core/src/explorer.rs:1298-1323 | the loop computes the ADMIN verdict |
| `ExplorerRun.CompareStatuses` | crates/pgroles-core/src/explorer.rs:1216-1274 | losses, disconnections and gains are reported per role, dropped roles aside |
| `ExplorerRun.Analyzer.Visit` | crates/pgroles-core/src/explorer.rs:563-612 | one change is reported, applied and followed by a refresh when asked for: one step of the simulation |
| `ExplorerRun.SimulatePlan` | crates/pgroles-core/src/explorer.rs:530-639 | phases, findings and computation count equal those of the simulation |
| `ExplorerRun.InitialEdgeFacts` | crates/pgroles-core/src/explorer.rs:752-799 | snapshot facts per pair, duplicates united, with explicit facts layered over them |
| `ExplorerRun.ExplicitFactsWin` | crates/pgroles-core/src/explorer.rs:739-748 | a known explicit SET, INHERIT or ADMIN fact stands until a later known one, and an omitted fact never erases it |
| `ExplorerRun.UsableGrantors` | crates/pgroles-core/src/explorer.rs:641-707 | the usable grantors are exactly the reachable, undropped ADMIN holders of the projected state, with the bootstrap role for superusers |
| `ExplorerRun.ChosenGrantorHolds` | crates/pgroles-core/src/membership_options.rs:90-112 | for an executor that is no superuser, the grantor chosen for an increase holds ADMIN and is inherited in the simulation of the resolved plan when it reaches the membership additions |
| `OptionPlans.ResolvedPlanReaches` | crates/pgroles-core/src/membership_options.rs:55-143 | running a resolved unfiltered plan gives every tuple of a pair exactly its declared flags, raises through the chosen grantor alone, keeps SET, keeps ADMIN only where the executor holds it, and touches no tuple the plan does not name |
| `FilteredOptions.FilteredPlanReaches` | crates/pgroles-core/src/explorer.rs:421-439 | in every mode and under every filter, running the resolved plan drives each pair it updates to the mode's target, tuple by tuple, touches no tuple it does not name, and leaves alone every other attributed pair whose roles it does not drop |
| `OptionPlans.RaisedSupplies` | crates/pgroles-core/src/explorer.rs:1806-1910 | an increase adds exactly the raised options to what the tuples supply and leaves all other tuples alone |
| `OptionPlans.ResolvedFold` | crates/pgroles-core/src/membership_options.rs:55-143 | running the resolved list is running each change in its resolved form |
| `Composition.ScopeTable` | crates/pgroles-core/src/composition.rs:410-433 | the facet table holds exactly the declared facets, repeated schemas united |
| `Composition.ValidateDocumentScope` | crates/pgroles-core/src/composition.rs:310-408 | a document passes iff everything it manages is in its declared scope |
| `Ownership.OwnershipIndex.RegisterClaims` | crates/pgroles-core/src/composition.rs:527-619 | registration succeeds iff sequential insertion meets no owned claim; otherwise the first such claim is reported with its recorded owner |
| `Ownership.OwnershipIndex.RegisterStanzas` | crates/pgroles-core/src/composition.rs:498-522 | an exclusive member list split across labels is refused, naming the role, the recorded label and the new one |
| `Ownership.OwnershipIndex.Register` | crates/pgroles-core/src/composition.rs:443-525 | one document is registered with all its claims and stanzas, or refused |
| `Ownership.ClaimsAccepted` | crates/pgroles-core/src/composition.rs:443-496 | claims are accepted iff distinct and unowned, and are then owned by the document |
| `Ownership.StanzasAccepted` | crates/pgroles-core/src/composition.rs:498-522 | stanzas are accepted iff none clashes with a recorded one under another label, and are then recorded under the first label |
| `Ownership.AcceptedIffEachFollows` | crates/pgroles-core/src/composition.rs:253-274 | documents under any labels are accepted one after the other iff each is sound, claims nothing claimed before and splits no exclusive member list; the index then names every owner |
| `Ownership.SharedLabelsDependOnOrder` | crates/pgroles-core/src/composition.rs:498-522 | three documents, two under one label, accepted in one order and refused in another |
| `DocumentOrder.AcceptedInEveryOrder` | crates/pgroles-core/src/composition.rs:253-274 | every reordering of a list of documents is accepted iff all are sound, no claim is made at two positions, and no two labels split an exclusive member list |
| `DocumentOrder.DistinctLabelsOrderFree` | crates/pgroles-core/src/composition.rs:253-274 | with distinct labels a list accepted in one order is accepted in every order |
| `DocumentOrder.EveryClaimHasOneOwner` | crates/pgroles-core/src/composition.rs:443-496 | under any labels every accepted claim is made at exactly one position, and the index names that document |
| `SchemaMerge.MergeInto` | crates/pgroles-core/src/composition.rs:642-680 | one document's bindings are merged field by field |
| `SchemaMerge.ComposeBundle` | crates/pgroles-core/src/composition.rs:230-283 | a bundle is refused without sources or documents, at the first document that may not follow the ones before it, or when the merged manifest does not expand; otherwise it gives the merged manifest and the owner of every claim |
| `SchemaMerge.MergeIsOrderFree` | crates/pgroles-core/src/composition.rs:642-680 | accepted documents, under any labels, merge into the same schema bindings in every order |
| `SchemaMerge.ComposedSchemasOrderFree` | crates/pgroles-core/src/composition.rs:276-283 | two orders of one bundle that both compose give the same schemas |
| `Guc.SplitGucList` | crates/pgroles-core/src/guc.rs:40-77 | the character loop computes the recursive split, unterminated quotes included |
| `Guc.PrintSplits` | crates/pgroles-core/src/guc.rs:87-116 | splitting the quoted and joined form of any list of strings returns the list |
| `Guc.CanonicalIsIdempotent` | crates/pgroles-core/src/guc.rs:107-116 | canonicalizing twice is canonicalizing once |
| `Guc.CanonicalDecidesEquality` | crates/pgroles-core/src/guc.rs:98-116 | well-formed values have equal canonical forms iff they split equally |
| `Guc.UnterminatedNeverEqual` | crates/pgroles-core/src/guc.rs:104-116 | a value with an unterminated quote is kept verbatim and never equals a well-formed one |
| `Expansion.FromExpanded` | crates/pgroles-core/src/model.rs:496-603 | a manifest builds its graph unless a default privilege rule lacks a valid scope or a grantee |
| `Expansion.DefineState` | crates/pgroles-core/src/model.rs:61-94 | unsaid attributes take their defaults; setting names are lowercased and list settings canonicalized |
| `Expansion.CollectUnites` | crates/pgroles-core/src/model.rs:524-583 | a key is declared iff some entry has it, with the privileges of all that do |
| `Export.RoleGraphToManifest` | crates/pgroles-core/src/export.rs:27-207 | roles, schemas and grants are listed in key order, default privileges and memberships grouped |
| `RoundTrip.SettingsRoundTrip` | crates/pgroles-core/src/model.rs:76-92 | settings survive export and re-import iff names are lowercase and list values canonical |
| `RoundTrip.RebuiltParts` | crates/pgroles-core/src/export.rs:27-207 | re-import gives back grants other than owner-inherent ones, default privileges, memberships, and role and schema states up to normalisation |
| `RoundTrip.ExportRoundTrip` | crates/pgroles-core/src/export.rs:27-207 | the diff against the re-imported graph is empty iff settings are canonical and owned schemas carry the full owner privileges |
| `Candidate.Canonicalize` | crates/pgroles-core/src/candidate.rs:79-102 | the recursion with its sorted map computes the canonical value |
| `Candidate.EmptyIffVanishes` | crates/pgroles-core/src/candidate.rs:79-111 | a member is dropped iff it is null, an empty array, or an object whose members all vanish |
| `Candidate.CanonicalIsIdempotent` | crates/pgroles-core/src/candidate.rs:79-102 | canonicalizing twice is canonicalizing once |
| `Candidate.CanonicalDecides` | crates/pgroles-core/src/candidate.rs:79-111 | two parsed values have equal canonical forms iff they differ only in key order and vanishing members |
| `Approval.CollectEffects` | crates/pgroles-core/src/approval.rs:293-296 | effects are collected in order, and a password without a recorded source fails the whole list |
| `Approval.ArrangeKeeps` | crates/pgroles-core/src/approval.rs:298-300 | sorting orders the effects by their text and keeps them all |
| `Approval.CanonicalChangeSet` | crates/pgroles-core/src/approval.rs:289-320 | the approval form is computed from the collected and sorted effects and the bound inputs |
| `Approval.FormIsStable` | crates/pgroles-core/src/approval.rs:289-343 | reordering changes and re-salting password verifiers leaves the approval form alone |
| `Approval.FormsAgreeIff` | crates/pgroles-core/src/approval.rs:289-343 | two plans have the same approval form iff they have the same effects in any order, the same mode, target and identity, and the same scope as sets |
| `Approval.EvaluateTargetIdentity` | crates/pgroles-core/src/approval.rs:235-267 | execution proceeds iff both identities read as approved and a demanded physical identity is present |
| `Passwords.InjectPasswordChanges` | crates/pgroles-core/src/diff.rs:968-1018 | a new role's password follows its creation, others are appended in name order |
| `Passwords.PasswordIntentChanges` | crates/pgroles-cli/src/main.rs:948-983 | review intent follows the first creation of each declared name, the rest is appended |
| `Passwords.TwinsAgree` | crates/pgroles-cli/src/main.rs:948-983 | review intent equals the injected plan with passwords redacted iff no role declaring a password is created twice |

## Left out

- SQL rendering, connection handling and the queries behind inspection are not modelled; an inspected graph is an input.
- Manifest parsing and profile expansion are not modelled; a manifest is taken as expanded, and a composed document carries its own expansion.
- Of manifest validation only the check for opposite grant assertions is modelled; the same check per default privilege key would only add easy members.
- Convergence.ConvergesInTwoRounds: takes wildcard rows only where they are declared, entries that record what a row or a declared wildcard holds, and no wildcard assertion over a recorded schema that changes hands (schema-level grants have no object name, crates/pgroles-core/src/manifest.rs:699-700); Inspection.InspectedIsPlannable shows that inspected graphs are such.
- Wildcards.NormalizeWildcardGrants: patterns have distinct keys, because the caller collects them in a map (crates/pgroles-inspect/src/lib.rs:575-585), and no object is named `*`.
- OptionPlans.ResolvedPlanReaches: stated for pairs with a single effective edge, as inspection produces them.
- FilteredOptions.FilteredPlanReaches: stated for pairs with a single effective edge, as above.
- Approval.CanonicalChangeSet: effects are sorted as a sequence rather than in place, and serialization is an arbitrary injective text.
- Ownership.OwnershipIndex.RegisterClaims: the five ownership maps are one map from claims of five kinds.
- Findings carry their kind, severity, phase, change indices and role, not their message text; the visual graph of an analysis is not modelled.
- Digests, SCRAM verifiers, base64 and YAML are library calls; a verifier is an input.
- Authentication providers, naming patterns, request bounds and plan summary counters would only add easy members.
- The operator's plan lifecycle, storage, locking and approval races are not part of this model.
