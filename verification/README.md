# Keycloak config operator: a verified model

The operator reconciles Kubernetes resources (groups, clients, realms) with a Keycloak server. This project models
three of its components in Dafny and proves what they guarantee, for every interleaving, every iteration order of
Go's maps and every pattern of failing API calls; and, where an obvious guarantee does not hold, exactly when it does.

Every API call is one step. A pass over a resource is a value (`Proc`) that holds the object in memory and the place
in the code; `Step` performs its next call on whatever world that call meets. Runs interleave the steps of many
passes with what other parties do to the cluster and to Keycloak; they start wherever the operator may start, with any
statuses that are in order. Where a result needs others to refrain from something, its contract says so, and a concrete
run shows what happens otherwise. Beside each step function stands the code itself, as classes with methods, loops
and early returns (`GroupReconciler`, `ClientReconciler`, `RoleReconciler`, `ClientManager.Manager`,
`ClientSecret.SecretStore`); each method is proved to perform exactly the steps, so the results about steps and runs
hold of the code.

| component | modules |
|---|---|
| groups | `GroupTypes`, `GroupHierarchy` (the walk up the parents), `GroupPass` (one pass), `GroupOutcomes` (what a pass makes of its answers), `GroupRuns` (all runs), `GroupRunOutcomes`, `GroupForest` (acyclicity), `RenamedGroup` (a run that breaks it), `GroupConvergence`, `GroupRecreation` (vanished groups), `GroupPlan` (whole hierarchies), `GroupLimits` (counterexamples), `GroupReconciler` (the code) |
| clients | `ClientFields` (the 26 managed fields), `ClientStatus`, `ClientSecret`, `ClientRoles`, `ClientRolesResults`, `RoleReconciler` (the code), `ClientPass` (one pass), `ClientOutcomes` (what a pass makes of its answers), `ClientRuns` (all runs), `ClientRunOutcomes`, `ClientSafety` (finalizer and deletion), `ClientIdentity` (what becomes of one client), `ForgottenClients` (runs that leave one behind), `ClientConvergence`, `ClientRoleConvergence`, `StaleRoles` (a client whose records stay wrong), `ClientReconciler` (the code) |
| connection cache | `ClientKeys` (key strings), `ClientManager` (the code, and its lock steps) |
| shared | `Common`, `Replies`, `Tapes` (step functions run along a tape of worlds), `Traces` (runs of a state machine) |

The main results, hardest first:

- `GroupForest.Forest`: in every run in which declared parents and names stay put, names are unique and nobody renames a
  Keycloak group, the recorded group hierarchy is acyclic, even where the declarations form a cycle.
  `RenamedGroup.RenamingBreaksTheForest`: one renaming, and a group is recorded as its own parent.
- `ClientIdentity.TrackedClientIsGone`: the client an object tracked under its finalizer is gone from its realm when the
  object is, as long as the object kept referring to that realm, unless the deleting pass found no Realm object.
  `ForgottenClients.MovedClientIsForgotten`: otherwise it may live on.
- `GroupOutcomes.ReadyExactly`, `ClientOutcomes.ReadyExactly`: what a report of Ready is worth, for every sequence of
  worlds and failing calls, as an equivalence on those worlds; `PassFollowsTape` carries it to every run.
- `GroupHierarchy.ValidateExactUnlessClash`: when the hierarchy walk rejects a chain, for all stores.
- `ClientRolesResults.WriteBudget` and `PassExact`: role writes and remaining mismatch always add up, and a successful
  pass is exact. `ClientRoleConvergence.DeclaredRolesConverge`: when the recorded role identifiers are the live ones;
  `StaleRoles.VanishedRoleStaysRecorded`: a client for which they never will be.
- `ClientManager.CriticalSectionsAtomic`, `TraceInvariant`: the double-checked cache, for any number of callers.
- `ClientKeys.KeyInjective`, `PrefixExact`: which connections share a key, and which ones a prefix evicts.
- `GroupPlan.PlanConverges`: undisturbed passes, parents first, build in Keycloak exactly the declared hierarchy.
- `GroupConvergence.Converges`, `UnderDeclaredParent` and `GroupRecreation.RecreatedAtTheTop`: where an undisturbed pass
  puts a group, and when that is where it was declared to be. `ClientConvergence.Converges`: the same for clients.
- `GroupRuns.RunInvariant`, `ClientRuns.RunInvariant`, `ClientSecret` and `ClientFields`.

`dafny verify dfyconfig.toml` checks everything.

## Model

| member | source | states |
|---|---|---|
| GroupHierarchy.UnvisitedShrinks | internal/controller/group_controller.go:406-430 | each round of the walk uses up one of the finitely many visit keys, which is why it ends on every store, cyclic ones included |
| GroupHierarchy.WalkExact | internal/controller/group_controller.go:406-450 | without transport errors the walk accepts exactly the chains that end before a repeated visit key and before the group being validated |
| GroupHierarchy.ValidateSound | internal/controller/group_controller.go:399-450 | an accepted parent's chain ends at a root or a missing group and never reaches the group being validated, whichever fetches fail |
| GroupHierarchy.ValidateExactUnlessClash | internal/controller/group_controller.go:399-450 | validation rejects exactly the references that never end, if and only if no two groups on an ending chain share a visit key |
| GroupHierarchy.ValidateExactInOwnNamespaces | internal/controller/group_controller.go:399-450 | when the references of the chain stay in their namespaces, validation rejects exactly the references that never end |
| GroupHierarchy.CrossNamespaceChainRejected | internal/controller/group_controller.go:410 | a concrete chain across namespaces that ends and is rejected all the same, because the visit key takes the child's namespace |
| GroupHierarchy.ValidateReadsDeclarations | internal/controller/group_controller.go:399-450 | the verdict depends on declarations only, not on any status |
| GroupOutcomes.ResolvesAnew | internal/controller/group_controller.go:339-396 | a parent is fetched anew with success exactly if no call failed, every group of its chain, read at a call of its own, led on without a repeated key or the group itself until the chain ended, and the parent object read was Ready, in the realm, tracked, and alive at the verifying call |
| GroupOutcomes.ResolvesExactly | internal/controller/group_controller.go:315-396 | a pass gets past its parent exactly if there is none, or the cached one answered, or one was adopted anew; then, and only then, with that identifier |
| GroupOutcomes.CreatesExactly | internal/controller/group_controller.go:453-489 | a pass creates a group exactly if it got past its parent and then either tracked nothing or was told, without a failure, that what it tracked is gone |
| GroupOutcomes.FailedFetchIsReported | internal/controller/group_controller.go:468-483 | a fetch that fails forgets nothing, creates nothing, and is reported as not Ready |
| GroupOutcomes.ReadyExactly | internal/controller/group_controller.go:266-312 | for every sequence of worlds and failures, a pass reports Ready exactly if its parent was resolved and its group was there and as declared, or could be updated, or was absent, could be created and was found again; every other report is not Ready with RealmReady |
| GroupOutcomes.StatusLoopExact | internal/controller/group_controller.go:689-744 | after a first or second conflict the next call reads the object again; the first attempt without a conflict decides; three conflicts are a failure |
| GroupOutcomes.KeycloakWritesExact | internal/controller/group_controller.go:492-565 | the only writes to Keycloak are the creation of one group, every field as declared, and the update of the group found, which keeps its identifier and everything unmanaged |
| GroupOutcomes.ClusterWritesExact | internal/controller/group_controller.go:714-744 | the only write to the cluster replaces the status of the pass's own object under the version that was read |
| GroupRunOutcomes.PassFollowsTape | internal/controller/group_controller.go:56-136 | every pass in every run is its beginning and its own calls on the worlds they met, so that what is said of passes holds in runs |
| GroupRunOutcomes.NoCreateOverLiveGroup | internal/controller/group_controller.go:453-489 | in no run is a group created by a pass whose fetch failed, or found the tracked group alive |
| GroupRunOutcomes.ReadyInRuns | internal/controller/group_controller.go:266-312 | in every run, a report of Ready rests on a resolved parent and a group kept or made |
| GroupPass.GroupDiffMeaning | internal/controller/group_controller.go:509-596 | no difference is reported exactly when every managed field is as declared (nil and empty equal); building and applying leave no difference; applying is idempotent and keeps everything unmanaged |
| Common.SlicesEqualMeaning | internal/controller/group_controller.go:607-612 | the slice comparison equates nil with empty and nothing else |
| Common.SliceMapsEqualMeaning | internal/controller/group_controller.go:615-620 | the map comparison equates nil with empty and nothing else |
| GroupRuns.StepKeeps | internal/controller/group_controller.go:266-312 | every API call of a pass, in every world, keeps the status invariant, changes objects only under new versions and resets no identifier |
| GroupRuns.RunInvariant | internal/controller/group_controller.go:689-744 | in every state of every run: stored Ready has a stored GroupUUID; a status loop has made at most three attempts and at most one write, the merge over the version it replaced, and reports success exactly when it wrote or skipped |
| GroupRuns.UuidsNeverReset | internal/controller/group_controller.go:747-763 | a recorded GroupUUID or ParentGroupUUID is never reset to empty while the object exists |
| GroupRuns.FirstUuidNotSkipped | internal/controller/group_controller.go:713-770 | a pass that reports success over a status without GroupUUID never skips its write, and the write stores the identifier it holds |
| GroupRuns.WriteKeepsTheRest | internal/controller/group_controller.go:747-763 | a status write keeps concurrent changes of spec, finalizers and unmanaged status, and takes the identifier in memory if there is one |
| GroupForest.HonestRun | internal/controller/group_controller.go:315-396 | in every run: any recorded identifier, and Ready, means that the declared chain ends; and if nobody renames a Keycloak group, identifiers are recorded only for the group they were issued for and its declared parent |
| GroupForest.Forest | internal/controller/group_controller.go:315-396 | if declarations stay, names are unique and nobody renames a Keycloak group, a recorded parent identifier belongs to the declared parent, and following recorded identifiers never leads back to where one started |
| RenamedGroup.RenamingBreaksTheForest | internal/controller/group_controller.go:521-531 | a concrete run that meets every other hypothesis of the forest, renames one Keycloak group once, and ends with a group recorded as its own parent, because identifiers are read back by name |
| GroupForest.DeclaredCycleNeverTracked | internal/controller/group_controller.go:366-372 | a group whose declared chain never ends is never Ready and never gets an identifier, whoever renames groups in Keycloak |
| GroupConvergence.Converges | internal/controller/group_controller.go:266-312 | an undisturbed pass without failures over a resolvable, trackable group ends after at most ten calls and one for each visit key, without error, with Ready and the same declaration stored, the GroupUUID live, the managed fields as declared, and the group in Keycloak under the parent the starting world determines; no other object and no other Keycloak group changes, and a settled group causes no Keycloak write |
| GroupConvergence.UnderDeclaredParent | internal/controller/group_controller.go:327-337 | in the end Keycloak has the group under the parent it declares exactly if no live parent was cached, or the cached one is the declared one |
| GroupConvergence.HealthyPassExists | internal/controller/group_controller.go:266-312 | such a pass exists from every world and for every group |
| GroupConvergence.SecondPassIsQuiet | internal/controller/group_controller.go:266-312 | no call of the pass after it writes to Keycloak, which is the same before each of them |
| GroupLimits.ChangedReferenceIgnored | internal/controller/group_controller.go:327-332 | a concrete group whose reference was changed to another Ready parent: every undisturbed pass without failures leaves it under the old one |
| GroupRecreation.RecreatedAtTheTop | internal/controller/group_controller.go:468-512 | an undisturbed pass over a group that vanished from Keycloak adds exactly one group, without a parent whatever parent was resolved, which is right exactly if none is declared; its identifier is recorded unless the last report was the same |
| GroupLimits.VanishedGroupLosesParent | internal/controller/group_controller.go:485-512 | a concrete group with a live parent that every such pass recreates at the top of the realm |
| GroupRecreation.BlockedForGood | internal/controller/group_controller.go:485-512 | a group whose recorded identifier is dead while its name is taken at the top of the realm stays so through every undisturbed pass, whichever calls fail, and Keycloak stays as it is |
| GroupRecreation.RecreatedThenPlaced | internal/controller/group_controller.go:468-531 | after two undisturbed passes a vanished group is settled under the parent it was resolved to exactly if the first report differed from the last; otherwise it is blocked |
| GroupPlan.PlanConverges | internal/controller/group_controller.go:266-396 | undisturbed passes over all groups, parents first, from any orderly world: every group ends Ready and settled, and its chain of parents in Keycloak is, identifier by identifier, its declared one |
| GroupPlan.PlanExists | internal/controller/group_controller.go:266-312 | from every orderly world such passes can follow each other |
| GroupPlan.OrderExists | internal/controller/group_controller.go:366-372 | an order with parents first exists exactly if every reference leads to a stored group and every chain ends |
| GroupLimits.SkipRefinesWrite | internal/controller/group_controller.go:747-770 | skipping a status write equals doing it, up to the sync time, exactly when the identifiers in memory are empty or already stored |
| GroupLimits.SkipDiscardsRecreatedUuid | internal/controller/group_controller.go:714-770 | a concrete pass that recreates a group, loses its new identifier to the shortcut, and whose successor is refused with a conflict |
| GroupReconciler.Reconciler.ResolveParentGroup | internal/controller/group_controller.go:315-337 | the code of parent resolution performs the steps of the pass on every sequence of worlds |
| GroupReconciler.Reconciler.ResolveAgain | internal/controller/group_controller.go:339-396 | fetching, validating and adopting the parent perform the steps of the pass, and succeed exactly if no call failed, the walk up the chain accepted, the parent object read was Ready, in the realm and tracked, and its group was alive when it was verified; its identifier is then in memory |
| GroupReconciler.Reconciler.ValidateParentGroupHierarchy | internal/controller/group_controller.go:399-450 | the loop ends for all worlds, performs the steps of the walk, and on a stable cluster accepts exactly when `Validate` does |
| GroupReconciler.Reconciler.GetOrCreateGroup | internal/controller/group_controller.go:453-489 | finds the group exactly if one is tracked, the fetch did not fail and it is alive; goes on to create only if none is tracked or the answer was that it is gone; a failing fetch changes nothing and makes no other call |
| GroupReconciler.Reconciler.CreateNewGroup | internal/controller/group_controller.go:492-531 | create, report a conflict as untracked, read the identifier back |
| GroupReconciler.Reconciler.UpdateGroupIfNeeded | internal/controller/group_controller.go:534-565 | without failure, reports a change exactly when a managed field differed |
| GroupReconciler.Reconciler.ApplyStatusUpdate | internal/controller/group_controller.go:747-763 | the field by field update is the merge of the stored and the in-memory status |
| GroupReconciler.Reconciler.PerformStatusUpdate | internal/controller/group_controller.go:714-744 | one attempt: read, skip or merge and write, with conflict kept apart from failure |
| GroupReconciler.Reconciler.UpdateStatus | internal/controller/group_controller.go:689-711 | the retry loop ends after at most three attempts, performs the steps of the status phase, and returns an error exactly when the first attempt without a conflict failed or all three met one |
| GroupReconciler.Reconciler.ReconcileGroup | internal/controller/group_controller.go:266-312 | on every sequence of worlds the code performs one whole pass and ends |
| ClientRoles.LastSpecWins | internal/controller/client/roles.go:33-39 | of several role specs with one name the last one counts |
| ClientRoles.RoleMapExact | internal/controller/client/roles.go:24-30 | with unique names the role map holds exactly the listed roles under their names |
| ClientRoles.DeleteLowers | internal/controller/client/roles.go:53-70 | deleting an undesired role lowers the mismatch by exactly one if it succeeds, and leaves it otherwise |
| ClientRoles.UpdateLowers | internal/controller/client/roles.go:90-113 | so does correcting a description |
| ClientRoles.CreateLowers | internal/controller/client/roles.go:116-138 | so does creating a missing role |
| ClientRolesResults.PassConserves | internal/controller/client/controller.go:201-229 | over a pass, whichever calls fail, successful writes plus remaining mismatch stay the same |
| ClientRolesResults.WriteBudget | internal/controller/client/roles.go:53-138 | any sequence of partially failing passes makes at most the initial mismatch in successful writes, and exactly that many when it ends with mismatch zero |
| ClientRolesResults.SuccessMeansNoMismatch | internal/controller/client/controller.go:201-229 | a pass returns no error only with mismatch zero |
| ClientRolesResults.PassExact | internal/controller/client/controller.go:201-229 | after success Keycloak has exactly the desired roles, RoleUUIDs is exactly the live name-to-id map, survivors keep all but the description, and created roles are plain client roles of this realm and client, field by field |
| ClientRolesResults.CreatedAreNew | internal/controller/client/roles.go:116-138 | if Keycloak issues no identifier twice, a role created by a successful pass is tracked under one never seen before |
| ClientRolesResults.OrderIrrelevant | internal/controller/client/roles.go:42-87 | two successful passes in any iteration orders end with the same roles up to fresh identifiers |
| ClientRolesResults.SecondPassIsQuiet | internal/controller/client/roles.go:53-87 | after a successful pass another one issues no create, update or delete, in any order |
| ClientRolesResults.TrackingIrrelevant | internal/controller/client/roles.go:53-138 | passes that differ in RoleUUIDs only issue the same calls with the same outcome |
| ClientRolesResults.TrackingAfterAnyPass | internal/controller/client/controller.go:201-229 | however a pass ends: if the roles could not be listed, tracking is as before; otherwise only desired names are tracked, none of those tracked before is lost, and no identifier comes from nowhere |
| RoleReconciler.BuildRoleMap | internal/controller/client/roles.go:24-30 | the loop computes the role map |
| RoleReconciler.BuildDesiredRoleMap | internal/controller/client/roles.go:33-39 | the loop computes the desired map, later entries winning |
| RoleReconciler.Reconciler.CleanupTrackedRoles | internal/controller/client/roles.go:42-50 | exactly the tracked names that are still desired remain, in any iteration order |
| RoleReconciler.Reconciler.DeleteUnwantedRoles | internal/controller/client/roles.go:53-70 | deletes the undesired roles in listing order, takes a 404 for success and stops at the first other failure |
| RoleReconciler.Reconciler.UpdateRoleIfNeeded | internal/controller/client/roles.go:90-113 | success means exactly that the stored role has the desired description; its id, name, composite flag and attributes and all other roles stay, and writes plus mismatch are conserved |
| RoleReconciler.Reconciler.CreateRole | internal/controller/client/roles.go:116-138 | success adds one plain client role, every field of it stated, under an unused identifier, which is then tracked; failure changes neither roles nor tracking; writes plus mismatch are conserved |
| RoleReconciler.Reconciler.CreateOrUpdateRoles | internal/controller/client/roles.go:73-87 | the loop over the desired map is the phase the results are about, in any order |
| RoleReconciler.Reconciler.ReconcileClientRoles | internal/controller/client/controller.go:201-229 | the whole role pass, call by call |
| ClientRoles.DeleteTrackedExact | internal/controller/client/roles.go:141-155 | deleting the tracked roles makes one call for each and leaves a role exactly if it is not tracked or every call for it failed |
| RoleReconciler.Reconciler.DeleteClientRoles | internal/controller/client/roles.go:141-155 | the loop over the tracked roles is that deletion, in any order |
| ClientFields.DiffsExact | internal/controller/client/utils.go:125-190 | the reported differences are exactly the managed fields that differ, for all 26 |
| ClientFields.NoDiffsMeansMatch | internal/controller/client/utils.go:125-174 | no difference is reported exactly when the managed fields equal the spec, nil and empty equated for lists and rootUrl |
| ClientFields.BuildAndApplyMatch | internal/controller/client/utils.go:50-122 | a built client and an updated client have no difference; applying is idempotent, keeps every unmanaged field and depends on nothing else of the old client |
| ClientFields.GetClientDiffs | internal/controller/client/utils.go:125-174 | the loop over the field table and the list comparisons compute the differences, in order |
| ClientFields.ApplyChangesToClient | internal/controller/client/utils.go:88-122 | the assignments, one field at a time, compute the updated client |
| ClientFields.ClientStore.UpdateClientIfNeeded | internal/controller/client/keycloak_ops.go:85-102 | returns whether an update was written; afterwards the client matches exactly if it did before or the update went through |
| ClientFields.SwallowedFailure | internal/controller/client/keycloak_ops.go:95-98 | for every spec there is a client and a failing update after which "unchanged" is reported and the client does not match |
| ClientStatus.SkipRefinesWrite | internal/controller/client/status.go:56-107 | skipping equals merging and writing, up to sync time and nil versus empty roles, exactly when ClientUUID and RoleUUIDs in memory are each empty or equal to the stored ones |
| ClientStatus.MergeKeeps | internal/controller/client/status.go:89-107 | a merge never loses an identifier or the role map, leaves the secret status as stored, and repeats without effect |
| ClientSecret.UserEntriesWin | internal/controller/client/secret.go:183-213 | labels and annotations are the defaults overridden by the user's, and nothing else |
| ClientSecret.InSyncHoldsData | internal/controller/client/secret.go:124-133 | an up-to-date secret holds every desired non-empty value |
| ClientSecret.InSyncPublishes | internal/controller/client/secret.go:62-88 | a secret that is up to date tells, key by key and under the right name, everything it is for |
| ClientSecret.SyncedIsStable | internal/controller/client/secret.go:47-167 | after synchronisation the secret is up to date, and synchronising again changes nothing |
| ClientSecret.CopyEntries | internal/controller/client/secret.go:193-210 | copying entries in any order is overriding |
| ClientSecret.SecretStore.NeedsUpdate | internal/controller/client/secret.go:110-145 | an update is needed exactly when a data key (a missing one read as empty), the labels or the annotations differ, in any iteration order |
| ClientSecret.SecretStore.CreateOrUpdateClientSecret | internal/controller/client/secret.go:47-167 | when it succeeds, what it writes and how often, whatever the orders of iteration; after success the secret, under the name and namespace wanted, tells key by key the client id, realm, credential and the three URLs, and carries exactly the operator's and the user's labels and annotations |
| ClientSecret.SecretStore.ReconcileClientSecret | internal/controller/client/controller.go:246-283 | exactly when it succeeds and what is then stored: a public client's secret is gone, an opted-out one is left alone, a confidential client, tracked and reported with a credential, has its secret published; a failure changes nothing |
| ClientSecret.SecretStore.DeleteClientSecret | internal/controller/client/secret.go:215-234 | success means exactly the secret named by the status is gone; without such a status nothing is done |
| ClientSecret.SecretStore.ReconcileTwice | internal/controller/client/secret.go:110-164 | an immediate second call writes nothing, whatever order it walks its maps in |
| ClientPass.UnusableConfigIsInert | internal/controller/client/controller.go:70-102 | a pass that starts without a usable instance config writes nothing but statuses, whatever follows, and not even those unless its object is being deleted |
| ClientPass.SaysNotReadyMeans | internal/controller/client/controller.go:69-78 | an error counts as "not ready" exactly if its text contains the phrase anywhere |
| ClientOutcomes.GetsToClientExactly | internal/controller/client/controller.go:88-129 | a pass gets to its client exactly if its object is not being deleted, the config referred to was ready, the finalizer was stored, the Realm object referred to was found and ready, and the owner reference was right or could be recorded |
| ClientOutcomes.CreatesExactly | internal/controller/client/keycloak_ops.go:18-50 | a pass creates a client exactly if it got there and then either tracked nothing or was told, without a failure, that what it tracked is gone |
| ClientOutcomes.FailedFetchIsReported | internal/controller/client/keycloak_ops.go:24-32 | a fetch that fails forgets nothing, creates nothing, and is reported as not Ready |
| ClientOutcomes.RolesOnward | internal/controller/client/controller.go:147-198 | from the role pass on: Ready exactly if the role pass, the fetch after it and the secret all succeed and the client is alive; any failure gives not Ready with RealmReady |
| ClientOutcomes.ReadyExactly | internal/controller/client/controller.go:58-198 | for every sequence of worlds and failures, a pass reports RealmReady exactly if its Realm object was found ready, and Ready exactly if it got to its client, found or made it, and dealt with roles, state and secret without a failure; the identifiers reported are the ones found |
| ClientOutcomes.RemovesExactly | internal/controller/client/keycloak_ops.go:111-149 | a pass comes to remove the finalizer exactly if nothing was tracked, the Realm object was missing, or the deleting call did not fail |
| ClientOutcomes.StatusLoopExact | internal/controller/client/status.go:20-86 | after a first or second conflict the next call reads the object again; the first attempt without a conflict decides; three conflicts are a failure |
| ClientOutcomes.ClientWritesExact | internal/controller/client/keycloak_ops.go:53-149 | the only writes to Keycloak's clients create one as declared, make the one found match and keep the rest of it, or delete the tracked one |
| ClientOutcomes.ClusterWritesExact | internal/controller/client/k8s.go:81-102 | the only writes to the cluster are those of finalizer, owner reference and status of the pass's own object, under the version that was read |
| ClientRunOutcomes.PassFollowsTape | internal/controller/client/controller.go:58-129 | every pass in every run is its beginning and its own calls on the worlds they met |
| ClientRunOutcomes.NoCreateOverLiveClient | internal/controller/client/keycloak_ops.go:18-50 | in no run is a client created by a pass whose fetch failed, or found the tracked client alive |
| ClientRunOutcomes.ReadyInRuns | internal/controller/client/controller.go:132-198 | in every run, a report of Ready rests on a client found or made, with roles, state and secret dealt with |
| ClientRuns.StepKeeps | internal/controller/client/controller.go:58-243 | every API call of a pass keeps the run invariant and touches no other object |
| ClientRuns.RunInvariant | internal/controller/client/status.go:20-107 | in every state of every run: stored Ready has a stored ClientUUID, identifiers are ones Keycloak issued, the finalizer is stored while a pass relies on it, and the status loop makes at most three attempts and one write, the merge over the version it replaces |
| ClientSafety.CreationIsProtected | internal/controller/client/controller.go:109-128 | whenever a pass adds a client to Keycloak, its object's finalizer is stored, and the client is the one built from the spec |
| ClientSafety.RemovalIsSafe | internal/controller/client/controller.go:232-243 | every removal of the finalizer hits an object marked for deletion that tracks nothing, or whose tracked client is not in its realm any more, or whose Realm object was absent in this very pass |
| ClientSafety.TrackedClientIsCleanedUp | internal/controller/client/keycloak_ops.go:111-149 | an object that tracked a client under the finalizer and is gone had its finalizer removed safely while it tracked a client, not necessarily the same one |
| ClientIdentity.StepHolds | internal/controller/client/keycloak_ops.go:36-82 | every call of a pass keeps this: the identifier stored for its object is empty, the one it holds, or dead in its realm |
| ClientIdentity.TrackedClientIsGone | internal/controller/client/keycloak_ops.go:111-149 | the very client tracked at some state is gone from its realm when the object is, if the object, and a pass under way at that state, referred to this realm until the finalizer went, or the deleting pass saw no Realm object |
| ForgottenClients.MovedClientIsForgotten | internal/controller/client/keycloak_ops.go:18-34 | for any fields, a run with no failing call in which a Ready client object is moved to another realm and deleted, and the client it tracked lives on in the first realm |
| ForgottenClients.UntrackedClientLivesOn | internal/controller/client/keycloak_ops.go:70-75 | for any fields, a run in which a client is created, its identifier cannot be read back, the object is deleted with its finalizer, and the client lives on |
| ClientSafety.UpdateFailureIsSwallowed | internal/controller/client/keycloak_ops.go:85-102 | after the update step the pass goes on the same way, and the client matches exactly if it did before or the call did not fail |
| ClientConvergence.StepOnTrack | internal/controller/client/controller.go:109-198 | every call of an undisturbed pass without failures takes it on towards the declared state |
| ClientConvergence.Converges | internal/controller/client/controller.go:58-198 | such a pass over a Client that is tracked and alive, or untracked with a free clientId, ends within 13 steps (the role pass being one), Ready, with the stored ClientUUID live and every managed field as declared, and does not write to a client that already is so |
| ClientRoleConvergence.DeclaredRolesConverge | internal/controller/client/controller.go:148-198 | if its role pass is a successful one, Keycloak ends up with exactly the declared roles; the recorded RoleUUIDs are the live ones exactly if, for a report that differs from the last one, some role is declared or none was recorded; or, for the same report again, exactly the declared names were recorded before, each with the identifier of the role of that name |
| ClientRoleConvergence.StaleRoleTracking | internal/controller/client/validation.go:98-102 | whenever the records are out of date (names added or removed, or a declared role deleted or recreated in Keycloak) and the report stays the same, they stay as they were and differ from the live roles |
| StaleRoles.VanishedRoleStaysRecorded | internal/controller/client/roles.go:72-113 | a concrete Ready client whose recorded role is gone, whatever roles it has besides, under the same name or not: every undisturbed pass without failures leaves one role as declared, and the dead identifier recorded |
| ClientRoleConvergence.HealthyPassExists | internal/controller/client/controller.go:58-229 | from every world with orderly roles there is such a pass, role pass included |
| ClientConvergence.HealthyPassExists | internal/controller/client/controller.go:58-198 | such a pass exists from every world and for every Client |
| ClientReconciler.Reconciler.EnsureFinalizer | internal/controller/client/validation.go:66-72 | stores the finalizer if it is missing, and stops the pass if that fails |
| ClientReconciler.Reconciler.ValidateRealm | internal/controller/client/validation.go:26-53 | goes on exactly if the Realm object was found and ready at that call; otherwise one of three reasons, each with its own status |
| ClientReconciler.Reconciler.SetOwnerReference | internal/controller/client/k8s.go:81-102 | records the realm's UID under its name unless that is recorded already or would cross namespaces |
| ClientReconciler.Reconciler.ClearClientState | internal/controller/client/utils.go:44-47 | the client and its roles are forgotten in memory only: no later merge of this status changes what is recorded |
| ClientReconciler.Reconciler.GetOrCreateClient | internal/controller/client/keycloak_ops.go:18-50 | finds the client exactly if one is tracked, the fetch did not fail and it is alive; goes on to create only if none is tracked or the answer was that it is gone; a failing fetch changes nothing and makes no other call |
| ClientReconciler.Reconciler.CreateNewClient | internal/controller/client/keycloak_ops.go:53-82 | create, report a conflict as untracked, read the identifier back |
| ClientReconciler.Reconciler.UpdateClientIfNeeded | internal/controller/client/keycloak_ops.go:85-102 | the code of the update performs the update step |
| ClientReconciler.Reconciler.ReconcileClient | internal/controller/client/controller.go:132-198 | reports Ready exactly if the client was found, or was absent and could be made, and the role pass, the fetch after it and the secret all succeeded on a client still alive; performs the steps of the pass, the role pass and the secret being one step each |
| ClientReconciler.Reconciler.DeleteClientFromKeycloak | internal/controller/client/keycloak_ops.go:111-149 | skips Keycloak for untracked clients and absent realms, deletes roles (as one step) and the client otherwise, takes a 404 for success |
| ClientReconciler.Reconciler.ReconcileDelete | internal/controller/client/controller.go:232-243 | removes the finalizer exactly if Keycloak was dealt with and the write is accepted |
| ClientReconciler.Reconciler.ApplyStatusUpdate | internal/controller/client/status.go:89-107 | the field by field update is the merge of the stored and the in-memory status |
| ClientReconciler.Reconciler.PerformStatusUpdate | internal/controller/client/status.go:56-86 | one attempt: read, skip or merge and write, with conflict kept apart from failure |
| ClientReconciler.Reconciler.UpdateStatus | internal/controller/client/status.go:20-53 | the retry loop ends after at most three attempts, performs the steps of the status phase, and returns an error exactly when the first attempt without a conflict failed or all three met one |
| ClientReconciler.Reconciler.Reconcile | internal/controller/client/controller.go:58-129 | on every sequence of worlds the code performs one whole pass and ends |
| ClientKeys.DecimalInjective | internal/keycloak/clientmanager.go:31-37 | printing a generation in decimal loses nothing |
| ClientKeys.KeyInjective | internal/keycloak/clientmanager.go:31-37 | for admitted configs the key determines namespace, name, URL and generation |
| ClientKeys.PrefixExact | internal/keycloak/clientmanager.go:40-42 | the prefix of c matches the key of d exactly when the namespaces agree and d has c's name or a name beginning with it and a dash |
| ClientKeys.PrefixReachesSibling | internal/keycloak/clientmanager.go:40-42 | so config a evicts the connection of config a-b, and not the other way round |
| ClientKeys.NegativeGenerationCollides | internal/keycloak/clientmanager.go:31-37 | two different configs with one key, if generations could be negative |
| ClientManager.OperationsKeepSound | internal/keycloak/clientmanager.go:44-120 | both operations keep one entry for each namespace and name, created from a config with exactly its key, evict exactly the configs `PrefixExact` describes, keep every other connection, and add the new one exactly if it was made |
| ClientManager.Manager.GetOrCreateClient | internal/keycloak/clientmanager.go:44-103 | a hit changes nothing; a miss evicts by prefix in any iteration order and adds the new connection exactly if it could be created |
| ClientManager.Manager.RemoveClient | internal/keycloak/clientmanager.go:105-120 | removes exactly the entries the prefix matches, in any iteration order |
| ClientManager.AdvanceKeepsInvariant | internal/keycloak/clientmanager.go:61-102 | every lock step of every caller keeps the invariant of locks, cache and callers |
| ClientManager.TraceInvariant | internal/keycloak/clientmanager.go:61-102 | in every interleaving: one writer without readers, at most one entry for each namespace and name, every caller gets a connection of its own config |
| ClientManager.NoDuplicateCreation | internal/keycloak/clientmanager.go:72-96 | a connection is only ever created while no entry for its key, or for its namespace and name, is present |
| ClientManager.CriticalSectionsAtomic | internal/keycloak/clientmanager.go:69-102 | when the write lock is released the cache is what the whole operation makes of the cache found when it was taken, and the caller has the connection found then or the one just created |

## Left out

Assumptions about the world:

- Keycloak: one server, which keeps the managed fields it is sent (a group's parent included), never issues an
  identifier twice and never moves a client or group to another realm. A failing call has had no effect.
- Kubernetes: reads see the current store, not an older cached copy; an object with a finalizer is not removed; the work
  queue gives an object to one pass at a time (needed by `ClientRuns` only). Other parties do not remove the client
  finalizer and do not write the operator's own status fields. They may do anything else to groups, clients and roles
  in Keycloak, renaming groups included.
- `GroupForest.Forest`, `GroupConvergence`, `GroupRecreation`, `GroupPlan`, `ClientConvergence`, `ClientRoleConvergence`
  and `StaleRoles` assume in addition what their contracts say: declarations stay put, names are unique and groups are
  not renamed; passes that run alone and meet no failure. In `GroupPlan` and for two passes over a vanished group the
  recorded identifiers are ones Keycloak has issued, which holds in every run (`GroupForest.HonestRun`).
  `ClientIdentity.TrackedClientIsGone` assumes that the realm reference stays put.
- Error texts are arbitrary strings or distinct constants, because the status shortcut compares messages.
- Termination of the walk over worlds that change under it assumes that all of them draw their visit keys from one
  finite set; on an unchanged cluster nothing is assumed.

Parts of the operator that are not modelled:

- Group: the steps before reconcileGroup (instance config, finalizer, realm, owner reference) appear as a status that
  is reported early, and the removal of groups and of their finalizers as something others do. The code has the same
  shape as the client's, which is modelled; group deletion differs in not looking at the finalizer first.
- ClientReconciler.Reconciler.ReconcileClient: the role pass is one step that leaves any roles of the client and any
  tracking behind (`ClientRoleConvergence` puts the pass of `ClientRoles` there), and the secret is one step that fails or
  not; their loops and calls are in `RoleReconciler` and `ClientSecret`, and others do not interleave with them.
- ClientReconciler.Reconciler.DeleteClientFromKeycloak: deleting the tracked roles is one step that leaves any roles of
  the client behind; its loop is `RoleReconciler.Reconciler.DeleteClientRoles`.
- ClientConvergence.Converges: says nothing about roles and secret; `ClientRoleConvergence` and `ClientSecret` do.
- ClientStatus: the in-memory secret status, which a merge never stores (`ClientStatus.MergeKeeps`), is not kept in a pass.
- ClientSecret.SecretStore.CreateOrUpdateClientSecret: setting the controller reference is a call that may fail; why the
  library refuses (an owner in another namespace, say) is not modelled.
- ClientManager: the branches for a nil config and a nil manager; the parts of a config outside its key (credentials and
  TLS settings reach a connection only through the generation).
- Realm, RealmRole and KeycloakInstanceConfig controllers: simpler copies of the same pattern, or I/O.
- HTTP, TLS, login, logging, sleeps, requeue intervals, diff-message formatting, manager setup and generated code.
- Repair of a group's parent after a manual move in Keycloak, a known issue in TODO.md:11.

Where the code and its documentation disagree, the model follows the code: the walk's visit key
(internal/controller/group_controller.go:410) is not the key of the group it fetches; a Ready client need not match its
spec (internal/controller/client/keycloak_ops.go:95-98); clearing a parent identifier
(internal/controller/group_controller.go:318-325) never reaches the stored status (`GroupRuns.UuidsNeverReset`); the eviction prefix reaches beyond "this config"
(internal/keycloak/clientmanager.go:39-42).
