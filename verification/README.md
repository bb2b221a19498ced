# Shared PostgreSQL instances and the tenant lifecycle, verified

The operator gives every tenant a database. Unless the tenant asks for an instance of its own, it
shares a PostgreSQL StatefulSet with others: the StatefulSet carries a comma-joined list of tenant
UIDs in an annotation and the length of that list in a label. A first-fit search reads the label, a
version-checked retry loop appends to the list, a filter takes a tenant out again, and taking out the
last one deletes the instance. `Reconcile` decides when any of this runs. The benchmark runner places
tenants on instances by a protocol of its own. This project models both and proves what they keep.

`dafny verify dfyconfig.toml` checks everything.

## How it is organised

**The texts.** `GoStrings` has Split, Join, Atoi and Itoa; `Registry` the stored list and the three
loops over it (search, append, filter), each loop proved equal to a function on values; `Naming` the
names derived from one six-letter id.

**The step system** (`Lifecycle`). API server, users, the StatefulSet controller, pod events and k
reconcile workers interleave freely; every API call is one step, any call may fail, with or without
its effect, and a failed reconcile is taken up again or not. Its hypotheses are the fields of
`Lifecycle.Cfg`, and each theorem names the ones it needs:

| field | meaning |
|---|---|
| `workers` | the number k of workers; the manager is set up with one |
| `stale` | Gets and Lists of tenants and instances may return any earlier stored version, and those of namespaces, secrets and jobs anything at all |
| `freshIds` | a generated id never names a live instance |
| `pinned` | the database kind is left alone once provisioning has started |
| `distinct` | UIDs differ in their first eight characters |

Always assumed: UIDs are unique, comma-free and at least eight characters long, one request is never
served by two workers at once, and nobody but the operator edits annotations, labels, status and
finalizer.

| module | theorem over all runs |
|---|---|
| `History` | status history is monotone; the count label is exact; the search is first fit |
| `AtMostOne` | a tenant is in at most one list, with any workers, failures and stale reads |
| `NoOrphan` | a registration has a living owner; a deleted tenant leaves none behind |
| `Capacity` | a list never exceeds 9 + k tenants |
| `SingleWorker` | with one worker, stale reads included, no occupied instance is deleted and no Assigned tenant is homeless |
| `Credentials`, `InitJobs` | secret, init job and list agree on the instance |
| `Density` | without failures and removals n tenants occupy ⌈n/10⌉ instances |
| `Abandoned` | a failure between the two database status updates is final |
| `ReadyMarks` | a tenant is marked Ready only by a worker that just saw its pod ready |
| `Retries` | a registration is given up exactly at its fourth conflict in a row, each of which met a foreign write |
| `Tightness` | the bound 9 + k is reached, for every k |
| `Overflow` | without coherent reads, or without fresh ids, lists of any length are reached |
| `Witness` | runs that break the other results when a hypothesis is dropped |

**The code itself, call by call.** `ApiServer` is a mutable server object: a store of objects, and a
script of what happens around the next calls (failures, lost replies, writes of others). Against it
`SharedInstances`, `Provisioning`, `TenantResources`, `Reconciler` and `PodEvents` carry out the
operator's functions with their loops and early returns; their contracts say what the store is
afterwards, under failures too. They use the same list, search and naming functions as the step
system; `Refinement` and `RemovalRefinement` show that a successful provisioning and a successful
removal are sequences of its steps.

**The benchmark runner.** `Runner` is a second step system: goroutines, a semaphore, and a list taken
from an old snapshot that is written onto a freshly fetched object. `RunnerSafety` shows that no
write is lost as long as the semaphore is respected, and how one is lost without it;
`RunnerProgress` that every run without failed calls can be completed, how, and with what result,
also while others write the objects.

## Results that are not what one might expect

- Capacity: the add step never checks the capacity again, so k workers can bring an instance to
  exactly 9 + k tenants. The declared maximum of ten is kept because there is one worker.
- A tenant whose reconcile fails after the move to Provisioning was stored is never Assigned.
- With two workers an instance can be deleted under a tenant that was just Assigned to it, and a
  registered tenant can lose its init job.
- Two tenants whose UIDs share eight characters share one init job: the second tenant gets none of its own.
- With stale reads, or when the database kind is edited after provisioning, deletion leaves the UID
  in the list. An edit the other way leaves an Assigned shared tenant in no list.
- A failed List counts as a full house, and so a colliding id can put tenants on a full instance.
- The CPU request is computed in thousandths and stored as whole units: it stays within a positive
  limit only for a limit of one thousandth of a CPU.
- A resource quota stored without limits crashes the reconcile that wants to add one.
- Without the semaphore the runner loses updates although every write is version-checked.

## Model

| member | source | states |
|---|---|---|
| `GoStrings.SplitJoin` | internal/controller/utils_postgres.go:497-513 | splitting a joined list of comma-free parts gives the list back |
| `GoStrings.JoinSplit` | internal/controller/utils_postgres.go:721-736 | joining a split annotation gives the annotation back, for every string, and all parts are comma-free |
| `GoStrings.AtoiItoa` | internal/controller/utils_postgres.go:517 | a count written to the label is read back unchanged by the search |
| `GoStrings.AtoiExact` | internal/controller/utils_postgres.go:456-460 | a text is read as the integer v exactly when it is an optional sign and at least one digit, its value place by place is v, and v fits in 64 bits; everything else is an error |
| `GoStrings.ItoaCanonical` | internal/controller/utils_postgres.go:517 | a count is written without leading zeros |
| `Registry.AddTenant` | internal/controller/utils_postgres.go:485-517 | appending keeps list and label an exact cache, adds the tenant at the end once and leaves a listed tenant alone |
| `Registry.AddTenantLists` | internal/controller/utils_postgres.go:495-513 | whatever the annotation was before, the parsed list afterwards is the old one with the tenant appended if absent; the annotation gets a comma and the UID appended, the label is the numeral of the new length |
| `Registry.RemoveTenant` | internal/controller/utils_postgres.go:721-740 | filtering keeps list and label an exact cache and the order of the rest |
| `Registry.WithoutKeepsDistinct` | internal/controller/utils_postgres.go:726-732 | the filter keeps a list duplicate-free and shortens it by exactly one when the tenant was in it |
| `Registry.WithoutInOrder` | internal/controller/utils_postgres.go:726-732 | of any two tenants that stay, the one that was first stays first |
| `Registry.AddRemoveRoundTrip` | internal/controller/utils_postgres.go:490-517 | adding an absent tenant and removing it restores list, count and stored annotation; adding twice is adding once |
| `Registry.FirstFitIsFirstFit` | internal/controller/utils_postgres.go:450-469 | on exact caches the label-driven search returns the first instance whose list is shorter than ten, and fails exactly when all are full |
| `Registry.FirstFitVacant` | internal/controller/utils_postgres.go:449-469 | on any listing the search returns the first instance whose label is absent or a numeral below ten, so that a malformed label is never found; none exactly when there is no such instance |
| `Registry.FindAvailable` | internal/controller/utils_postgres.go:449-469 | the search loop finds the first instance whose label is absent or a numeral below ten, and computes the search function |
| `Registry.Register` | internal/controller/utils_postgres.go:485-517 | the retry closure between Get and Update: reports a listed tenant, otherwise prepares the extended object |
| `Registry.Deregister` | internal/controller/utils_postgres.go:710-740 | the two loops of a removal find the first instance listing the tenant and prepare it with the tenant filtered out |
| `Naming.GenerateId` | internal/controller/utils.go:260-274 | the buffer rewritten in place becomes lower-case letters, each the byte modulo 26 |
| `Naming.NamesCohere` | internal/controller/utils_postgres.go:244-245 | for every generated id: StatefulSet, service, master secret, the id cleanup extracts and the label taken from the host all come back to that id |
| `Naming.SsNameCoheres` | internal/controller/utils_postgres.go:84 | what the reuse, removal and cleanup paths derive from an existing name is what creation used |
| `Naming.HostParts` | internal/controller/utils_postgres.go:155 | the host of instance x is x, shared-services, svc, cluster and local, joined by dots |
| `Naming.NamesInjective` | internal/controller/utils_postgres.go:204-245 | two ids never share a StatefulSet or master secret name |
| `Naming.ClaimsByName` | internal/controller/utils_postgres.go:547-560 | exactly the claims that are a template, a hyphen, the set name, a hyphen and an integer text, in listing order, each at most as often as listed |
| `Naming.ClaimsDisjoint` | internal/controller/utils_postgres.go:549-555 | no claim belongs to two instances |
| `History.StatusMonotone` | internal/controller/tenantenvironment_controller.go:129-177 | over every run and all stored versions of a tenant: Assigned stays Assigned and Provisioning stays or becomes Assigned, createdAt and readyAt are written once, createdAt precedes the finalizer, Ready exactly with readyAt |
| `History.CountIsExact` | internal/controller/utils_postgres.go:490-520 | in every version ever stored the list has no duplicates and the label is its length |
| `History.SearchIsFirstFit` | internal/controller/utils_postgres.go:450-469 | in every run, over any listing, stale ones included, the search is first fit on true lengths and fails exactly when all are full |
| `AtMostOne.AtMostOneInstance` | internal/controller/utils_postgres.go:60-95 | in every run, under no hypotheses, a tenant is in at most one list and at most once in it |
| `AtMostOne.EnteredOnce` | internal/controller/tenantenvironment_controller.go:161-168 | the move to Provisioning, and so the provisioning after it, happens at most once per tenant in any run |
| `Abandoned.FailureIsFinal` | internal/controller/tenantenvironment_controller.go:161-177 | when the worker provisioning a tenant drops it before Assigned is stored, the tenant is never Assigned, however the run goes on |
| `Abandoned.AlwaysSole` | internal/controller/tenantenvironment_controller.go:161-177 | in every run at most one worker is provisioning a given tenant |
| `ReadyMarks.MarkedAfterReady` | internal/controller/tenantenvironment_controller.go:207-261 | in every run readyAt and the phase Ready are stored only by a worker whose last step read the tenant and found its pod ready; the stored tenant is still the one it read, was not ready before, and nothing else about it changes |
| `Retries.FourthConflictIsFinal` | internal/controller/utils_postgres.go:478-521 | in every run a conflict ends the provisioning exactly when it is the fourth in a row; after the first three the worker goes back to the Get of the same registration |
| `Retries.ConflictMeetsWrite` | internal/controller/utils_postgres.go:479-520 | with coherent reads a conflict means that somebody wrote or deleted the instance between the Get and the Update of that try |
| `NoOrphan.RegistrationHasOwner` | internal/controller/tenantenvironment_controller.go:98-143 | with coherent reads and a fixed database kind, every listed UID has its tenant object with the finalizer, for any k and any failures |
| `NoOrphan.GoneLeavesNothing` | internal/controller/tenantenvironment_controller.go:98-124 | once the tenant object is gone, its UID is in no list and its namespace is absent or terminating |
| `NoOrphan.FirstMatchSuffices` | internal/controller/utils_postgres.go:710-752 | an accepted removal leaves the tenant in no list, under no hypotheses, so that returning after the first match is right |
| `Capacity.CapacityBound` | internal/controller/utils_postgres.go:435-521 | list length plus workers that chose the instance and have not added yet is at most 9 + k |
| `Capacity.SingleWorkerCapacity` | internal/controller/tenantenvironment_controller.go:310-314 | with the configured single worker no list exceeds the declared ten |
| `Tightness.CapacityIsTight` | internal/controller/utils_postgres.go:473-521 | for every k some run reaches a list of exactly 9 + k tenants |
| `SingleWorker.NoDeleteWhileOccupied` | internal/controller/utils_postgres.go:734-753 | with one worker and no other hypothesis, whenever the delete of an instance can be issued its list is empty |
| `SingleWorker.AssignedInExactlyOne` | internal/controller/tenantenvironment_controller.go:161-177 | with one worker and a fixed database kind, stale reads included, every Assigned shared tenant not marked for deletion is in exactly one existing list |
| `SingleWorker.AlwaysUnstored` | internal/controller/utils_postgres.go:478-520 | for any number of workers and under no hypotheses, a tenant being provisioned is in no list ever stored, so that the registration never takes an outdated list for its own |
| `Credentials.SecretNamesInstance` | internal/controller/utils_postgres.go:137-196 | for any k, DB_HOST of every listed tenant splits at its dots into the name of the instance that lists it, shared-services, svc, cluster and local |
| `InitJobs.CredentialsAgree` | internal/controller/utils_postgres.go:866-935 | with one worker and distinct prefixes, secret, ss-name label and mounted master secret of a listed tenant all name the instance that lists it, on the reuse and on the new-instance path; the job is db-init- and the first eight characters of the UID, the master secret carries the last six of the instance |
| `Density.DensePacking` | internal/controller/utils_postgres.go:70-93 | without failures and removals, between provisionings, the n started tenants occupy exactly ⌈n/10⌉ instances and at most one is not full |
| `Witness.StaleReadsOrphan` | internal/controller/utils_postgres.go:700-710 | with stale reads there is a run in which the tenant is gone and still listed |
| `Witness.EditedKindOrphans` | internal/controller/utils_postgres.go:1078-1087 | when the database kind may be edited after provisioning there is a run in which the tenant is gone and still listed |
| `Witness.EditedKindHomeless` | internal/controller/utils_postgres.go:61-68 | when it may be edited the other way there is a run in which an Assigned shared tenant is in no list |
| `Overflow.NoBound` | internal/controller/utils_postgres.go:445-469 | with stale reads, or with ids that may collide, for any number of workers and any tenants some run lists all of them in one instance |
| `Witness.TwoWorkersDeleteOccupied` | internal/controller/utils_postgres.go:749-753 | with two workers there is a run that deletes an instance listing an Assigned tenant |
| `Witness.TwoWorkersLoseJob` | internal/controller/utils_postgres.go:658-680 | with two workers there is a run in which a listed tenant's init job is deleted |
| `Witness.SharedPrefixSharesJob` | internal/controller/utils_postgres.go:867-881 | two listed tenants with equal eight-character prefixes share one init job, that of the first |
| `ApiServer.DisturbedVersions` | internal/controller/utils_postgres.go:519-520 | an object rewritten by others has a version no earlier read returned |
| `SharedInstances.AcceptedUnchanged` | internal/controller/utils_postgres.go:479-520 | if the Update is accepted, the object was not changed since the Get |
| `SharedInstances.TryToAdd` | internal/controller/utils_postgres.go:479-521 | one try: at most the tenant is appended to the list as it then is; a conflict stores nothing and means that somebody rewrote the instance between its two calls; any other error means a failed call or a deleted instance |
| `SharedInstances.AddTenantToSharedInstance` | internal/controller/utils_postgres.go:473-529 | under any failures and any writes of others between the calls the store is what the others made it, or that with the tenant appended to the list as it then was; success means the tenant is listed; a conflict is final only after four tries and eight calls, each Update having met a foreign write; with no failed call and an instance never deleted, one Update without a foreign write is enough for success |
| `SharedInstances.DeleteClaims` | internal/controller/utils_postgres.go:593-614 | only claims of the instance are deleted, and all of them when no error is counted |
| `SharedInstances.DeleteStored` | internal/controller/utils_postgres.go:592-625 | claims and StatefulSet: a single error leaves only one of the two behind |
| `SharedInstances.DeleteService` | internal/controller/utils_postgres.go:627-641 | at most this service is deleted, and it is gone when no error is counted |
| `SharedInstances.DeleteMaster` | internal/controller/utils_postgres.go:643-657 | at most this master secret is deleted, and it is gone when no error is counted |
| `SharedInstances.DeleteJobs` | internal/controller/utils_postgres.go:658-684 | only jobs with the ss-name label are deleted, and all of them when no error is counted |
| `SharedInstances.CleanupSharedInstance` | internal/controller/utils_postgres.go:566-693 | whatever fails, only objects of this instance are deleted; without an error all are gone; every step is tried, so that after the first Get each failed call leaves at most one kind of objects behind; a malformed name is an error that changes nothing |
| `SharedInstances.OthersSurvive` | internal/controller/utils_postgres.go:566-693 | every object of every other instance survives a cleanup unchanged |
| `SharedInstances.RemoveTenantFromSharedInstance` | internal/controller/utils_postgres.go:696-863 | whatever fails, nothing was stored or one instance that listed the tenant lost it; success without a write means it was listed nowhere; success otherwise means the removal job is there if tenants are left; without failures an emptied instance is completely gone |
| `SharedInstances.AfterRemoval` | internal/controller/utils_postgres.go:748-857 | after the Update: an emptied instance is cleaned up, its error ignored; otherwise success means that a job of the removal name is there, and one for this instance if none was |
| `SharedInstances.RemovalExact` | internal/controller/utils_postgres.go:710-752 | a tenant listed once is listed nowhere afterwards, other instances keep their objects, a surviving list keeps its order |
| `SharedInstances.JobNamesApart` | internal/controller/utils_postgres.go:755-867 | no init job is ever taken for a removal job |
| `SharedInstances.RemovedTakesOff` | internal/controller/utils_postgres.go:696-863 | a finished removal of a once-listed tenant leaves it nowhere; the instance it was alone on has vanished with set, service, master secret, claims and jobs when no call failed; another one keeps the other tenants in order and has the removal job of the tenant |
| `SharedInstances.RemovedTouchesOnly` | internal/controller/utils_postgres.go:696-863 | set, service, master secret, claims and labelled jobs of every instance that did not list the tenant are as they were |
| `Provisioning.FindAvailableSharedInstance` | internal/controller/utils_postgres.go:435-470 | what is found exists and its label is absent or a numeral below ten; without failures nothing is found only when there is no such instance |
| `Provisioning.CreateMasterSecret` | internal/controller/utils_postgres.go:199-240 | at most the master secret of the id is added, and it is there on success |
| `Provisioning.CreateStatefulSet` | internal/controller/utils_postgres.go:243-386 | at most one empty instance, named by the last six characters of the secret, is added; an existing one is left alone |
| `Provisioning.CreateService` | internal/controller/utils_postgres.go:389-432 | at most the service of the instance is added, and it is there on success |
| `Provisioning.CreateTenantSecret` | internal/controller/utils_postgres.go:137-196 | the returned host is the stored one, and a new one is the cluster address of the service, part by part; an existing secret is kept; nothing is made in a namespace that is absent or going |
| `Provisioning.CreateDatabaseInitJob` | internal/controller/utils_postgres.go:866-987 | an existing job of the prefix is kept; a new one carries the first host component and the master secret |
| `Provisioning.CreateCredentials` | internal/controller/utils_postgres.go:79-87 | the secret of a fresh tenant is the cluster address of the chosen instance, its job carries that instance and its master secret, and nothing else changes |
| `Provisioning.CreateSharedInstance` | internal/controller/utils_postgres.go:97-134 | on success a new empty instance with service, master secret and the tenant's credentials; whatever fails, nothing existing is changed |
| `Provisioning.RegisteredProvisions` | internal/controller/utils_postgres.go:70-93 | choice, credentials and registration compose: the tenant is last in the list of an instance that had room or was made for it |
| `Provisioning.CreatePostgreSQLForTenant` | internal/controller/utils_postgres.go:60-95 | whatever fails, it only adds, and only for this tenant; success means the tenant has its place and its credentials lead there; without failures an instance is made only when none has room; a dedicated tenant gets no shared objects and a shared one no dedicated instance, and none is made in a namespace that is absent or going |
| `Refinement.ProvisioningSteps` | internal/controller/utils_postgres.go:60-95 | from any reachable state that agrees with the store, a provisioning that succeeded is a run of provisioning steps of one worker to a state that agrees with the store afterwards |
| `Refinement.ProvisionInSteps` | internal/controller/utils_postgres.go:60-95 | the call-by-call function, whenever it succeeds, refines the step system, and its worker is then about to store Assigned |
| `RemovalRefinement.RemovalSteps` | internal/controller/utils_postgres.go:696-863 | from any reachable state that agrees with the store, a removal that took effect, whatever of its cleanup failed, is a run of deletion steps of one worker to a state that agrees with the store afterwards |
| `RemovalRefinement.RemoveInSteps` | internal/controller/utils_postgres.go:696-863 | the call-by-call removal, whenever it succeeds, under any failures, refines the step system, and its worker is then about to look for the namespace |
| `TenantResources.CreateNamespaceForTenant` | internal/controller/utils.go:50-77 | an existing namespace costs no write; success means it exists |
| `TenantResources.DeleteNamespaceForTenant` | internal/controller/utils.go:80-96 | success means the namespace is absent or terminating |
| `TenantResources.RequestsWithinLimits` | internal/controller/utils.go:111-136 | the CPU request is within a positive limit exactly for a limit of one thousandth; the memory request is always within its limit |
| `TenantResources.DesiredLimits` | internal/controller/utils.go:113-142 | which limits a specification asks for and with which values: the CPU request has as many whole units as there are thousandths in a half or three quarters of a positive limit, the memory request 60 or 75 percent of the whole units the limit fills or starts |
| `TenantResources.Overwrite` | internal/controller/utils.go:170-178 | in any order: desired limits that are missing or stored with another value are overwritten, the rest is kept, the flag tells whether there were any, and a nil map crashes exactly when anything is desired |
| `TenantResources.DropUndesired` | internal/controller/utils.go:180-186 | deleting while ranging, in any order, leaves exactly the desired keys |
| `TenantResources.SyncQuota` | internal/controller/utils.go:170-193 | the result has the desired keys with the desired values, an update is called for exactly when a key was missing, superfluous or had another value, and equal values keep the way they were written |
| `TenantResources.CreateResourceQuotaForTenant` | internal/controller/utils.go:99-196 | success means the stored limits have the desired keys and values; matching limits cost no write; the exact condition of the crash; nothing is made in a namespace that is absent or going |
| `TenantResources.SyncTwice` | internal/controller/utils.go:99-196 | two calls without failures make one write when the limits differed and none otherwise |
| `TenantResources.DeleteResourceQuotaForTenant` | internal/controller/utils.go:199-216 | success means the quota is gone; nothing else changes |
| `TenantResources.CreateTenantServiceDeployment` | internal/controller/utils.go:277-405 | success means replicas and image are as specified, also right after creation with the latest image; a matching deployment costs no write; nothing is made in a namespace that is absent or going |
| `Reconciler.UpdateStatus` | internal/controller/tenantenvironment_controller.go:136-139 | a status update changes this tenant's status and version alone, and the reply is the stored object |
| `Reconciler.AddFinalizer` | internal/controller/tenantenvironment_controller.go:129-143 | createdAt is stored before the finalizer, whether or not the status reply drops the finalizer from the copy in memory; success means createdAt is stored, and the finalizer if createdAt was there before |
| `Reconciler.ProvisionDatabase` | internal/controller/tenantenvironment_controller.go:161-177 | nothing of the database is touched before Provisioning is stored; success means Assigned is stored and the tenant has its database; whatever fails, the status only moved forward |
| `Reconciler.EnsureNamespace` | internal/controller/tenantenvironment_controller.go:145-158 | namespace and quota: success means both are as specified, and then a further call writes nothing |
| `Reconciler.ReconcileMain` | internal/controller/tenantenvironment_controller.go:145-189 | a main branch that reports success has brought everything in line whatever failed before, a tenant not started is then Assigned with its database; on a tenant in line it writes nothing; beside the tenant it only makes the new instance, and without failures only when none has room |
| `Reconciler.DeletePostgreSQLForTenant` | internal/controller/utils_postgres.go:1078-1087 | success for a shared tenant listed at most once: it is listed nowhere; without failures an instance it was alone on has vanished altogether, and otherwise the instance has its removal job; whatever fails, no other instance is touched and no other tenant loses its place; a dedicated one changes nothing |
| `Reconciler.ReconcileDeletion` | internal/controller/tenantenvironment_controller.go:98-124 | whatever fails, the object disappears only when its tenant is taken off its instance as DeletePostgreSQLForTenant promises, its quota is gone and its namespace absent or terminating; nothing of other tenants and no other instance is touched |
| `Reconciler.Reconcile` | internal/controller/tenantenvironment_controller.go:81-190 | no status is ever taken back; success on a wanted tenant means everything is in line; one not started is then Assigned, which is never stored without its database, and one started before is not provisioned again; success on a delete-marked one means that it is gone; gone means taken off its instance with the cleanup or the removal job, quota gone, namespace absent or terminating; nothing of other tenants is touched; without failures the measure decreases or, at zero, nothing at all is written |
| `Reconciler.Settle` | internal/controller/tenantenvironment_controller.go:129-189 | without failures at most three reconciles bring a fresh tenant to Assigned, with its database, namespace, quota and deployment in line |
| `PodEvents.PodEventRoundTrip` | internal/controller/tenantenvironment_controller.go:192-205 | decoding undoes encoding if and only if neither name contains a colon |
| `PodEvents.RequestsTold` | internal/controller/tenantenvironment_controller.go:84-90 | for legal names, a tenant's own request never takes the pod-event branch and a pod's request decodes to that pod and tenant only |
| `PodEvents.PodToTenantEnvironment` | internal/controller/tenantenvironment_controller.go:263-298 | a request is made exactly for a backend pod whose UID label matches a listed tenant, and names that pod and that tenant |
| `PodEvents.PodReady` | internal/controller/tenantenvironment_controller.go:229-235 | the loop with its break finds whether the condition Ready with status True is present |
| `PodEvents.HandlePodEvent` | internal/controller/tenantenvironment_controller.go:192-261 | at most one write, a first readyAt together with phase Ready, only for an existing labelled ready pod of that tenant, and done on success |
| `PodEvents.ReconcileRequest` | internal/controller/tenantenvironment_controller.go:81-95 | pod events have the effect of their handler only, requests of the default namespace all that a reconcile promises, the frame for other tenants included, others none |
| `Runner.ScanFrom` | test/scripted-runner/main.go:368-388 | the next action of the scan: a candidate is open and does not list the tenant; exhaustion means no open item is left |
| `Runner.ScanItems` | test/scripted-runner/main.go:368-393 | the loop body over a snapshot computes that action and the annotations to write: the first item whose count is a numeral below ten, none exactly when there is no such item |
| `RunnerSafety.RunnerSafe` | test/scripted-runner/main.go:358-422 | in every interleaving each list is duplicate-free, one to ten long and equal in length to its count; no tenant is in two lists; who was told an instance is in it |
| `RunnerSafety.NoLostUpdate` | test/scripted-runner/main.go:390-418 | every accepted write stores the list then in the object followed by the joiner, although it was computed from an older snapshot, and touches no other object |
| `RunnerSafety.ListsOnlyGrow` | test/scripted-runner/main.go:390-418 | from any point of a run to any later one every list is only extended |
| `RunnerSafety.UnguardedLosesUpdate` | test/scripted-runner/main.go:41 | without the semaphore there is a run in which a joiner told an instance is not in its list |
| `RunnerProgress.JoinerFindsRoom` | test/scripted-runner/main.go:732-813 | when no call fails, whoever else writes: once all creators are through there are exactly ⌈n/10⌉ instances and an unplaced joiner has one with count below ten |
| `RunnerProgress.StepProgresses` | test/scripted-runner/main.go:362-421 | every step of a goroutine, conflicts included, lowers the measure, or is a look at full instances that changes nothing while a creator is outstanding |
| `RunnerProgress.TouchSetsBack` | test/scripted-runner/main.go:408-412 | a write of somebody else raises the measure by three at most |
| `RunnerProgress.SomeProgress` | test/scripted-runner/main.go:358-421 | no deadlock: while anybody is unplaced some goroutine has a step that lowers the measure, although the polling joiner holds the semaphore and its version may be outdated |
| `RunnerProgress.BoundedTail` | test/scripted-runner/main.go:362-421 | after the creators are through a run makes at most as many steps as the measure, and four more for each write of others |
| `RunnerProgress.CanComplete` | test/scripted-runner/main.go:424-438 | every run without failed calls can be extended to one that places everybody |
| `RunnerProgress.PlacementComplete` | test/scripted-runner/main.go:424-438 | at the end of a run without failed calls, whoever else wrote, there are ⌈n/10⌉ instances, the counts sum to n, and each tenant is in exactly one list |

## Left out

- The Kubernetes client, cache, manager and leader election: only versioned Get, List, Create, Update and Delete with failures are kept; `cmd/main.go` is wiring.
- SQL and shell scripts, pod templates, probes, ConfigMap contents, passwords, logging, metrics, and the quality and failure of the random source.
- Of a tenant's database secret only DB_HOST; its port, database name, user and password.
- `gui/`, `tenant-service/`, `test/operator-runner/`, `test/e2e/`, `test/utils/` and generated code.
- The objects of a dedicated instance: one step of the step system, one object of the call-by-call model; its ConfigMap copy fails like any other call.
- Resource quota, deployment, service, master secret and claim calls in the step system: there they are only places where a reconcile may fail, which the abort step covers; the call-by-call modules have their effects.
- The db-remove job in the step system, for the same reason; it is in `SharedInstances.AfterRemoval`. That the tenant's database is dropped is not claimed: once the list is updated a failed job creation is not redone.
- Writes of other clients during the call-by-call models of cleanup, removal, provisioning and reconciliation: only `SharedInstances.AddTenantToSharedInstance` has them; for the others interleaving is the subject of the step system.
- Fairness: `RunnerProgress` shows that progress is always possible and that only polling and writes of others can postpone it, not that a scheduler lets creators run or that others ever stop writing.
- That the two views are the same machine, beyond provisioning on the shared path and removal that report success (`Refinement`, `RemovalRefinement`): those that fail and the rest of a reconcile are not related step by step; they share their list, search, naming and status functions.
- Integer width of quantities: `TenantResources` computes requests over unbounded integers in thousandths, where the code uses 64-bit arithmetic and finer fractions are rounded up.
- InitJobs.CredentialsAgree: for one worker only, because with two a cleanup can delete the job of a registered tenant (`Witness.TwoWorkersLoseJob`); the secret part holds for any number of workers.
- Reconciler.Settle: for tenants on which no reconcile crashes and whose namespace is not terminating; a quota stored without limits, when limits are wanted, crashes it every time.
- Reconciler.Reconcile: with the id freshness the step system has as a hypothesis, and uninterrupted by other writers.
- The comments of the code say that claims are found by labels (internal/controller/utils_postgres.go:531), that the search also creates (line 434) and that the StatefulSet creator is for dedicated instances (line 242); the model follows the code: claims are matched by name, the search only searches, and the creator serves both kinds.
