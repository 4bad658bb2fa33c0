# Verified model of the workbench operator

The operator keeps, for every `Workbench` object, an Xpra server deployment, a service, storage volumes and
claims, and one batch job per application. This project models its reconcile pass together with the API server
it talks to, and proves what the passes guarantee, one at a time and over whole runs.

## How the model is built

`Api.dfy` is the API server: a cluster of maps keyed by namespace and name, an atomic effect for every kind of
request, and a *script*. Each request first lets the environment act (users, admins, kubelet, other controllers:
spec edits, deletion requests, edits and removals of jobs and deployments, pods, secrets, ...) and then succeeds, is rejected, or
takes effect and loses its reply. So other actors interleave with a pass at every single request, and any request
may fail. An empty script is an *undisturbed* pass: nobody else acts and nothing fails. Every request is logged
with the cluster before and after it; the run-level results are statements about that log.

`Storage.dfy`, `Jobs.dfy`, `Deployments.dfy`, `StatusUpdates.dfy`, `Passwd.dfy` and `Controller.dfy` say what each part
of a pass does to such a world. `Reconciler.dfy` holds the operator's own shape: a reconciler class whose methods
call the API server, loop, append and update the in-memory workbench in place, each proved to do what the
corresponding function says. The range over Go's app map and the order of a listing are nondeterministic there; the
orders taken appear as the `Choice` of the functions.

The results, by file:

- `Safety.dfy`: no orphans, for every workbench at once, in every state of every run.
- `Deletion.dfy`: the order of a deletion, a measure that never grows, and exactly when it comes to an end.
- `Convergence.dfy`, `ClosedForm.dfy`, `FullPass.dfy`: exactly when an undisturbed pass gets through the gate and when
  it ends in a closed form, and that no status change is lost.
- `Orders.dfy`: exactly when the iteration orders do not show in the end of a pass.
- `Rest.dfy`, `Writes.dfy`, `Idempotence.dfy`: exactly when a second pass writes no job, and when passes recover.
- `Witnesses.dfy`: concrete passes in which the code does what one would not expect.
- `Gate.dfy`: application jobs are touched only behind an observed ready server.
- `StorageProofs.dfy`, `Isolation.dfy`, `Provisioning.dfy`: the storage protocol over runs, the independence of the
  providers, and exactly which claims exist afterwards.
- `StatusRuns.dfy`: what the app statuses can be over runs.
- `SweepSafety.dfy`, `Sorting.dfy`: what the sweep never deletes, and the binary search it uses.
- `Selection.dfy`: which pods the gate looks at, and how an undisturbed pass ends.
- `Servers.dfy`: what an undisturbed pass makes of the server's deployment, its service and its recorded status.
- `AppOutcomes.dfy`, `BuiltJobs.dfy`: what becomes of one app's job and entry, by the state it is to have, and what
  its job holds.
- `Volumes.dfy`, `Turns.dfy`: the volume, claim and setup job of each kind of provider, and what a turn makes of each
  answer it gets.
- `StatusTables.dfy`: the recorded statuses of server, pod and apps, case by case.
- `Failures.dfy`, `Versions.dfy`: under any script, which failures end a pass and how, and on which of its own reads
  every write of a pass rests.
- `JobShape.dfy`, `Names.dfy`, `Passwd.dfy`: well-formed jobs, injective names and paths, the passwd scan.

## What the code does that one might not expect

Each point is stated as a lemma:

- The label carries only the workbench's name and listings span all namespaces. A labelled job or deployment in
  another namespace therefore blocks a deletion forever, and nothing else does (`Deletion.DeletionEnds`); and the
  sweep deletes a foreign job of that label unless its name is one an app here keeps (`Rest.ForeignJobs`).
- The storage setup jobs carry the label too, so the application phase of the very pass that created one deletes it
  (`Rest.SetupJobsSwept`).
- Two apps of a workbench can get one job name exactly if one uid followed by a hyphen begins the other and they differ
  in length by less than the 30 characters of an app name (`Names.UidsCollide`); hyphen-free uids and uids of one
  length cannot (`Names.SeparateUids`). Two workbenches of one namespace can get one job name exactly if their own names
  mix like that, whatever their lengths (`Names.WorkbenchesCollide`); with hyphen-free uids, exactly if what follows the
  next hyphen also leaves room in an app name (`Names.HyphenFreeCollide`).
- The order of the app map shows in the end of a pass exactly if two buildable apps share a job name and either
  disagree on running, where the last one met decides, or both have to create the job, where the first one met gives
  it its pod and the next one is marked Failed (`Orders.FollowerFails`). `Orders.OrderIndependence` and
  `Orders.PassOrderIndependence` say so, and `Witnesses.OrderMatters` gives whole passes.
- A setup job that was created before its volume failed to be stays behind and blocks the volume, but the pass reports
  no error (`Witnesses.LeftoverArises`). A second pass then writes a job again (`Witnesses.SecondPassWrites`);
  passes are idempotent exactly if nothing is blocked and apps that share a job agree on it
  (`Idempotence.IdempotentExactly`). The sweep removes the leftover, so that the second pass recovers, exactly if it
  carries the label and is no app's (`Idempotence.RecoversExactly`).
- An app that sets limits but no requests keeps the default requests, so its limits must admit those
  (`Jobs.ResourcesFit`): with a storage limit of half a gibibyte alone its requests exceed its limits
  (`Jobs.SmallStorageLimit`).
- With S3 and local storage both active, both containers of every app get two mounts at one path
  (`JobShape.BuiltJobWellFormed`).
- Job volumes name claims by secret alone, so a claim dangles exactly when a usable secret meets a missing driver
  or a blocked volume and no earlier claim (`Provisioning.NoDanglingClaims`). A leftover setup job blocks a volume.
- If the deployment can neither be read nor created, the gate falls back on the readiness recorded earlier
  (`Gate.GateWithoutDeployment`, `Gate.PassGate`): a pass that lists no pod may delete a job (`Witnesses.StaleGate`).
- The comment on `UpdateStatusFromJob` says the entry is grown when it is new; the code tests the spec, not the status,
  so a new entry of a spec app starts from revision 0, not -1
  (`StatusUpdates.NewEntries`).

## Model

| member | source | states |
|---|---|---|
| Safety.NoOrphans | internal/controller/workbench_controller.go:79-113 | over every run, under any faults and interleaving, before and after every request: a job or deployment labelled for a workbench in its namespace implies that the workbench is stored with the finalizer |
| Safety.GoneMeansClean | internal/controller/workbench_controller.go:317-346 | starting without labelled objects, whenever a run meets a cluster without the workbench, none of its jobs and deployments are left |
| Safety.TeardownSafe | internal/controller/workbench_controller.go:79-103 | the deletion branch keeps every workbench safe: its finalizer goes only when nothing labelled is left in its namespace |
| Safety.ActiveCall | internal/controller/workbench_controller.go:105-113 | behind its finalizer, any request of an active pass keeps every workbench safe and the finalizer in place |
| Deletion.DeletionPass | internal/controller/workbench_controller.go:79-103 | a pass that sees the deletion mark creates nothing, deletes deployments only when no own labelled job is left and the finalizer only when neither is, and no component of (jobs, deployments, finalizer) ever grows, under any faults |
| Deletion.DeletionEnds | internal/controller/job.go:624-651 | after three or more undisturbed passes the finalizer is gone if and only if no labelled job or deployment lies in another namespace |
| Deletion.QuietPasses | internal/controller/workbench_controller.go:79-103 | undisturbed deletion passes in a row act on the cluster as repeated draining: own jobs, else own deployments, else the finalizer |
| Deletion.QuietTeardown | internal/controller/workbench_controller.go:79-103 | one undisturbed deletion pass drains by one step, and asks for another pass in five seconds exactly if anything labelled is listed, in whatever namespace |
| Deletion.StuckForever | internal/controller/deployment.go:267-299 | with a labelled object in another namespace no amount of draining removes the finalizer |
| Gate.ReadinessGate | internal/controller/workbench_controller.go:216-223 | once the deployment is obtained, an app job is created, changed or deleted only after a listing of this pass, by the selector of that deployment, showed its pods ready; without such a listing none is touched and the pass ends |
| Gate.PassGate | internal/controller/workbench_controller.go:128-148 | for a whole pass: a touched app means pods seen ready before in this pass, or, only if the deployment could not be had, readiness in the fetched status |
| Gate.GateWithoutDeployment | internal/controller/workbench_controller.go:128-137 | without the deployment and without readiness recorded before, no app is touched and the pass ends |
| Witnesses.StaleGate | internal/controller/workbench_controller.go:124-137 | with readiness recorded before, a whole pass whose read of the deployment is rejected deletes a job although it lists no pod |
| FullPass.GateReached | internal/controller/workbench_controller.go:216-223 | an undisturbed pass gets through the gate if and only if the deployment has containers of both kinds and the pods it selects are ready |
| Gate.UntouchedJobs | internal/controller/workbench_controller.go:219-223 | a request that touches no app leaves every existing job as it was |
| Selection.SelectionAt | internal/controller/workbench_controller.go:455-460 | the selection is the listing at exactly the positions, each once and in order, of the pods in the namespace that carry every label of the selector |
| Selection.ReadySelection | internal/controller/workbench_controller.go:470-529 | the gate counts the server as ready exactly if, among the pods of the listing in the namespace with all the selector's labels, the first of maximal creation time is not terminating and its first statuses of both containers are ready |
| Selection.PassVerdict | internal/controller/workbench_controller.go:60-314 | an undisturbed pass ends in an error if the deployment lacks containers, in another try after two seconds if its server does not run, and well otherwise |
| Selection.OthersDoNotCount | internal/controller/workbench_controller.go:216-223 | if no pod of the namespace carries this workbench's label value, an undisturbed pass touches no app and tries again in two seconds, whatever runs for other workbenches |
| Failures.PassEnds | internal/controller/workbench_controller.go:60-314 | under any script a pass ends in an error exactly if its last request failed and was not one of those whose failures are only logged, or the deployment at hand lacks containers; nothing is requested after such a failure |
| Failures.TeardownVerdict | internal/controller/workbench_controller.go:79-103 | under any script the deletion branch comes back after five seconds exactly if it had a collection deleted |
| Failures.NothingToDo | internal/controller/workbench_controller.go:64-73 | a workbench that is not found ends the pass well, with no further request |
| Failures.UnseenPods | internal/controller/workbench_controller.go:462-468 | pods that could not be listed are recorded as unknown, and the apps are left for another try |
| Versions.PassFounded | internal/controller/workbench_controller.go:60-314 | under any script every write of a pass names the version of the object that this pass last saw, through a read or an acknowledged write, and is granted only on that version; pods are listed by the selector of a deployment it was given |
| Servers.PassCorrectsServer | internal/controller/workbench_controller.go:150-174 | after an undisturbed pass a missing deployment is the one of the model, a found one has one container with the wanted image in each list and is otherwise as it was; it was written exactly if a list length or an image was wrong, and no other deployment changed |
| Servers.ImagesFollow | internal/controller/deployment.go:237-265 | so the server image has the version of the spec, or "latest", and the sidecar image is the configured one or its default, while labels and selector stay |
| Servers.ModelServer | internal/controller/deployment.go:73-234 | the created deployment: labels and selector by the workbench's name, one server and one sidecar container with their images |
| Servers.DeploymentKeys | internal/controller/deployment.go:73-76 | workbenches have different deployment keys |
| Servers.PassKeepsWorkbenches | internal/controller/workbench_controller.go:105-148 | after an undisturbed pass over a workbench that is not being deleted it has the finalizer, and nothing else of it but its status, nor any other workbench, has changed |
| Servers.PassMakesService | internal/controller/workbench_controller.go:380-404 | after an undisturbed pass, unless the deployment lacks containers, the service of the workbench exists and no other has come or gone |
| Servers.PassRecordsServer | internal/controller/workbench_controller.go:137-148 | after an undisturbed pass the stored server status is the one that the deployment and the pods selected by it give |
| AppOutcomes.StateDecides | internal/controller/job.go:565-577 | after an undisturbed ready pass the job of a buildable app that shares it with no other is absent, or suspended if it was there, for Stopped and Killed, and there with suspension false for Running and the unset state; nothing else of an existing job changes |
| AppOutcomes.EntryDecides | api/v1alpha1/workbench.go:88-114 | after such a pass the entry of an app is Failed if it cannot be built; if its job was there, Running exactly if one pod is active and one ready, Progressing exactly if active and none ready, Complete exactly if not active with a success, Failed otherwise; its revision stays |
| AppOutcomes.CreatedContent | internal/controller/job.go:186-579 | a job that such a pass creates has the content of an app's job over the enabled providers with a usable secret |
| StatusTables.ServerEntry | api/v1alpha1/workbench.go:13-68 | the server phase by the first condition, and the revision by the annotation: every canonical numeral of the host's range gives itself, anything unreadable -1 |
| StatusTables.JobEntry | api/v1alpha1/workbench.go:73-114 | the entry of a spec app takes the phase that reflects its job and keeps its revision; the other entries stay |
| StatusTables.FailureEntry | api/v1alpha1/workbench.go:118-135 | the entry becomes Failed and keeps its revision; the other entries stay |
| StatusTables.NoServer | internal/controller/workbench_controller.go:470-523 | the recorded health without a pod, with a terminating one, and without either container status |
| StatusTables.SidecarRows | internal/controller/workbench_controller.go:533-573 | while the sidecar is not ready, its state decides the phase, with its restarts and message |
| StatusTables.ServerRows | internal/controller/workbench_controller.go:576-628 | behind a ready sidecar the server's state decides: restarting for five minutes after a restart, starting for two minutes, ready, or failing |
| StatusUpdates.HealthReady | internal/controller/workbench_controller.go:470-628 | the recorded readiness holds exactly if the first pod of maximal creation time is not terminating and the first statuses of both containers are ready |
| StatusUpdates.FindLatest | internal/controller/workbench_controller.go:470-477 | the scan finds the first pod of maximal creation time |
| StatusUpdates.FindStatus | internal/controller/workbench_controller.go:494-517 | the scan finds the first status of the name |
| StatusUpdates.DeploymentFlag | api/v1alpha1/workbench.go:13-68 | the flag is raised exactly if the server status changed or there is no condition yet; a lowered flag hides no change |
| StatusUpdates.JobFlag | api/v1alpha1/workbench.go:73-114 | a lowered flag means unchanged entries; for an app of the spec the flag is exact |
| StatusUpdates.FailureFlag | api/v1alpha1/workbench.go:118-135 | the flag is exact and the entry ends up Failed |
| StatusUpdates.NewEntries | api/v1alpha1/workbench.go:78-86 | a first entry has revision 0 from a job of a spec app, -1 from a failure |
| StatusUpdates.WorkbenchObject.UpdateStatusFromDeployment | api/v1alpha1/workbench.go:13-68 | the in-place update gives the specified server status and flag, and leaves the apps alone |
| StatusUpdates.WorkbenchObject.UpdateStatusFromJob | api/v1alpha1/workbench.go:73-114 | the in-place update gives the specified entries and flag, and leaves the server status alone; the entry of a spec app is Running, Progressing, Complete or Failed exactly as the job's active, ready and succeeded counts say |
| StatusUpdates.WorkbenchObject.SetAppStatusFailed | api/v1alpha1/workbench.go:118-135 | the in-place update gives the specified entries and flag, and leaves the server status alone |
| StatusUpdates.WorkbenchObject.SetServerPodHealth | internal/controller/workbench_controller.go:631-648 | the health ends up as given and the flag is exact |
| StatusRuns.AppStatusInvariant | internal/controller/workbench_controller.go:225-270 | over every run: stored entries are Running, Progressing, Complete or Failed, their keys were in the spec when an earlier request was served, and no request loses a key of an existing workbench |
| Convergence.EffectsWorked | internal/controller/workbench_controller.go:225-291 | the app loop, for every job key and every status entry on its own, as a function of the cluster before the loop, whenever no order is better than another |
| Convergence.SeparateUids | internal/controller/job.go:190 | if no uid followed by a hyphen begins another, all orders are as good, whatever the apps and jobs |
| Convergence.SharersDiffer | internal/controller/job.go:526-527 | apps that share a job key would create different jobs: the host name of the pod is the name of the app |
| ClosedForm.Converges | internal/controller/workbench_controller.go:225-311 | an undisturbed application phase with a ready server succeeds, and ends in the closed form if and only if apps that share a job agree on running and, if they run, find the job there; in the form running apps are unsuspended, stopped ones suspended if they existed and absent otherwise, other labelled jobs gone unless an app keeps their name, all else untouched |
| ClosedForm.ClosedUnique | internal/controller/workbench_controller.go:225-311 | the closed form determines the whole cluster |
| ClosedForm.FoundNames | internal/controller/workbench_controller.go:208-262 | the names collected by the loop are exactly those of the apps whose job is there after it, whatever the apps share |
| Rest.OtherJobs | internal/controller/workbench_controller.go:298-311 | what an undisturbed ready phase makes of every job that is no buildable app's, whatever the apps share: with the label it stays exactly under a name that some app keeps, without it always, and it never changes |
| Idempotence.PassOtherJobs | internal/controller/workbench_controller.go:60-314 | the same for a whole undisturbed ready pass, from the cluster the storage phase leaves |
| Rest.AppJobs | internal/controller/workbench_controller.go:225-291 | a buildable app's job is there afterwards exactly if it was before or an app it belongs to is to run |
| Rest.ForeignJobs | internal/controller/job.go:596-608 | a labelled job of another namespace survives, unchanged, exactly if its name is one that some app here keeps, whatever the apps share |
| Rest.OwnJobsAreApps | internal/controller/workbench_controller.go:298-311 | afterwards the only labelled jobs in the namespace are those of buildable apps |
| Rest.SetupJobsSwept | internal/controller/storage_nfs.go:59-118 | a labelled setup job survives the application phase exactly if an app has its name |
| Orders.OrderIndependence | internal/controller/workbench_controller.go:225-311 | all orders of the app map and of the listing end in one cluster if and only if apps that share a job agree on running and, if they run, find the job there |
| Orders.PassOrderIndependence | internal/controller/workbench_controller.go:60-314 | the same for whole undisturbed passes, as a condition on the cluster they start from |
| Orders.LastDecides | internal/controller/workbench_controller.go:277-290 | of two apps that share a job, the one met last decides whether it is suspended |
| Orders.FollowerFails | internal/controller/workbench_controller.go:264-270 | an app that finds the job another one just created is marked Failed |
| Orders.CreatorDecides | internal/controller/workbench_controller.go:245-260 | the app that is met first creates a shared job, and its pod stays |
| Witnesses.OrderMatters | internal/controller/job.go:190 | for any state of the second app, two whole undisturbed passes over one cluster that differ only in the order of the app map and end in different clusters |
| FullPass.PassConverges | internal/controller/workbench_controller.go:60-314 | a whole undisturbed pass that reaches a ready server ends with no error, and in the closed form of the cluster as the storage phase left it exactly if no apps that share a job make the order matter |
| FullPass.NoLostStatus | internal/controller/workbench_controller.go:138-148 | after an undisturbed pass, however it ends, the stored workbench, status included, is the one in memory |
| Rest.PhaseSettles | internal/controller/workbench_controller.go:225-311 | an undisturbed application phase with a ready server leaves the jobs settled if and only if apps that share a job agree on it |
| Rest.OwnJobStays | internal/controller/workbench_controller.go:298-311 | a job of the workbench's own namespace stays exactly if it is an app's or does not carry the label, whatever the apps share |
| Idempotence.PassReachesRest | internal/controller/storage.go:148-168 | an undisturbed ready pass ends at rest if and only if no provider was blocked by a leftover setup job and apps that share a job agree on it |
| Idempotence.IdleExactlyAtRest | internal/controller/workbench_controller.go:225-311 | an undisturbed ready pass writes no job if and only if it started at rest |
| Idempotence.IdempotentExactly | internal/controller/job.go:584-594 | the second of two ready passes writes no job if and only if the first met no blocked provider and apps that share a job agree on it |
| Idempotence.StillBlocked | internal/controller/storage.go:243-265 | after a ready pass a provider is blocked exactly if it was before, by a leftover that the sweep does not remove |
| Idempotence.RecoversExactly | internal/controller/storage.go:243-265 | the second of two ready passes ends at rest if and only if every leftover in the way of the first carried the label and was no app's, and apps that share a job agree on it |
| Witnesses.LeftoverArises | internal/controller/storage_local.go:50-124 | a turn whose volume cannot be created after its setup job was leaves the provider blocked |
| Witnesses.SecondPassWrites | internal/controller/storage.go:148-168 | two passes in a row without error and through the gate, of which the second still writes a job and only then leaves the workbench at rest |
| Idempotence.RestResumes | internal/controller/workbench_controller.go:225-311 | changes of pods, deployments, services and job statuses neither disturb nor bring about rest |
| Idempotence.SecondPass | internal/controller/job.go:584-594 | a pass over a cluster at rest issues no creation, update or deletion of a job, in any iteration order |
| Idempotence.SecondPassSettles | api/v1alpha1/workbench.go:73-135 | a second ready pass stays at rest and brings every app entry where a further pass would |
| Idempotence.ThirdPass | api/v1alpha1/workbench.go:73-135 | with job statuses frozen, a third pass writes no job and no app status, and only reads from the gate on |
| SweepSafety.PassSparesApps | internal/controller/workbench_controller.go:225-311 | under any faults and interleaving, no request of a whole pass, unless the workbench is being deleted, is to delete the job of an app that can be built, existing or wanted or neither |
| SweepSafety.PhaseSparesApp | internal/controller/workbench_controller.go:245-311 | the same for the application phase, in any order that meets the app |
| SweepSafety.SweepSpares | internal/controller/workbench_controller.go:245-311 | under any faults, no job that a pass deletes bears the name of one it found or went to create |
| Sorting.Sort | internal/controller/workbench_controller.go:298-300 | the names come out ordered and with the same multiplicities |
| Sorting.BinarySearch | internal/controller/workbench_controller.go:301-305 | in an ordered list the search finds the first position not below the target, and the target exactly if it is a member |
| StorageProofs.StorageSafe | internal/controller/storage.go:171-298 | over every run, under any faults: every claim names an existing volume, was created while it existed, setups run only while their volume is absent, and no request removes a volume or a claim |
| Isolation.TurnFootprint | internal/controller/storage.go:171-298 | a provider's turn has the same result, volume and claim in any two worlds that agree on its own footprint and script |
| Isolation.ProviderIsolation | internal/controller/storage.go:148-168 | a provider meets its volume and claim as they were at the start and leaves them as they are at the end, whatever the others ran into |
| Isolation.SameOutcome | internal/controller/storage.go:148-168 | in two runs that meet a provider's turn with the same footprint at the start and the same script to come, its result, volume and claim at the end are the same, whichever other providers are enabled and whatever failed for them |
| Provisioning.ProvidedOther | internal/controller/storage.go:148-168 | undisturbed, another provider's turn changes neither this one's claim, volume and leftover setup job nor what it can provide |
| Isolation.ResultKeys | internal/controller/storage.go:148-168 | a provider is a key of the result exactly if its own turn provided, with its claim name as value |
| Isolation.KeysAreProviders | internal/controller/storage.go:148-168 | the result has no other keys |
| Isolation.EnabledDistinct | internal/controller/storage.go:86-115 | the enabled providers differ in mount type and storage type |
| Provisioning.QuietTurn | internal/controller/storage.go:171-298 | an undisturbed turn provides exactly if driver and secret are there and the volume exists or can be set up; otherwise it changes nothing |
| Turns.TurnFollows | internal/controller/storage.go:171-298 | under any script each request of a turn rests on the answer before it; the turn provides exactly if its last answer shows the claim, and is skipped exactly if the driver or the secret is missing at first |
| Volumes.EnabledExactly | internal/controller/storage.go:86-115 | S3 and NFS are enabled unless the spec says otherwise, local storage only if the spec asks for it and the operator offers it; in this order |
| Volumes.S3Turn | internal/controller/storage_s3.go:141-159 | the outcome of an undisturbed S3 turn: the volume holds the secret's name, the path "/" and a reference to the secret, and the claim names it |
| Volumes.NfsTurn | internal/controller/storage_nfs.go:48-155 | the outcome of an undisturbed NFS turn: the volume holds the secret's server and share and no reference, and the setup job mounts that same share |
| Volumes.LocalTurn | internal/controller/storage_local.go:50-173 | the outcome of an undisturbed local turn: a volume over the configured host path or its default, and a setup job over the same path |
| Provisioning.ClaimAfter | internal/controller/storage.go:274-297 | after an undisturbed storage phase a claim exists exactly if it did before or its provider could provide at the start |
| Provisioning.VolumeAfter | internal/controller/storage.go:243-265 | and likewise a volume |
| Provisioning.LeftoverAfter | internal/controller/storage.go:243-265 | a leftover setup job stays when its provider cannot provide |
| Provisioning.NoDanglingClaims | internal/controller/storage.go:124-144 | no claim named by the job volumes dangles, if and only if every enabled provider with a usable secret had its claim, or has its driver and a volume it can get |
| BuiltJobs.BuildableExactly | internal/controller/job.go:67-184 | an app gets a job exactly if it has an image whose repository does not end in a slash or nothing, and no line of that image's passwd file, if readable, has a reserved id |
| BuiltJobs.JobContent | internal/controller/job.go:186-579 | the job that is built: labels, suspension, host name, images, volumes, and exactly these mounts with their sub-paths, over the providers with a usable secret |
| BuiltJobs.JobKeyOf | internal/controller/job.go:190 | the job's name is made of the workbench's name, the uid and the app's name |
| BuiltJobs.ResourcesOf | internal/controller/job.go:377-391 | limits are the app's own, else its requests, else the defaults; requests are its own, else the defaults; the defaults are given by their amounts |
| BuiltJobs.LastComponent | internal/controller/job.go:67-74 | the app's name is what follows the last slash of the repository |
| JobShape.JobWellFormed | internal/controller/job.go:199-232 | every mount of both containers names a declared volume, volume names differ, and mount paths differ exactly if at most one active provider mounts the application data |
| JobShape.BuiltJobWellFormed | internal/controller/job.go:199-232 | the same for the job a pass builds, in whatever world it looks the secrets up: mounts meet at one path exactly if S3 and local storage are both active |
| JobShape.StoragePaths | internal/controller/storage.go:376-398 | the storage mounts alone: paths differ exactly if at most one provider mounts the application data |
| Names.VolumeNamesInjective | internal/controller/storage.go:329-331 | volume names and handles determine namespace and mount type, for hyphen-free mount types |
| Names.ProviderNamesDistinct | internal/controller/storage.go:322-331 | in one namespace different mount types give different volume, claim and pod volume names |
| Names.PathsInjective | internal/controller/storage.go:376-398 | the sub-paths determine namespace and user for slash-free namespaces, and data and application data never meet |
| Names.JobNames | internal/controller/job.go:190 | for one workbench, job names determine uid and app name unless one uid followed by a hyphen begins the other |
| Names.SeparateUids | internal/controller/job.go:190 | uids without hyphens, and uids of one length, do not mix like that |
| Names.UidsCollide | internal/controller/job.go:190 | two uids get one job name, for some app names of admitted length, if and only if one followed by a hyphen begins the other and they differ in length by less than 30 |
| Names.WorkbenchesCollide | internal/controller/job.go:190 | two workbenches of one namespace get one job name, for some uids and app names of admitted length, if and only if one workbench name followed by a hyphen begins the other |
| Names.HyphenFreeCollide | internal/controller/job.go:190 | with hyphen-free uids they do if and only if, besides, what follows the next hyphen leaves room in an app name |
| Passwd.CollectCollisions | internal/controller/job.go:107-130 | the loop computes the line-by-line filter |
| Passwd.ScanPrint | internal/controller/job.go:107-130 | scanning undoes printing: exactly the entries with an id in 1001..9999, in order and with multiplicity |
| Passwd.LineExactly | internal/controller/job.go:114-130 | a line reports its user exactly if its third field is a numeral from 1001 to 9999 |
| Passwd.ScanLines | internal/controller/job.go:107-130 | a text reports what its lines do, in order |
| Passwd.ScanEmpty | internal/controller/job.go:107-130 | an arbitrary text reports nothing exactly if none of its lines offends |
| Jobs.RejectedImages | internal/controller/job.go:136-184 | a readable image is rejected exactly if one of its users has a reserved id |
| Jobs.ResourcesFit | internal/controller/job.go:22-33 | an app's requests stay within its limits exactly if each limit it sets admits its own request or, without requests of its own, one thousandth of a processor, 1 KiB of memory and 1 GiB of storage |
| Jobs.SmallStorageLimit | internal/controller/job.go:377-391 | a storage limit of 512 MiB alone leaves the requests above the limits |
| Text.SplitJoin | internal/controller/job.go:109-114 | splitting undoes joining for separator-free parts |
| Text.AtoiDecimal | internal/controller/job.go:121-124 | the integer parser undoes canonical printing on the host's range |
| Text.JoinSplit | internal/controller/job.go:109-114 | joining undoes splitting, and no part holds the separator |
| Text.AtoiExactly | internal/controller/job.go:121-124 | the parser accepts exactly the numerals of the host's range: an optional sign and digits, with any leading zeros |
| Deployments.UpdateInPlace | internal/controller/deployment.go:237-265 | the in-place update, with slices possibly shared with the source, gives the specified lists and flag and never changes the source's containers |
| Deployments.UpdateConverges | internal/controller/deployment.go:237-265 | the update succeeds exactly on non-empty lists; then each is one container with the source's image, the flag is exact, and a second update changes nothing |
| Reconciler.WorkbenchReconciler.Reconcile | internal/controller/workbench_controller.go:60-314 | the pass does what the pass function says, for orders that, whenever it gets through the gate, enumerate the app map and the listed jobs |
| Reconciler.WorkbenchReconciler.Finalize | internal/controller/workbench_controller.go:79-103 | the deletion branch |
| Reconciler.WorkbenchReconciler.AddFinalizer | internal/controller/workbench_controller.go:105-113 | the finalizer is added once, and the memory refreshed from the reply |
| Reconciler.WorkbenchReconciler.DeleteExternalResources | internal/controller/workbench_controller.go:317-346 | jobs first, then deployments, with the count of the stage reached |
| Reconciler.WorkbenchReconciler.DeleteJobs | internal/controller/job.go:624-651 | list in all namespaces, delete in one |
| Reconciler.WorkbenchReconciler.DeleteDeployments | internal/controller/deployment.go:267-299 | list in all namespaces, delete in one |
| Reconciler.WorkbenchReconciler.CreateDeployment | internal/controller/workbench_controller.go:348-377 | the existing deployment, or the created one |
| Reconciler.WorkbenchReconciler.ReconcileServer | internal/controller/workbench_controller.go:115-175 | deployment, status, health, correction |
| Reconciler.WorkbenchReconciler.ObserveServer | internal/controller/workbench_controller.go:137-148 | one status write if either flag is raised |
| Reconciler.WorkbenchReconciler.CorrectDeployment | internal/controller/workbench_controller.go:150-174 | the in-place update followed by a write of the result |
| Reconciler.WorkbenchReconciler.UpdateServerPodHealth | internal/controller/workbench_controller.go:445-530 | the health of the selected pods, and unknown if they cannot be listed |
| Reconciler.LatestHealth | internal/controller/workbench_controller.go:470-529 | the scans of pods and container statuses arrive at the specified health |
| Reconciler.WorkbenchReconciler.UpdateStatus | internal/controller/workbench_controller.go:144-148 | the status write and what the memory becomes |
| Reconciler.WorkbenchReconciler.CreateService | internal/controller/workbench_controller.go:380-404 | the service is created when missing |
| Reconciler.WorkbenchReconciler.GetEnabledProviders | internal/controller/storage.go:86-115 | the enabled providers in their order |
| Reconciler.WorkbenchReconciler.GetVolumeAndMountSpecs | internal/controller/storage.go:124-144 | the volumes and mounts of the providers whose secret is usable |
| Reconciler.WorkbenchReconciler.ProcessEnabledStorage | internal/controller/storage.go:148-168 | the turns of the enabled providers in order, and the map of what they provided |
| Reconciler.WorkbenchReconciler.ProcessStorageProvider | internal/controller/storage.go:171-298 | one provider's turn |
| Reconciler.WorkbenchReconciler.Setup | internal/controller/storage_local.go:50-124 | the setup of each kind of provider |
| Reconciler.WorkbenchReconciler.CreatePV | internal/controller/storage_s3.go:141-159 | the volume built from the provider's secret |
| Reconciler.WorkbenchReconciler.GetSecretConfig | internal/controller/storage_nfs.go:122-139 | the secret, if it exists with all required fields filled |
| Reconciler.WorkbenchReconciler.InitJob | internal/controller/job.go:186-579 | the job of an app, or none if it has no image, names no app or fails validation |
| Reconciler.WorkbenchReconciler.CreateJob | internal/controller/workbench_controller.go:407-443 | a missing job is created unless it is to be suspended; an existing one is returned |
| Reconciler.WorkbenchReconciler.AdoptJob | internal/controller/workbench_controller.go:264-290 | status first, then the suspension, with a conflict-checked write |
| Reconciler.WorkbenchReconciler.ReconcileApp | internal/controller/workbench_controller.go:225-291 | one iteration of the app loop |
| Reconciler.WorkbenchReconciler.ReconcileApps | internal/controller/workbench_controller.go:225-291 | the app loop in some order that enumerates the app map |
| Reconciler.WorkbenchReconciler.SweepJobs | internal/controller/workbench_controller.go:293-311 | sorting and binary search delete exactly the listed jobs whose name is not among the found |
| Reconciler.WorkbenchReconciler.ReconcileApplications | internal/controller/workbench_controller.go:206-313 | gate, app loop, sweep, for orders that enumerate the app map and the listed jobs |

## Left out

- Manager start-up, watches, leader election, events, logs and metrics: no part of what a pass decides.
- Owner references and the garbage collection they cause; `SetControllerReference` on a fresh object does not fail.
- Running docker or podman: what `cat /etc/passwd` prints in an image is a parameter, absent if it cannot be run.
- Informer cache staleness: reads are linearizable, and one pass runs at a time.
- The API server's own validation, for instance of duplicate mount paths, of requests beyond limits, and of names but for
  the length of app names.
- Resource versions are compared by content, so an object that changed and changed back counts as unchanged.
- Collection deletions and job deletions take effect at once; foreground deletion is not modelled.
- The environment never creates, changes or removes volumes and claims, never writes a workbench status, and never touches
  the operator's own finalizer or label. It may otherwise edit, create and remove jobs, deployments and services.
- Security contexts, probes, environment variables, kiosk settings, priority classes, pull policies, service ports and
  debug annotations: constant or copied fields.
- Reconciler.WorkbenchReconciler.InitJob: builds the name, labels, suspension, host name, volumes, mounts, images and
  resources of a job; the fields of the line above, the time to live and the service account are not part of it.
- Assembling image names from registry and repository settings: the configuration holds the resolved names. An app
  without an image fails in either order of the two checks, so its default image name is not built.
- Health messages are values that are compared, not formatted text.
- `slices.Sort` is the Go library's; an insertion sort stands for it, which is no loss as the sorted list is unique.
- A panic in the deployment update ends the pass with an error, as a recovered panic does.
