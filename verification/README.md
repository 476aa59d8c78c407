# The Odoo operator: module installation and reconciliation

A Dafny model of a Kubernetes operator that runs Odoo from an `OdooDeployment` resource, and
proofs about it. The operator drives a cluster it does not own: a pass reads the resource, makes
sure of an admin password secret, a configuration secret and a volume claim, installs missing
modules with a Job of a fixed name, and only then creates or updates the Deployment and two
services. What it remembers between passes is in the status of the resource.

`dafny verify dfyconfig.toml` checks everything.

## What is modelled, and how

* **API server** (`Api`). A store of versioned objects. Requests are get, create, update, status
  update, delete and the listing of a Job's pods. A write with an old version is rejected whole.
  A request can be lost, or carried out while its answer is lost. The server chooses the four
  allocated service fields and the order of listings; the random password is chosen too.
* **Pass** (`Machine`). A state machine with one step per request: `CallOf` is the next request,
  `Continue` the computation from its answer to the next one. Between two steps others may send
  any request, Jobs make progress, the process may die. `executed` is a ghost set with the
  modules of every init Job that ever succeeded.
* **Code** (`Client`, `Reconcilers`). The reconcilers as classes that work on one shared
  in-memory resource and write through a client. The client accepts a request only if the machine
  would send it, so every execution of the classes is a run of the machine, and every pass ends.
  The in-memory names (`Status.OdooAdminSecretName` and the like) are set between a step and the
  status write that follows it, as in the source.
* **Helpers** (`ModuleLists`, `Slices`, `Numbers`, `ConfigText`, `Templates`, `Watch`). Loops are
  loops and slices are arrays with a length and a capacity; each is proved against a function
  whose own properties are proved.

The theorems about runs are in `Safety` and `History` (what every run keeps), `Children` and
`Passwords` (references and passwords), `Simulation`, `Liveness` and `Settling` (which states end
with everything installed, with `Convergence` as the abstract schedule behind them), `Orphans` (how
the blocked states arise), `HonestPass` (one pass without faults), `Fixpoint` and `SelfReference`
(what a finished pass leaves behind), `PodCleanup` and `Isolation` (other resources). `Footprint`
(everything a pass writes, field by field), `Sources` (where each stored value comes from) and `Reports`
(what a pass reports, and how often it writes the status) describe the outcome in the words of the
resource and of the file, without the functions that compute it.

Kinds of runs. A *considerate* run is any mixture of passes, faults, crashes, Job events and requests
by others that leave the init Job and the status alone. A *calm* run is one in which the requests of
the passes do not fail, the init Job behaves as a succeeding one, and others do no harm (`Harmless`);
Job events and requests by others fall anywhere between the steps of a pass. A run is *unedited* if
nobody else sends requests, and *undisturbed* if no Job makes progress either; passes may fail in
both. An *honest* run is a pass without faults and without anybody else.

Client semantics. A successful status write replaces the whole in-memory resource, specification
included, by the server's answer; a failed one leaves it alone. Reads see the latest store and
passes over one resource do not overlap. Server defaulting changes nothing but the four allocated
fields of a service. A key that is present in a secret has a value.

## Where the code does less than one might expect

Each point is proved, with the exact condition where there is one.

* The deduplication at the start of a pass is undone by the first status write. The Job is built
  from the stored specification, so a module requested twice is recorded and installed twice:
  `Liveness.RepeatedRequestIsRecordedTwice`, with the exact condition in `Liveness.RecordAfterPass`.
* Installation is at-least-once: a missing Job, or one whose counters are all zero, is passed
  over, and only the fixed name stops a second Job. An init Job that exists without a record is
  never adopted and never removed (`History.OrphanStays`). One crash brings such a state about,
  also in a run from nothing: `Orphans.OrphanReachable`, `Orphans.OrphanFromNothing`. The
  installation can be completed if and only if it is not blocked in this way or by a Job that failed
  for good: `Settling.InstallableExactly`.
* The admin password stays if and only if the user does not name the configuration secret as admin
  secret: `Passwords.AdminPasswordStaysExactly`.
* A finished pass leaves the wanted configuration if and only if the resource does not read its own
  configuration secret; otherwise every pass writes it anew: `SelfReference.ConfiguredExactly`,
  `SelfReference.SelfReferringPassWrites`, `Watch.SettlesExactly`.
* A path that ends in a tab is accepted by the declared pattern and lost by a reader that trims:
  `ConfigText.TabbedPathIsLost`, `ConfigText.RoundTripExactly`.
* The secret watch skips events of the default admin secret. Skipped events are all harmless if and
  only if the admin secret is named, or the default one is referred to elsewhere:
  `Watch.SkippedEventsAreSafeExactly`.
* The listing of pods has no namespace. Two workers over different resources can exchange their
  steps if and only if the names differ (`Isolation.TurnsCommuteExactly`), and of two resources of
  the same name one deletes the pods of the other's Job (`PodCleanup.SameNameDeletesPods`).
* A second Job command built on the same slice overwrites the first when there is spare
  capacity; one pod and one Job, as the operator builds them, do not disturb each other:
  `Slices.TwoJobs`, `Slices.PodThenJob`, `Slices.JobThenPod`.

## Model

| member | source | states |
|---|---|---|
| Safety.StepKeepsInv | internal/controller/reconcileloops/databaseinitjob.go:36-133 | one step of anybody (the pass with any fault, a crash, an edit by others, Job progress) keeps the invariant: installed modules were executed, and a record names the one init Job and lists either exactly its modules or only executed ones |
| Safety.InstalledWasExecuted | internal/controller/reconcileloops/databaseinitjob.go:54-92 | in every reachable state each module the stored status calls installed was run by an init Job that succeeded |
| Safety.DeploymentIsGated | internal/controller/odoodeployment_controller.go:171-188 | in every run, whenever the Deployment changes, the comma pieces of all modules of the specification the pass acts on, and so the modules themselves if no name holds a comma, have been executed |
| History.GateOnStoredSpec | internal/controller/odoodeployment_controller.go:171-188 | the same for the modules the user asks for at that moment, if nobody touched the resource since the pass last read or wrote it |
| History.InstalledOnlyGrows | internal/controller/reconcileloops/databaseinitjob.go:58-61 | the stored list of installed modules only grows at its end, under all faults, crashes, stale writes and edits |
| History.NeverRecordedAgain | internal/controller/reconcileloops/databaseinitjob.go:109-129 | in every reachable state no installed module is recorded for installation, stored or in memory |
| History.NeverListedTwice | internal/controller/reconcileloops/databaseinitjob.go:109-129 | if no edit asks for a module twice, installed and recorded modules together never hold a duplicate |
| History.DeduplicatedUntilWritten | internal/controller/odoodeployment_controller.go:116 | until a status write of the pass is accepted, the modules in memory and the missing ones hold no duplicate |
| History.OrphanCreate | internal/controller/reconcileloops/databaseinitjob.go:117-122 | with an unrecorded Job in place, the creation changes nothing and the pass fails |
| History.OrphanStays | internal/controller/reconcileloops/databaseinitjob.go:36-133 | an init Job that exists without a record stays so in every run, whatever the pass does and however the specification is edited |
| Orphans.OrphanReachable | internal/controller/reconcileloops/databaseinitjob.go:117-132 | from every state in which the next pass starts a Job, one crash after the creation leads to a state blocked by an unrecorded Job |
| Orphans.OrphanFromNothing | internal/controller/reconcileloops/databaseinitjob.go:117-132 | such a state is reached in a run from an empty cluster with a single crash and no other fault |
| Simulation.StepMoves | internal/controller/reconcileloops/databaseinitjob.go:36-133 | each event of a calm run, at any point of a pass, is nothing, one step of the Job, or the one moment at which the pass acts on the installation |
| Simulation.RunSimulates | internal/controller/reconcileloops/databaseinitjob.go:36-133 | every calm run, with Job events and harmless requests between any two steps of its passes, moves the installation as a schedule of whole passes and Job steps |
| Simulation.ClaimRace | internal/controller/reconcileloops/odoofilestore.go:28-60 | a claim that others create between lookup and creation makes the pass fail, and its deletion restores the store |
| Liveness.PassIsAtomic | internal/controller/odoodeployment_controller.go:92-221 | a pass in a calm run acts exactly once: some Job events come before that moment, the others after it |
| Liveness.InstallationConverges | internal/controller/reconcileloops/databaseinitjob.go:36-133 | seven stretches of a fair calm run install every module if and only if the first state is not blocked; the measure behind it is lexicographic in missing modules and Job phase |
| Liveness.AtMostOneJobAppears | internal/controller/reconcileloops/databaseinitjob.go:109-133 | in every calm run the init Job comes into being at most once, and never from a blocked state |
| Liveness.BlockedStaysBlocked | internal/controller/reconcileloops/databaseinitjob.go:109-122 | from a blocked state no calm run ever has everything installed |
| Liveness.ReadyIsNeverRefused | api/v1/odoodeployment_funcs.go:493-515 | whether passes can compute the configuration can be seen in the first state, and then holds along every calm run |
| Liveness.RecordAfterPass | internal/controller/reconcileloops/databaseinitjob.go:109-129 | after a pass that starts a Job the stored record lists what was missing in the stored specification, and is free of duplicates if and only if every missing module is requested once |
| Liveness.RepeatedRequestIsRecordedTwice | internal/controller/odoodeployment_controller.go:116-131 | a pass over a resource that asks twice for one module stores a record that lists it twice, although the list in memory was deduplicated |
| Settling.InstallableExactly | internal/controller/reconcileloops/databaseinitjob.go:36-133 | some calm run installs every module if and only if the first state is not blocked |
| Settling.InstallationSettles | internal/controller/odoodeployment_controller.go:92-221 | a resource that can be configured and is not blocked comes to rest: after ten fair stretches one further pass leaves a steady store, and no later pass changes a child |
| HonestPass.PassSimulates | internal/controller/odoodeployment_controller.go:92-221 | an uninterrupted pass without faults fails only if a Job stands in the way while modules are missing, or if the configuration cannot be computed; otherwise it does what the convergence model says |
| HonestPass.SomeHonestPass | internal/controller/odoodeployment_controller.go:92-221 | from every state there is a run without faults on which the pass comes to its end |
| HonestPass.SteadyPassFinishes | internal/controller/odoodeployment_controller.go:116-220 | from a steady store of a resource that does not read its own configuration secret, a pass without faults ends without error and without asking for another pass |
| Reports.PassReports | internal/controller/reconcileloops/databaseinitjob.go:36-133 | what an uninterrupted pass without faults reports is a function of the installation it found: 30 seconds after it started or cleaned up a Job, 15 while one is active, none after a failed Job or when nothing is missing, failure at once if a Job is in the way; or failure after 15 seconds if it cannot be configured |
| Reports.PassWritesStatus | internal/controller/odoodeployment_controller.go:131-220 | such a pass writes the status five times, four times while it waits for a Job, three times if it cannot be configured |
| Reports.RefusalReports | internal/controller/reconcileloops/databaseinitjob.go:45-122 | in any state, when a request is refused (lost, answered by a failure, rejected for its version or for a name that is taken, or about an object that is gone), the pass is over after two status writes, with a failure and the seconds of that step |
| Reports.NameWritesMayFail | internal/controller/odoodeployment_controller.go:130-193 | the status writes that record names, and the one after the Deployment, may be refused: the pass goes on with what it knew |
| Reports.LastWritesCount | internal/controller/odoodeployment_controller.go:174-221 | the last status writes count: if one is refused, the pass fails with the time it meant to report |
| Reports.FetchReports | internal/controller/odoodeployment_controller.go:96-110 | a resource that is gone ends the pass without failure, a failed lookup ends it with one, and neither writes anything |
| Fixpoint.NoLostWakeUp | internal/controller/odoodeployment_controller.go:92-220 | an unedited pass that reports neither an error nor a time to come back leaves the resource gone, or a configuration stored (up to date unless computed from itself), the claim in place, and either everything installed and Deployment and services equal to their templates, or a recorded Job that exists; if no Job made progress, that Job has failed with none active and otherwise none is at work |
| SelfReference.ConfiguredExactly | internal/controller/odoodeployment_controller.go:133-148 | after such a pass the stored configuration is the wanted one if and only if the resource does not read its own configuration secret |
| SelfReference.SelfReferringPassWrites | internal/controller/reconcileloops/configsecret.go:63-84 | over a resource that reads its own configuration secret every unedited pass that gets past the configuration has written it anew |
| Fixpoint.SteadyStaysStill | internal/controller/odoodeployment_controller.go:116-220 | from a steady store of a resource that does not read its own configuration secret, no number of passes, failing or not, creates, updates or deletes a child |
| Fixpoint.SecondPassChangesNothing | internal/controller/odoodeployment_controller.go:116-220 | after one undisturbed pass over such a resource that finished, further passes change no child, for all passwords drawn and all allocated service fields |
| Fixpoint.MissingPasswordUnreachable | internal/controller/reconcileloops/configsecret.go:48-53 | in every run, under any interference, the exit for a missing admin password is never taken |
| Fixpoint.WantedFrame | api/v1/odoodeployment_funcs.go:493-515 | the configuration a resource should have depends on no secret but those it refers to, and not on itself |
| Children.OwnKeepsPassword | internal/controller/reconcileloops/adminpassword.go:46-78 | no step of a pass changes a secret that holds a password, its own configuration secret aside, although every pass draws a new password |
| Children.PasswordStays | internal/controller/reconcileloops/adminpassword.go:46-78 | once a secret other than its configuration secret holds a password, no considerate run that spares the secret changes it |
| Children.AdminIsConfigExactly | api/v1/odoodeployment_funcs.go:350-368 | the two secrets are one if and only if the user names the admin secret `<name>-config` |
| Passwords.HonestPassDropsPassword | internal/controller/reconcileloops/configsecret.go:63-84 | if the admin secret is the configuration secret, holds a password, and the configuration can be computed, every pass without faults ends with the password gone |
| Passwords.AdminPasswordStaysExactly | internal/controller/reconcileloops/adminpassword.go:46-78 | the admin secret of a resource that can be configured keeps its password in every considerate run that spares it, if and only if the user does not name the configuration secret as admin secret |
| Children.PodsReferToExisting | internal/controller/odoodeployment_controller.go:124-190 | in every reachable state a requested Job or Deployment mounts a claim and a configuration secret that exist in its namespace, even if every status write failed |
| Isolation.ServeCommutes | internal/controller/odoodeployment_controller.go:252 | independent requests give the same answers and the same store in either order |
| Isolation.TurnsCommute | internal/controller/odoodeployment_controller.go:252 | one step of each of two workers over resources of different names can be exchanged |
| Isolation.InterleavingIsSequential | internal/controller/odoodeployment_controller.go:252 | every interleaving of any number of passes over two such resources ends as if one worker had done everything before the other |
| Isolation.TurnsCommuteExactly | internal/controller/odoodeployment_controller.go:252 | for two different resources, all turns of two workers that keep to themselves can be exchanged if and only if the names differ |
| PodCleanup.PassTakesAllPods | internal/controller/reconcileloops/databaseinitjob.go:64-81 | a pass without faults after a recorded success leaves no pod that carries the Job's name, in any namespace |
| PodCleanup.SameNameDeletesPods | internal/controller/reconcileloops/databaseinitjob.go:66-81 | so it deletes the pods of the Job of a resource of the same name elsewhere |
| Templates.DerivedNamesDistinct | api/v1/odoodeployment_funcs.go:350-401 | names derived from different resource names never coincide, and a configuration secret is never a default admin secret |
| Templates.JobRunsItsModules | api/v1/odoodeployment_funcs.go:244-276 | whatever the user's command is, the Job hands exactly the modules it was built for to its last `--init`, and so runs their comma pieces |
| Footprint.PassWritesOnly | internal/controller/odoodeployment_controller.go:92-221 | in every run, a step of a pass changes only objects of its resource and pods, and each only as it should be: the status alone of the resource, one key in each secret, the claim as specified, a Job that is told to install the missing modules and never restarts, a Deployment and two services with image, command, ports, label and mounts in place |
| Footprint.ServicesKeepAllocation | internal/controller/reconcileloops/httpservice.go:49-68 | in every run, a step over a service that exists keeps address, addresses, families and family policy |
| Footprint.StatusNamesChildren | internal/controller/odoodeployment_controller.go:130-163 | in every run, a status write of a pass that is past the admin secret, the configuration or the claim stores the name of each |
| Footprint.StoredPasswordIsDrawn | api/v1/odoodeployment_funcs.go:370-392 | in every run, a step after which a secret has a password it had not stores in it exactly the text that the last step drew, as its only key |
| Passwords.DrawnPasswordIsKept | internal/controller/reconcileloops/adminpassword.go:46-78 | a pass without faults that finds no password ends with exactly the one it drew, unless the admin secret is the configuration secret |
| Sources.DetailsExactly | api/v1/odoodeployment_funcs.go:22-139 | the details are computed if and only if each of the seven fields has a value, and then each holds, by name, what its own complete reference yields (numbers as the text denotes, booleans by the accepted texts) or what the specification gives |
| Sources.FirstProblemReported | api/v1/odoodeployment_funcs.go:87-139 | an error is reported if and only if it is what is wrong with the first field that has no value: no secret, no key, no reference for the password, no number, no boolean |
| Sources.DesiredExactly | api/v1/odoodeployment_funcs.go:493-515 | there is a configuration to store if and only if the admin secret has a password and every field has a value |
| Sources.DesiredFile | api/v1/odoodeployment_funcs.go:493-515 | this configuration is one file; read under its keys, it gives the admin password, host, port, user, password, name and the rest, each from where it belongs |
| Sources.UsesSecretExactly | api/v1/odoodeployment_funcs.go:517-542 | a resource is woken up by the secrets of its seven references and by the admin secret it names, and by no other |
| SelfReference.FinishedPassStoresFile | internal/controller/reconcileloops/configsecret.go:55-84 | after a finished pass over a resource that does not read its own configuration secret, the stored file says under each key what the stored admin secret, the stored secrets its fields refer to, and the specification say |
| Watch.EqualSecretData | internal/controller/odoodeployment_predicates.go:208-222 | sizes and one direction of inclusion decide equality of the two maps |
| Watch.PassesFilter | internal/controller/odoodeployment_predicates.go:65-89 | an event is dropped if and only if it is an update that leaves the data alone |
| Watch.FilterUsingSecret | internal/controller/odoodeployment_controller.go:398-416 | the requests are, in order, the resources that use the secret |
| Watch.Enqueued | internal/controller/odoodeployment_controller.go:257-271 | an event enqueues exactly the resources of its namespace that use the secret, if it passes the filter |
| Watch.DetailsDependOnRefs | api/v1/odoodeployment_funcs.go:87-139 | the connection details, or the error that prevents them, depend only on the secrets the references name |
| Watch.SkippedEventsKeepDetails | api/v1/odoodeployment_funcs.go:517-542 | an event that does not enqueue a resource leaves its connection details, value or error, as they are |
| Watch.SkippedEventsAreSafe | internal/controller/odoodeployment_controller.go:398-416 | such an event leaves the wanted configuration as it is, unless it is about the default admin secret |
| Watch.NamedAdminIsWatched | api/v1/odoodeployment_funcs.go:521-542 | if the user names the admin secret, every event that changes the wanted configuration enqueues the resource |
| Watch.SkippedEventsAreSafeExactly | api/v1/odoodeployment_funcs.go:521-542 | all skipped events leave the wanted configuration of a resource as it is if and only if it names its admin secret or refers to the default one elsewhere |
| Watch.DefaultAdminIsNotMapped | api/v1/odoodeployment_funcs.go:521-542 | where neither holds and the details can be computed, a change from one trimmed one-line password to another changes the configuration and enqueues nothing |
| Watch.SettlesExactly | internal/controller/reconcileloops/configsecret.go:55-84 | there are secrets, before any pass, with which the stored configuration is the wanted one if and only if the database password comes from a secret and the resource does not read its own configuration secret |
| Watch.SelfReferenceNeverSettles | internal/controller/reconcileloops/configsecret.go:55-84 | whatever the secrets are, a resource that reads its own configuration secret wants another configuration than the stored one |
| ConfigText.ReadPrinted | api/v1/odoodeployment_funcs.go:290-314 | reading the printed lines (skip lines without `=`, split at the first one, trim) gives back keys and values in order |
| ConfigText.FileText | api/v1/odoodeployment_funcs.go:290-314 | the file consists of exactly the lines of the format, each ended by a newline, with the paths line only if there are paths |
| ConfigText.KeyedValues | api/v1/odoodeployment_funcs.go:290-314 | read under each key of the format, the file gives the value printed for it |
| ConfigText.DecodeSerialized | api/v1/odoodeployment_funcs.go:279-315 | for one-line texts and declared paths the file determines every field, trimmed, and every number and boolean exactly |
| ConfigText.PathsReadExactly | api/v1/odoodeployment_types.go:191-195 | the list of declared paths is read back if and only if the last one does not end in a tab |
| ConfigText.RoundTripExactly | api/v1/odoodeployment_funcs.go:279-315 | printing and reading gives back the whole configuration if and only if the texts are trimmed and the last path does not end in a tab |
| ConfigText.TabbedPathIsLost | api/v1/odoodeployment_types.go:191-195 | a concrete path that the declared pattern accepts and the file does not preserve |
| ConfigText.FileIsNoValue | api/v1/odoodeployment_funcs.go:290-314 | the file is longer than each value printed into it and starts with a bracket |
| Numbers.Int32Exactly | pkg/utils/secrets.go:32-42 | the accepted texts are exactly those that denote, position by position, a value in the signed 32-bit range, and the narrowing loses nothing |
| Numbers.Int32RoundTrip | api/v1/odoodeployment_funcs.go:290-298 | a printed 32-bit number is read back as itself |
| Numbers.IntTextCanonical | api/v1/odoodeployment_funcs.go:290-298 | printed integers have no plus sign and no leading zeros, and a minus sign if and only if they are negative |
| Numbers.BoolTextRoundTrip | pkg/utils/secrets.go:44-54 | a printed boolean is read back as itself |
| ModuleLists.Deduplicate | api/v1/odoodeployment_funcs.go:232-242 | the loop with the map computes the first occurrences in order |
| ModuleLists.DedupSound | api/v1/odoodeployment_funcs.go:232-242 | the result has the same modules and none twice |
| ModuleLists.DedupKeepsOrder | api/v1/odoodeployment_funcs.go:230-242 | of two modules the one that starts earlier stays ahead |
| ModuleLists.DedupIdempotent | api/v1/odoodeployment_funcs.go:232-242 | a second deduplication changes nothing |
| ModuleLists.ComputeDifference | pkg/utils/generic.go:4-16 | the two loops compute the elements of the first list that are not in the second, in order and with repetitions |
| ModuleLists.DifferenceEmpty | pkg/utils/generic.go:4-16 | the difference is empty if and only if the first list is contained in the second |
| ModuleLists.DifferenceClosed | api/v1/odoodeployment_funcs.go:246 | once the missing modules are appended to the installed ones, nothing is missing |
| ModuleLists.DedupCommutes | api/v1/odoodeployment_funcs.go:232-246 | deduplication and difference can be exchanged |
| ModuleLists.DifferenceNoDupExactly | pkg/utils/generic.go:4-16 | the difference is free of duplicates if and only if each of its elements occurs once in the first list |
| ModuleLists.InitArgument | api/v1/odoodeployment_funcs.go:250-256 | accumulate-then-trim stays in range; splitting the result at commas gives the comma pieces of the modules, and the modules themselves when none contains a comma |
| Slices.Append | api/v1/odoodeployment_funcs.go:154 | `append` on array, length and capacity: contents of both slices, and when the array is shared |
| Slices.PodThenJob | api/v1/odoodeployment_funcs.go:154-258 | the pod command and the Job command, built in this order on one slice, both hold what they should, for every capacity |
| Slices.JobThenPod | api/v1/odoodeployment_funcs.go:154-258 | the same in the other order |
| Slices.TwoJobs | api/v1/odoodeployment_funcs.go:258 | the first of two Job commands survives the second if and only if there is no spare capacity for both or their arguments are equal |
| Client.OdooDeployment.DeduplicateModules | api/v1/odoodeployment_funcs.go:232-242 | rewrites the modules in memory and nothing else |
| Client.OdooDeployment.GetDbInitJobTemplate | api/v1/odoodeployment_funcs.go:244-276 | the missing modules, and a Job that runs exactly these: the user's command followed by the configuration file, `--stop-after-init`, `--no-http` and `--init` with the modules, without ports; no Job if nothing is missing |
| Client.ApiClient.Do | internal/controller/reconcileloops/databaseinitjob.go:41-44 | a request that the machine would send; whatever others do, the state stays one the machine reaches by the recorded steps |
| Client.ApiClient.UpdateStatus | internal/controller/odoodeployment_controller.go:131 | a status write refreshes the in-memory resource as the machine does, and keeps its status |
| Reconcilers.OdooAdminPasswordSecretReconciler.Reconcile | internal/controller/reconcileloops/adminpassword.go:28-81 | returns a secret with a password, or has written the status once and failed; undisturbed, the secret is the one stored before if that has a password, and otherwise holds exactly the text drawn meanwhile |
| Reconcilers.OdooConfigSecretReconciler.GetDbConnectionDetails | api/v1/odoodeployment_funcs.go:87-139 | reads the seven fields in order and stops at the first error; undisturbed, each field holds what its own reference yields or what the specification says, and without faults the error is the first problem there is |
| Reconcilers.OdooConfigSecretReconciler.Reconcile | internal/controller/reconcileloops/configsecret.go:30-87 | on success, undisturbed, a configuration is stored, and it is the one the current secrets and specification call for if and only if the resource does not read its own configuration secret |
| Reconcilers.OdooFilestoreReconciler.Reconcile | internal/controller/reconcileloops/odoofilestore.go:28-60 | on success, undisturbed, claim and configuration exist under the recorded names |
| Reconcilers.OdooDatabaseInitJobReconciler.Reconcile | internal/controller/reconcileloops/databaseinitjob.go:33-136 | without a requeue nothing is missing; undisturbed and without an error, a requeue without a time means the recorded Job has failed; the status is the old one, the one after a success, or the one that records the new Job |
| Reconcilers.OdooDatabaseInitJobReconciler.RecordSuccess | internal/controller/reconcileloops/databaseinitjob.go:54-92 | the recorded modules become installed ones and the record is cleared; the requests are the listing, the deletion of the listed pods in order, the deletion of the Job and the status write, and the first failure ends them |
| Reconcilers.OdooDatabaseInitJobReconciler.StartJob | internal/controller/reconcileloops/databaseinitjob.go:109-133 | the status records exactly the modules of the created Job, whose command is told to install these and runs their comma pieces; the requests are the creation and one status write; a failed creation leaves the status alone |
| Reconcilers.DeploymentReconciler.Reconcile | internal/controller/reconcileloops/deployment.go:30-72 | on success, undisturbed, the stored Deployment is the template |
| Reconcilers.OdooServiceReconciler.Reconcile | internal/controller/reconcileloops/httpservice.go:30-80 | on success, undisturbed, the stored service serves the port of its name, and an update keeps the four fields the server has allocated; the poll service of pollservice.go:30-81 is the same code with another name and port |
| Reconcilers.OdooDeploymentReconciler.Reconcile | internal/controller/odoodeployment_controller.go:92-221 | a pass ends and is a run of the machine; undisturbed it ends for good only in a steady store and, unless the resource reads its own configuration secret, from a steady store changes no child; without faults it moves the installation as the convergence model says |

## Left out

- Process set-up in cmd/main.go, manager, flags, logging, metrics and leader election: plumbing.
- Stale caches, and two leaders at once: reads see the latest store, and passes over one resource do not overlap.
- Owner references, events of owned objects and garbage collection: the code ignores the results of the library calls.
- Conditions and their timestamps: a status write is one versioned write of the rest of the status.
- The status write after a failed fetch (odoodeployment_controller.go:106-109): it writes an empty object and has no effect.
- The password generator: any non-empty text.
- Constant parts of pods, quantities and storage classes: equal-or-not values, or absent.
- The watches of claims, Deployments and services: their filters have the shape of the one for secrets.
- Events of the resource itself, and the queue: only what a pass asks for by its result is modelled.
- Deep copies, permissions and manifests: no property to prove.
- Exactly-once installation and unconditional progress: the code does not give them.
- Safety.InstalledWasExecuted: others may edit, create and delete anything except the init Job and the status, because deleting the Job from outside or writing the status by hand can make any record true or false.
- Children.PodsReferToExisting: does not cover others deleting the claim or the configuration secret.
- Liveness.InstallationConverges: others may not create the claim between the lookup and the creation of a pass (`Simulation.ClaimRace`), nor touch the secrets it reads; either can make passes fail without end.
- Isolation.InterleavingIsSequential: covers two resources with default admin secrets that read none of each other's secrets; named admin secrets can be shared.
- Reconcilers.OdooConfigSecretReconciler.GetDbConnectionDetails: a field taken from the specification is a step without a request, at which others may act.
- Reconcilers.OdooServiceReconciler.Reconcile: one class stands for the two service reconcilers of the source.
