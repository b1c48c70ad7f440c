# A model of the Splunk AI operator

The operator runs two controllers over one Kubernetes API. The AIPlatform controller executes an
ordered list of fallible stages, creates and prunes one AIService per feature, inspects those
children and publishes conditions. The AIService controller (SAIA feature) waits for two of the
platform's own stage conditions, then runs its own stages, among them a schema Job tracked in
`status.schemaJobId`. Admission webhooks default and check both resources. This project models the
shared store, both controllers, the webhooks and the Ray builders, and proves what they guarantee.

`dafny verify dfyconfig.toml` checks everything.

## How the model is built

| file | content |
|---|---|
| `Api.dfy`, `Names.dfy` | resources, the store of one namespace, generated names |
| `Admission.dfy`, `Webhooks.dfy`, `Enrichment.dfy` | defaulting, validation with its error lists, Splunk enrichment |
| `ApiServer.dfy` | what one API call does: admission, optimistic concurrency, finalizers, no-op writes |
| `Features.dfy`, `StageRunner.dfy`, `PlatformRun.dfy`, `SaiaRun.dfy`, `Controllers.dfy` | specification functions of the controllers |
| `Cluster.dfy` | the imperative form: a class whose maps the API calls, stages, stage loops and both `Reconcile` methods update in place, each proved equal to its specification function |
| `Protocol.dfy` | both controllers and the environment as one state machine, interleaved stage by stage |
| `Safety.dfy`, `Readiness.dfy`, `CreateOnly.dfy`, `Wakeups.dfy` | the invariant of every run, and what it gives: readiness, Jobs, create-only fields, what a call without a retry leaves behind |
| `StageEffects.dfy`, `StepEffects.dfy` | what every stage, and every fetch and status write around the stages, leaves behind, stated on conditions, flags and fields without the specification functions |
| `Gates.dfy` | over all runs, what a run must have read before it went on: an open gate, a completed Job |
| `Provenance.dfy`, `Immutability.dfy`, `Hopeless.dfy`, `FailedJobs.dfy` | where each stored AIService comes from, and over all runs when its updates are refused and what keeps it from being Ready |
| `Deletion.dfy`, `Draining.dfy` | who releases a platform, and the measure that brings a deletion to its end |
| `Turns.dfy`, `ServiceLiveness.dfy`, `PlatformLiveness.dfy`, `Liveness.dfy`, `AnyOrder.dfy`, `FreshStart.dfy`, `Overlooked.dfy`, `Quiescence.dfy` | whole reconciles as runs of the machine; bring-up by schedule and in any order, the run that overlooks a panic, coming to rest |
| `WorkerEnv.dfy`, `Scale.dfy`, `RayConditions.dfy`, `ServeConfig.dfy` | the Ray builders |
| `Announcements.dfy` | the events of the Ray conditions across reconciles |

The machine lets each controller have one run in flight (`TotalWorker` is 1 in
`api/v1/common_types.go:5`). Between any two stages the environment may complete, fail or delete
Jobs, issue certificates, delete Deployments and StatefulSets, let users create, edit and delete
either resource, and let other controllers release their own finalizers. Every client call may fail
and every status write may be lost, because both reconcilers ignore the error of their deferred
write. What lies outside the store (environment variables, Splunk custom resources and token
sources, the Ray snapshot, the stages that only emit manifests) enters as a `World` value of each
step. A panic is an outcome of its own: it unwinds past the append of a condition, while the
deferred write still publishes the conditions collected so far.

Library behaviour is stated once, as functions: `CreateOrUpdate` is get, mutate, then create,
update or nothing; `SetControllerReference` refuses an object another owner controls; an update
with a stale version conflicts; an object that is being deleted disappears with its last finalizer;
`SetStatusCondition` upserts by type. Reads see the store as it is: the informer cache's delay is
not modelled.

## What the proofs found in the code

* **A panic makes a platform Ready over a child that is not.** `reconcileSAIAService` writes
  annotations into a nil map (`pkg/ai/features/saia/impl.go:820-828`), so any AIService annotation
  other than the two it skips panics the run. The deferred write then publishes seven passed stages,
  no error and no Ready, and `CheckAIServiceStatus` only looks for errors. `PanickedChildOverlooked`
  is a run from an empty namespace in which that happens, for every platform the operator can bring
  up; `OrdinaryChildOverlooked` is one such platform. Readiness is sound up to exactly these panics
  (`ReadinessOverRuns`, `ServiceStagePanicsIff`, `PanicPassesInspection`, `ReadinessSoundWhenClean`),
  and bring-up always ends with a Ready platform but with a Ready child if and only if its
  annotations are clean (`BringUpEndsReady`).
* **An admitted platform whose children are refused.** The platform webhook asks for `secretRef.name`
  only with an explicit endpoint; enrichment fills the endpoint, and the service webhook then asks
  for it. Likewise for `dnsNames` and for `issuerRef` when only `certificateRef` is set
  (`GeneratedChildAdmittedIff`, `AdmittedPlatformWithRefusedChild`). As long as its users give it only
  such specs, no run ever shows such a platform Ready (`NeverReadyOverRuns`).
* **A stranger's AIService blocks a child for as long as it is stored.** An AIService created under a
  child's name for another platform or storage path may be claimable, but no step ever rewrites its
  two immutable fields (`FixedForLife`), so every upsert of that child is refused until somebody
  deletes it (`StrangerBlocksUpserts`, and exactly then: `UserChildUpsertsIff`). Without such an object
  immutability never refuses an update, over any run in one platform lifetime
  (`UpdatesNeverHitImmutability`).
* **A deletion can still gain children.** A run that fetched the platform before its deletion and has
  not reached the AIService stage writes children owned by a platform in deletion. It gains a child
  exactly when the upsert loop gets as far as it, just as without the deletion (`OwnedGrowsIff`,
  `GainedInDeletionIff`; `DeletionDuringRunAddsChild` is such a run for every platform that could come
  up). Counting what is pending, what is left to do never increases but by what users create
  themselves (`PotentialNeverGrows`), and from any sound state the platform is released in boundedly
  many steps (`ReleasedFromAnywhere`).
* **A lost Ready is not retried.** The platform reconciler ignores the error of its deferred write and
  then returns without asking for a retry, so a lost write of Ready=True leaves the old status in
  place (`PlatformReturnsAtRest`). The service controller's call ends without a retry only if its
  last write landed (`ServiceReturnsAtRest`).
* **The two controllers can undo each other forever.** With an empty `serviceAccountName` the child
  writes a name into its own spec and the platform writes the empty one back, round after round
  (`QuiescentIff`, `NoCommonFixedPoint`).
* **A query in the storage path hides the applications.** The storage client parses the path as a URL
  after `/ray-services/...` was appended to it, so a `?` or `#`, which both the CRD pattern and the
  webhook allow, swallows the folder: applications and artifacts are then looked for in one place
  (`FoldersMeetIff`). If it comes right behind the bucket's slash, as in `s3://b/?x`, the client has
  no prefix and the working directory names another key than the one probed (`PrefixLostIff`,
  `WorkingDirsExistIff`, `QueryAtRoot`). The stage that would run this code,
  `ReconcileServeConfigMap`, is commented out (`pkg/ai/reconciler.go:66-68`): no reconcile reaches it
  today.
* **The vector database's gate ignores its pods.** The comment at
  `pkg/ai/features/saia/impl.go:243` says the condition shows that the database is running. The
  stage behind it (`pkg/ai/weaviate.go:20-51`) succeeds whenever the StatefulSet exists, and the
  WeaviateReady condition it computes is replaced by the deferred write
  (`pkg/ai/reconciler.go:51-52`). The model follows the code: `RunIgnoresReplicas`.
* **Events repeat.** The builder compares a snapshot with the condition list it finds
  (`pkg/ai/raybuilder/builder.go:400-549`), but what it finds in a reconcile is the stage list an
  earlier deferred write stored (`pkg/ai/reconciler.go:51-52`). That list never holds RayClusterReady
  or RayServeRouteReady, so each reconcile that finds them ready announces it again and none ever
  announces the opposite (`NamelessRepeat`). RayServiceReady, WeaviateDatabaseReady and Ready share
  their names with stage conditions: while those are True, the builder never announces them ready and
  announces every unhealthy snapshot again (`SteadyRepeat`). `AcrossAlternatesIff` is the exact
  condition over any sequence of reconciles. On one list, successive calls announce changes only,
  except that a snapshot that cannot be collected resets two conditions without an event
  (`EventsAlternateIff`).
* **Names.** `toCamelCase` panics on exactly the names with a dangling underscore (`SplittableIff`);
  like its only caller it is not reached today. Child names of two platforms collide exactly when one
  feature name is a hyphenated extension of the other (`ChildNamesCollideIff`), which the two names
  the CRD allows are not.

## Model

| member | source | states |
|---|---|---|
| StageRunner.ReadPublished | pkg/ai/reconciler.go:82-113 | Reading a published list back: Ready is there exactly when every stage succeeded, an error entry exactly when one failed, passed stages are True and later ones absent, types are pairwise distinct |
| StageRunner.LoopRefines | pkg/ai/reconciler.go:82-115 | For any stages: the loop executes exactly the stages up to the first failure, in order, with their effects on store and copy, and publishes exactly that; Ready iff all passed |
| PlatformRun.RunRefines | pkg/ai/reconciler.go:61-115 | The platform's loop over its eleven stages is that loop (SaiaRun.RunRefines is the same instance for the nine SAIA stages, pkg/ai/features/saia/impl.go:53-101) |
| PlatformRun.FinishWellFormed | pkg/ai/reconciler.go:82-115 | From any point of the loop the rest of it ends with the list that describes how far it got (SaiaRun.FinishWellFormed likewise) |
| Safety.Invariant | pkg/ai/reconciler.go:40-116 | In every run from an empty namespace, under every interleaving and failure: stored specs are admitted and defaulted, no object lingers without a finalizer, children's conditions are explained by observed Jobs or panics, Job counts balance, selectors match |
| Safety.NextSound | internal/controller/aiservice_controller.go:91-203 | Each single step of either controller or of the environment keeps that invariant, local copies included |
| Readiness.ReadinessOverRuns | pkg/ai/reconciler.go:82-112 | Whenever a platform publishes Ready=True, each child its status stage listed had published nothing, or was Ready with its Job observed complete, or showed exactly the seven passed stages of a run that panicked after observing its Job |
| Readiness.ReadinessSoundWhenClean | pkg/ai/reconciler.go:238-273 | For a child to which users give only annotations the operator skips, only the first two cases are left |
| Readiness.PanicPassesInspection | pkg/ai/reconciler.go:256-268 | A finished run published neither an error nor Ready exactly when it panicked: such a child passes the platform's inspection |
| Readiness.ServiceStagePanicsIff | pkg/ai/features/saia/impl.go:820-828 | A SAIA stage panics exactly when it is the Service stage and the child carries a foreign annotation |
| Overlooked.PanickedChildOverlooked | pkg/ai/reconciler.go:238-273 | For every platform the operator can bring up and every annotation that is not skipped there is a run from an empty namespace after which the platform publishes Ready=True having just listed a child that is not Ready and whose run panicked |
| Overlooked.OrdinaryChildOverlooked | pkg/ai/features/saia/impl.go:820-828 | That run for one concrete platform |
| Readiness.JobMachineOverRuns | pkg/ai/features/saia/impl.go:511-583 | In every reachable state schemaJobId is empty or the one fixed name, and the creations issued by the hook stage equal the external deletions plus one if the Job is live |
| Readiness.DeploymentsFollowJobs | pkg/ai/features/saia/impl.go:53-91 | A Deployment is written only by the deployment stage of its own child's run, after that run read a completed Job |
| Gates.EveryStagePassed | pkg/ai/features/saia/impl.go:53-101 | Whatever is interleaved, a run in flight that is past a stage passed that very stage in an earlier step of the same run, with the same platformRef until it has published |
| Gates.RunsSawOpenGate | pkg/ai/features/saia/impl.go:222-246 | Over every run of the machine: a child's run that is past Validate read, in its own Validate step, the stored platform its platformRef names, with some RayServiceStatusReady and some WeaviateDatabaseStatusReady condition True in that platform's list and both service names not empty |
| Gates.RunsSawCompletion | pkg/ai/features/saia/impl.go:532-541 | A run that is past its hook read a Job of which a true Complete came before any true Failed |
| Gates.JobsFollowGates | pkg/ai/features/saia/impl.go:511-583 | Over every run: a Job appears only in the hook stage of a child's run, under that child's Job name, and that run saw its gate open before |
| Gates.DeploymentsFollowGates | pkg/ai/features/saia/impl.go:586-785 | Over every run: a Deployment is written only by the deployment stage of a run that saw its gate open and read such a Job, only under that child's name, and carries what the child asks for |
| Gates.ObservedWasRead | pkg/ai/features/saia/impl.go:532-541 | What Readiness calls an observed Job: one of the child's own hook stages read a Job of which a true Complete came before any true Failed |
| StageEffects.ServiceStageIs | pkg/ai/features/saia/impl.go:43-102 | For every store, copy and environment, each of the nine stages of a child's run: when it passes, fails or panics, what it leaves in the store and in the copy field by field, and the condition it reports under its literal name |
| StageEffects.GateIs | pkg/ai/features/saia/impl.go:222-246 | The gate is open iff the named platform is stored in this namespace, its list holds both conditions as True and both names are not empty |
| StageEffects.ValidatePassesIff | pkg/ai/features/saia/impl.go:105-208 | Validate passes iff the hook image is set, the gate of the named platform is open (or, without one, both URLs are given), the task volume has a path, and a Splunk configuration that is used resolves with a readable token |
| StageEffects.ValidateFills | pkg/ai/features/saia/impl.go:131-205 | What a passing Validate puts into the copy: each URL left empty from its own status field of the platform, default requests, limits and replicas, the enriched configuration; everything else as it was |
| StageEffects.EnrichmentIs | pkg/splunkutils/splunk_config.go:23-58 | Enrichment passes iff the configuration has an endpoint or a reference that resolves and its token can be read; the endpoint is its own, or the one built from the reference's kind, name and namespace; the token is the one of its secret source |
| StageEffects.EndpointText | pkg/splunkutils/endpoint_resolver.go:43-80 | The resolved endpoint as text: splunk-NAME-standalone-service for a Standalone, splunk-NAME-indexer-service for an IndexerCluster, in the reference's namespace or else the own one, port 8089 |
| StageEffects.AccountIs | pkg/ai/features/saia/impl.go:263-293 | A named account is left alone; an unnamed one becomes NAME-sa in the stored spec and the copy, with the account created, or the stage fails |
| StageEffects.CertificateIs | pkg/ai/features/saia/impl.go:432-508 | With operator-terminated mTLS the certificate has the copy's secret, issuer and DNS names and keeps its flags, and the stage passes iff some flag is a true Ready; otherwise nothing happens |
| StageEffects.VerdictIs | pkg/ai/features/saia/impl.go:532-541 | For every list of Job conditions: completed iff some true Complete has no true Failed before it, failed iff some true Failed has no true Complete before it |
| StageEffects.HookIs | pkg/ai/features/saia/impl.go:511-583 | The hook by what it finds: no vector database, a readable Job decided by all of its conditions as above, a failing lookup, or a missing Job created without conditions and remembered in schemaJobId |
| StageEffects.DeploymentIs | pkg/ai/features/saia/impl.go:586-785 | A passing stage stores the copy's replicas and account, a TLS secret iff mTLS is enabled with operator termination, the four base labels overlaid by the child's, the three base annotations overlaid by those not skipped, its pod labels, and the selector only if there was none |
| StageEffects.PlatformStageIs | pkg/ai/reconciler.go:61-115 | The same as ServiceStageIs for the eleven stages of the platform in every store of admitted objects; a passing AIService stage leaves every name as FeaturesByName says, and what the inspection lists are the owned children as stored |
| StageEffects.PlatformValidateIs | pkg/ai/validate_defaults.go:18-54 | Passes iff storage has a path and the Splunk configuration resolves; scheduling left open is filled in and nothing that was set changes |
| StageEffects.VectorIs | pkg/ai/weaviate.go:54-243 | A passing stage leaves one replica; a new StatefulSet has no claim and the given volume, or exactly one claim with the given size (50Gi if empty) and class; an existing one keeps selector, service name and claims and gets the given volume |
| StageEffects.StatusStagesAre | pkg/ai/weaviate.go:20-51 | The two status stages: when they pass and which single name each writes into the copy |
| StageEffects.InspectionIs | pkg/ai/reconciler.go:238-273 | Passes iff the listing works and no AIService this platform controls shows a False condition with reason Error |
| StepEffects.PlatformFetchIs | internal/controller/aiplatform_controller.go:78-122 | From every sound state: a fetch starts a run on the stored object, or for a platform in deletion asks exactly the owned children to go, or without any removes exactly this operator's finalizer |
| StepEffects.PlatformPublishIs | pkg/ai/reconciler.go:43-57 | The deferred write replaces the conditions and the three collected fields of the latest object and nothing else, or is lost |
| StepEffects.ServiceFetchIs | internal/controller/aiservice_controller.go:91-203 | From every sound state: a fetch starts a run on the stored AIService, or for one in deletion removes exactly this operator's finalizer, or does nothing |
| StepEffects.ServicePublishIs | pkg/ai/features/saia/impl.go:43-52 | The deferred status write lands only on the version it was made from and changes only the status; the caller goes on with the stored object, or with its own copy if the write was lost |
| StepEffects.StatusWriteIs | internal/controller/aiservice_controller.go:242-294 | The last write keeps the list as it is if it has an entry of type Ready and otherwise appends exactly a true one; spec and metadata but for the version stay |
| CreateOnly.FixedOverRuns | pkg/ai/weaviate.go:117-191 | Over every run, as long as the object is not deleted, a Deployment's selector and a StatefulSet's selector, service name and claims are those it was created with |
| CreateOnly.SelectorsMatchOverRuns | pkg/ai/features/saia/impl.go:719-737 | In every reachable state each selector equals the labels of its pod template |
| CreateOnly.RunIgnoresReplicas | pkg/ai/weaviate.go:20-51 | Two stores that differ only in ready replicas lead to the same platform run and the same published conditions |
| Deletion.ReleasedOnlyWhenChildless | internal/controller/aiplatform_controller.go:91-112 | Over all steps, the protecting finalizer disappears only in a fetch of that platform, in deletion, whose owned listing was empty; the others stay in order |
| Draining.OwnedGrowsIff | pkg/ai/reconciler.go:118-190 | For every sound state and every step, deletion or not: a platform gains the child n iff a user creates a valid AIService n that names it as controller, or a run of it executes its AIService stage and no call, owner, immutable field or validation refuses the first feature that wants n or any feature before it |
| Draining.UpsertsOwnIff | pkg/ai/reconciler.go:124-167 | The upsert loop adds exactly the children it reaches in that sense, also when it fails later |
| Draining.GainedInDeletionIff | internal/controller/aiplatform_controller.go:91-121 | From every sound state in front of the AIService stage: if the user deletes the platform there, the stage gives the platform in deletion the child n iff its loop reaches n, and iff it would have without the deletion |
| Draining.OwnedNeverGrows | pkg/ai/reconciler.go:118-190 | Nothing but those two kinds of step can add an owned child, the stage only under desired names |
| Draining.RunsStartBeforeDeletion | internal/controller/aiplatform_controller.go:91-112 | A run in flight always fetched its platform before the deletion |
| Draining.DeletionDuringRunAddsChild | internal/controller/aiplatform_controller.go:91-121 | The condition is met: a run for every platform that could come up, deleted during its first reconcile, in which the stage gives it all its children |
| Draining.OwnedNeverGrowsOverRuns | internal/controller/aiplatform_controller.go:214-235 | Over any run of a deletion, whatever is in flight, the owned set stays within what it was, the desired names of a run that has not reached the AIService stage, and the names under which users create an AIService with the platform as controller |
| Draining.MeasureNeverGrows | internal/controller/aiplatform_controller.go:214-235 | Counting owned children, their finalizers and missing deletion marks: no step other than the two that can add a child increases the measure, and any progress on a child decreases it |
| Draining.ProductiveDecreases | internal/controller/aiservice_controller.go:136-160 | A fetch of the platform that can delete an unmarked child, a fetch of a marked child the operator holds, and the release of a foreign finalizer each decrease it |
| Draining.ProductiveStepsBounded | internal/controller/aiplatform_controller.go:91-112 | In any run without growth, productive steps and the measure left are together at most the measure at its start |
| Draining.SomeProductive | internal/controller/aiplatform_controller.go:214-235 | As long as something is owned, one of these steps is possible |
| Draining.ReleasedWithinMeasure | internal/controller/aiplatform_controller.go:214-235 | From every sound state with nothing in flight a platform in deletion is released within its measure plus one steps, foreign finalizers being released by their controllers |
| Draining.PotentialNeverGrows | internal/controller/aiplatform_controller.go:91-112 | Counting also what a run in flight may still add: while a platform is being deleted a step increases what is left to do at most by the weight of an object a user creates under a pending name or with the platform as controller, the AIService stage not at all; and any progress on an owned child decreases it |
| Draining.DeletionProgressBounded | internal/controller/aiplatform_controller.go:91-112 | Over every run of a deletion, whatever is in flight, productive steps are at most what was left to do at its start plus the weight of what users added in that way |
| Draining.ReleasedFromAnywhere | internal/controller/aiplatform_controller.go:214-235 | From every sound state, with runs of either controller in flight, a platform in deletion is released within the steps that finish them, what was left to do at the start, and one more |
| Deletion.DrainsIff | internal/controller/aiservice_controller.go:136-160 | How fast the operator does it alone: one reconcile of the platform, one of each owned AIService and one more release the platform if and only if no owned AIService carries a foreign finalizer |
| Protocol.RemoveAllConcat | internal/controller/aiservice_controller.go:335-343 | Removing a finalizer keeps the others in order |
| Features.FeaturesConverge | pkg/ai/reconciler.go:118-190 | After success every desired child is owned and has each field of its spec, and its two labels, as the platform and the last feature of its name want them (version, account, storage, Splunk, vector database, one replica, metrics on 8080 at /metrics, mTLS, pull secrets), with identity, status, annotations and foreign labels kept; other owned children are gone or marked; nothing else changed |
| Features.UpsertAllSpec | pkg/ai/reconciler.go:124-167 | The upsert loop key by key, with the same field-by-field content: last feature wins, other keys untouched |
| Features.FeaturesByName | pkg/ai/reconciler.go:118-234 | The whole of a success for any name, on literal names and fields: the child of a feature as above, a child of this platform that no feature wants deleted or marked, any other AIService the same |
| Features.PruneByName | pkg/ai/reconciler.go:169-187 | The pruning for any name, failures included: succeeds iff no unwanted owned child has a failing delete; deletes the unwanted ones, or on failure those reached before it |
| Features.SecondRunIdle | pkg/ai/reconciler.go:118-190 | A second run leaves the store as it is whatever calls fail, and succeeds if none does |
| Features.EveryFeatureSettled | pkg/ai/reconciler.go:133-162 | After success each feature's child is valid, has those fields and labels, and is exactly what the next upsert would write |
| Features.ForeignChildrenUntouched | pkg/ai/reconciler.go:135-137 | However a run ends, an AIService another owner controls is untouched |
| Names.ChildNamesCollideIff | pkg/ai/reconciler.go:125 | Two platforms can want one child name iff one feature name is a hyphenated extension of the other |
| Names.HyphenFreeChildNamesInjective | api/v1/aiplatform_types.go:177 | For feature names without a hyphen the child name determines platform and feature |
| Admission.GeneratedChildAdmittedIff | pkg/ai/reconciler.go:192-234 | For a defaulted, admitted and enriched platform, its built and defaulted child is admitted iff secretRef is named and, with mTLS, dnsNames is not empty and termination is mesh or an issuer is named |
| Admission.AdmittedPlatformWithRefusedChild | internal/webhook/v1/aiplatform_webhook.go:264-300 | A platform the webhook accepts whose child it refuses |
| Admission.StorageFixedOverHistory | internal/webhook/v1/aiplatform_webhook.go:195-208 | Path and region are constant over any history of accepted updates |
| Admission.ChildUpdatesNeverHitImmutability | internal/webhook/v1/aiservice_webhook.go:234-247 | The step on specs alone: between two specs built from one such history, an update is accepted iff the creation would be |
| Provenance.StepProvenance | pkg/ai/reconciler.go:118-190 | Over every step each stored AIService has the immutable fields it had before, or was created in this step by a user with that spec, or was written in it by the AIService stage of a run that desires its name, with that run's fields |
| Immutability.KeySoundOverRuns | internal/webhook/v1/aiservice_webhook.go:234-247 | Over every run in which users keep one storage path under the platform's name and create no AIService under the child's name for another platform or path: stored child, stored platform and the copy of a run in flight agree on platformRef.name and taskVolume.path |
| Immutability.UpsertSucceedsIff | pkg/ai/reconciler.go:128-162 | In every sound store an upsert succeeds iff the call works, the existing child may be claimed and carries this platform's name and storage path, and the built spec is valid |
| Immutability.UpsertsSucceedIff | pkg/ai/reconciler.go:124-167 | The same for the whole upsert loop, read off the store it starts from |
| Immutability.UpdatesNeverHitImmutability | pkg/ai/reconciler.go:118-190 | Over every such run, whenever a platform's run is in flight, no upsert it can issue is refused for immutability: each update is accepted iff its spec is valid, and the loop succeeds iff nothing else stands in its way |
| Immutability.FixedForLife | internal/webhook/v1/aiservice_webhook.go:234-247 | Over every run from a sound state during which an AIService stays stored, its platformRef.name and taskVolume.path stay what they were |
| Immutability.StrangerBlocksUpserts | internal/webhook/v1/aiservice_webhook.go:234-247 | From every sound state whose stored child carries another platform name or storage path, and after any steps during which it stays stored, every upsert of it fails and writes nothing, and every ReconcileFeatures with that feature fails |
| Immutability.UserChildUpsertsIff | internal/webhook/v1/aiservice_webhook.go:234-247 | If a user creates a valid AIService under a free child name, then as long as it stays stored an upsert succeeds iff nothing else stands in its way and the user gave it this platform's name and storage path |
| Immutability.ClaimableStranger | pkg/ai/reconciler.go:135-137 | Such an object, of either kind, can exist without a controller: the claim does not refuse it |
| Hopeless.FeaturesRefused | pkg/ai/reconciler.go:118-190 | If the service webhook refuses the built children, ReconcileFeatures fails in every store of admitted objects, also over children that already exist |
| Hopeless.NeverReadyOverRuns | pkg/ai/reconciler.go:40-116 | Over every run in which users give a platform only specs with features and refused children, it never shows Ready=True and never is about to publish it |
| Enrichment.EnrichStable | pkg/splunkutils/splunk_config.go:23-49 | Enriching what was enriched changes nothing, even if the custom resource is gone |
| Enrichment.SplunkObject.ValidateAndEnrich | pkg/splunkutils/splunk_config.go:23-49 | Assigns endpoint and token in place as the specification says, keeping the endpoint when the token lookup fails |
| Enrichment.SplunkObject.EnsureToken | pkg/splunkutils/splunk_config.go:51-58 | Assigns the token or fails and leaves the configuration alone |
| Turns.PlatformTurnIs | pkg/ai/reconciler.go:40-116 | An uninterrupted platform reconcile, as a run of the machine, is its stage loop followed by the deferred write |
| Turns.ServiceTurnIs | pkg/ai/features/saia/impl.go:43-102 | The same for the service, with its two status writes |
| PlatformLiveness.PlatformTurnOutcome | pkg/ai/reconciler.go:61-103 | With working infrastructure one platform reconcile opens the gates its children wait on even while a child is failing, converges the children, and is Ready iff no owned child shows an error: no circular wait |
| PlatformLiveness.RefusedTurn | pkg/ai/reconciler.go:118-167 | In a store of admitted objects, if the children are not admissible, stored already or not, or the Splunk configuration does not resolve, a turn writes no child and never ends Ready |
| ServiceLiveness.ServiceTurnOutcome | pkg/ai/features/saia/impl.go:222-260 | With open gates one reconcile of the child waits for its certificate, else for its Job, else ends without error and Ready iff its annotations are clean; nothing beside the child changes |
| Liveness.SettlesIdle | pkg/ai/reconciler.go:82-115 | From every sound state, finishing what is in flight, in boundedly many steps, leaves no run |
| Liveness.BringUpEndsReady | pkg/ai/reconciler.go:61-112 | After every run in which users keep one storage path under the platform's name and create no AIService under its children's names for another platform, and once what was in flight has finished: if the platform is live with admissible, claimable children, its Splunk configuration resolves, its SAIA child is not in deletion, that child's Job has not failed, and no other child of it shows an error, a bounded schedule in a world without failures ends with the platform Ready; its SAIA child is Ready iff its annotations are clean, and otherwise shows the trace of its panic |
| AnyOrder.MoveForward | pkg/ai/reconciler.go:61-112 | Once a platform turn has got the bring-up under way: a measure of what it still waits for is not increased by any failure-free turn of platform or child, certificate issue or Job completion, and decreased by the one it waits for |
| AnyOrder.FairBringUp | pkg/ai/features/saia/impl.go:222-260 | Under the hypotheses of BringUpEndsReady, after one platform turn any six rounds of these four moves, in whatever order and number within a round, end with the platform Ready and its SAIA child Ready iff its annotations are clean; further moves leave it so |
| FailedJobs.FailedJobBlocksReady | pkg/ai/features/saia/impl.go:511-583 | From every sound state and over every run during which the child's Job stays failed, unless a run in flight had already seen it completed: no run of the child ends without error, and a child whose Job was never observed complete shows neither Ready nor a panic's trace |
| FreshStart.ComesUpIff | internal/webhook/v1/aiplatform_webhook.go:123-170 | The same schedule brings a newly created platform with a SAIA feature up with its child iff its webhook accepts it, its Splunk configuration resolves and the service webhook accepts its children |
| Quiescence.QuiescentIff | pkg/ai/features/saia/impl.go:267-274 | From every such settled state and after any number of rounds of the two controllers: another platform turn changes no AIService, the specs are those of the first round, and the child's turn keeps every spec iff its feature names an account; otherwise the two never come to rest |
| Quiescence.NoCommonFixedPoint | pkg/ai/reconciler.go:219 | With an unnamed account no store is left alone by both controllers |
| Quiescence.NamedRunWritesNothing | pkg/ai/features/saia/impl.go:263-293 | A run of a child with an account name writes no AIService, however it goes |
| Controllers.PlatformDoneIff | internal/controller/aiplatform_controller.go:78-122 | No retry is asked for iff the platform is gone, is in deletion and no longer held, or every stage succeeded |
| Controllers.RequeuesIff | internal/controller/aiplatform_controller.go:91-112 | A call comes back later without an error iff a platform in deletion, still held, finds children, or an AIService has a feature without a handler |
| Controllers.DonePublishesReady | internal/controller/aiplatform_controller.go:114-121 | If the write lands, no retry is asked for iff Ready=True is what was published |
| Controllers.ServiceDoneIff | internal/controller/aiservice_controller.go:91-203 | No retry is asked for iff the AIService is gone, is in deletion and no longer held, or every SAIA stage succeeded and the last write is not lost: within one call the local copy keeps the stored version, so no conflict can stop it |
| Controllers.ServiceDoneShowsReady | internal/controller/aiservice_controller.go:242-294 | For a live SAIA child, no retry implies that its stored status shows Ready, and if no status write is lost the two are the same |
| Wakeups.ServiceReturnsAtRest | internal/controller/aiservice_controller.go:91-203 | Over all runs and interleavings, real conflicts included: a call that returns without a retry leaves the AIService gone, or in deletion and no longer held, or stored under the same uid, Ready, with its Job observed complete |
| Wakeups.PlatformReturnsAtRest | internal/controller/aiplatform_controller.go:114-121 | Over all runs: a platform call that returns without a retry leaves it gone, or in deletion and released, or is publishing Ready; if that write lands the store shows it, and if it is lost nothing changes and nobody retries |
| Wakeups.ServiceTurnReturns | internal/controller/aiservice_controller.go:91-203 | What the machine says a call returned is the result of the whole call |
| Cluster.ContainsString | internal/controller/aiservice_controller.go:326-333 | Membership |
| Cluster.RemoveString | internal/controller/aiservice_controller.go:335-343 | The list without that entry, order kept |
| Cluster.Cluster.UpsertService | pkg/ai/reconciler.go:128-162 | CreateOrUpdate of a child: the store and outcome of the specification, whose stored child UpsertAllSpec and FeaturesByName fix field by field |
| Cluster.Cluster.ReconcileFeatures | pkg/ai/reconciler.go:118-190 | The upsert loop over the features and the prune loop over a listing in any order; a success in a store of admitted objects leaves every name as FeaturesByName says, field by field |
| Cluster.Cluster.PruneChildren | pkg/ai/reconciler.go:169-187 | Deletes undesired children one by one up to the first failing delete |
| Cluster.Cluster.CheckAIServiceStatus | pkg/ai/reconciler.go:238-273 | Fails iff some owned child shows an error condition |
| Cluster.Cluster.FinalizePlatform | internal/controller/aiplatform_controller.go:214-235 | Deletes every owned child whose delete call works, and is done iff the listing was empty |
| Cluster.Cluster.ReconcileWeaviateDatabase | pkg/ai/weaviate.go:54-243 | Account and StatefulSet as the specification says; a passing call leaves one replica and the claim, size, class and volume that VectorIs spells out, create-only fields only on creation |
| Cluster.Cluster.ReconcileStages | pkg/ai/reconciler.go:82-115 | The stage loop and the deferred write produce the store and status of the specification |
| Cluster.Cluster.ReconcilePlatform | internal/controller/aiplatform_controller.go:78-122 | One whole call: store and result of the specification |
| Cluster.Cluster.PublishPlatform | pkg/ai/reconciler.go:43-57 | Replaces the whole status of the latest object, or nothing if the write is lost |
| Cluster.Cluster.PlatformGate | pkg/ai/features/saia/impl.go:222-246 | Nothing is missing iff the named platform is stored here, its list shows both conditions as True and both names are set, each found by walking the list; otherwise the first thing missing |
| Cluster.Cluster.HasTrueCondition | pkg/ai/features/common/utils.go:17-24 | Found iff some condition of that type is True |
| Cluster.Cluster.ValidateAIService | pkg/ai/features/saia/impl.go:105-208 | Gating, derived URLs, defaults and enrichment of the copy, in order, keeping what was filled in before an error; passes for a child that names a platform only if its gate is open |
| Cluster.Cluster.ReconcileServiceAccount | pkg/ai/features/saia/impl.go:263-293 | Writes the derived name with the rest of the copy and refreshes it, as AccountIs spells out |
| Cluster.Cluster.ReconcileCertificate | pkg/ai/features/saia/impl.go:432-508 | Stores the certificate with the copy's secret, issuer and DNS names and passes iff some flag is a true Ready |
| Cluster.Cluster.JobEnded | pkg/ai/features/saia/impl.go:532-541 | Walks all conditions: completed iff some true Complete has no true Failed before it, failed iff the other way round |
| Cluster.Cluster.ReconcilePostInstallHook | pkg/ai/features/saia/impl.go:511-583 | The Job machine: a readable Job is decided by JobEnded over all of its conditions, a missing Job is created anew, store and copy as HookIs spells out for the specification |
| Cluster.Cluster.ReconcileSAIADeployment | pkg/ai/features/saia/impl.go:586-785 | Labels, annotations, replicas, account and TLS of the stored Deployment as DeploymentIs spells them out, selector only if unset |
| Cluster.Cluster.RunServiceStages | pkg/ai/features/saia/impl.go:53-101 | The SAIA stage loop gives the run of the specification |
| Cluster.Cluster.ReconcileFeature | pkg/ai/features/saia/impl.go:43-102 | The loop with its deferred write, and what the caller's object became |
| Cluster.Cluster.ReconcileStatus | internal/controller/aiservice_controller.go:242-294 | Adds Ready only if absent, then writes the status |
| Cluster.Cluster.ReconcileService | internal/controller/aiservice_controller.go:91-203 | One whole call: store and result of the specification |
| Webhooks.PlatformDefaults | internal/webhook/v1/aiplatform_webhook.go:64-104 | The defaulting function field by field: cluster.local, both sidecars if neither is chosen, 50Gi without volume and size, nginx for an enabled ingress, operator termination for enabled mTLS; what is set stays; a second pass changes nothing |
| Webhooks.ServiceDefaults | internal/webhook/v1/aiservice_webhook.go:65-108 | The same for AIService: cluster.local, port 80, one replica, /metrics and 9090 for enabled metrics, operator termination |
| Webhooks.StorageSchemes | internal/webhook/v1/aiplatform_webhook.go:230-261 | Admitted storage paths are exactly those that begin with s3:// and come with a region, or with gs://, azure:// or minio:// |
| Webhooks.HostAdmittedIff | internal/webhook/v1/aiplatform_webhook.go:343-385 | An ingress host is admitted iff it has a name and paths, each set and of one of the three literal path types |
| Webhooks.PlatformObject.Default | internal/webhook/v1/aiplatform_webhook.go:64-104 | In-place defaulting leaves exactly those fields |
| Webhooks.ServiceObject.Default | internal/webhook/v1/aiservice_webhook.go:65-108 | The same for AIService |
| Webhooks.ValidateObjectStorage | internal/webhook/v1/aiplatform_webhook.go:230-261 | The list holds exactly the errors the storage deserves |
| Webhooks.ValidateSplunkConfiguration | internal/webhook/v1/aiplatform_webhook.go:264-300 | The same for the Splunk configuration |
| Webhooks.ValidateStorage | internal/webhook/v1/aiplatform_webhook.go:303-327 | The same for the vector database's storage |
| Webhooks.ValidateHost | internal/webhook/v1/aiplatform_webhook.go:343-385 | The same for one ingress host and its paths |
| Webhooks.ValidateIngress | internal/webhook/v1/aiplatform_webhook.go:330-406 | The same for hosts, paths and TLS entries in nested loops |
| Webhooks.ValidateMTLS | internal/webhook/v1/aiplatform_webhook.go:409-437 | The same for mTLS |
| Webhooks.ValidateFeatures | internal/webhook/v1/aiplatform_webhook.go:440-476 | The same for features; a duplicate is reported at every repetition |
| Webhooks.ValidatePlatformCreate | internal/webhook/v1/aiplatform_webhook.go:123-170 | All deserved errors and no others; empty iff the platform is valid |
| Webhooks.ValidatePlatformUpdate | internal/webhook/v1/aiplatform_webhook.go:173-215 | Immutability is checked only on a valid new object; empty iff the update is valid |
| Webhooks.PlatformValidIffNoError | internal/webhook/v1/aiplatform_webhook.go:123-170 | The error relation and the admission predicate agree on every platform |
| Webhooks.ValidateMTLSForService | internal/webhook/v1/aiservice_webhook.go:344-377 | The list holds exactly the errors the child's mTLS settings deserve |
| Webhooks.ValidateMetrics | internal/webhook/v1/aiservice_webhook.go:380-404 | The same for metrics |
| Webhooks.ValidateServiceCreate | internal/webhook/v1/aiservice_webhook.go:127-209 | All deserved errors and no others; empty iff the AIService is valid |
| Webhooks.ValidateServiceUpdate | internal/webhook/v1/aiservice_webhook.go:212-254 | The same for updates with their two immutable fields |
| Webhooks.ServiceValidIffNoError | internal/webhook/v1/aiservice_webhook.go:127-209 | The error relation and the admission predicate agree on every AIService |
| WorkerEnv.PutInPlace | pkg/ai/raybuilder/builder.go:773-785 | The inner loop overwrites the first entry of that name or appends |
| WorkerEnv.MergeEnv | pkg/ai/raybuilder/builder.go:758-785 | For whatever order the map is iterated in, a lookup in the result is the map laid over the defaults, names stay distinct and defaults keep their positions |
| WorkerEnv.MergedNames | pkg/ai/raybuilder/builder.go:768-785 | Names are pairwise distinct and the defaults keep their positions, for every order |
| WorkerEnv.MergedLooksUp | pkg/ai/raybuilder/builder.go:773-785 | A lookup is the map laid over the defaults, for every order |
| WorkerEnv.WorkerSees | pkg/ai/raybuilder/builder.go:758-785 | For every name and every order: the value the user gave, or else the built-in one under its literal name, or none |
| WorkerEnv.OrdersPermute | pkg/ai/raybuilder/builder.go:773-785 | Any two orders give permutations of each other |
| WorkerEnv.DefaultNamesDistinct | pkg/ai/raybuilder/builder.go:758-766 | The built-in entries have distinct names |
| Scale.InstanceScale | pkg/ai/raybuilder/builder.go:616-639 | The map holds the int32 total of exactly the tiers some feature mentions |
| Scale.WorkerReplicas | pkg/ai/raybuilder/builder.go:643-661 | Each worker group gets its tier's total, zero if nobody mentions it |
| Scale.TotalPermutes | pkg/ai/raybuilder/builder.go:616-639 | Totals do not depend on the order of the features |
| Scale.NoOverflow | api/v1/aiplatform_types.go:65 | With at most ten features each within a tenth of the int32 range nothing wraps |
| Scale.ElevenOverflow | pkg/ai/raybuilder/builder.go:632-637 | The bound is tight: eleven wrap to a negative number |
| Scale.ReplicasMap | pkg/ai/raybuilder/builder.go:104-136 | Exactly the applications some readable feature names, each with base times scaleFactor (one if unset) of the last one that does |
| Scale.ScaledPermutes | pkg/ai/raybuilder/builder.go:104-136 | If no two features name one application, feature order does not matter |
| RayConditions.PlatformStatusObject.ApplyNormalizedConditions | pkg/ai/raybuilder/builder.go:306-558 | The in-place updates and events are those of the specification, also when the snapshot cannot be collected; the list then says of each part of the snapshot what ConditionsAre spells out |
| RayConditions.PlatformStatusObject.AnnounceAndSet | pkg/ai/raybuilder/builder.go:416-429 | An event only on a change of status, then the upsert |
| RayConditions.PlatformStatusObject.GetConditionStatus | pkg/ai/raybuilder/builder.go:400-408 | The status of the first condition of a type |
| RayConditions.TypesStayDistinct | pkg/ai/raybuilder/builder.go:389-398 | From distinct condition types every call leaves distinct types |
| RayConditions.StatusAfter | pkg/ai/raybuilder/builder.go:390-549 | After a call each announced condition says what the snapshot says |
| RayConditions.ConditionsAre | pkg/ai/raybuilder/builder.go:390-549 | For any list and snapshot: the first entry under each of the seven literal types has status and reason of its own part of the snapshot, a failed collection writes its two, and the first entry of every other type is untouched |
| RayConditions.EventsAre | pkg/ai/raybuilder/builder.go:400-549 | The events of one call are exactly those of the five conditions whose status changes, by literal name, and a single warning for a failed collection |
| RayConditions.SetPlaces | pkg/ai/raybuilder/builder.go:389-398 | Setting a condition keeps every entry in its place and appends a new type |
| RayConditions.ReadyIffComponents | pkg/ai/raybuilder/builder.go:517-549 | Ready is True iff all four component conditions are |
| RayConditions.EnginesAgree | pkg/ai/raybuilder/raystatus/raystatus.go:167-217 | Both engines agree on their shared conditions, and the builder's Ready is the other's and the vector database's; nothing in the operator calls the raystatus engine today |
| RayConditions.EventsAlternateIff | pkg/ai/raybuilder/builder.go:306-335 | Over successive calls on one list, a condition's events alternate iff no failed collection reset it from True before it was announced again; for the three conditions such a failure does not touch they always do |
| Announcements.ListsOverRuns | pkg/ai/reconciler.go:43-57 | In every reachable state the stored condition list, and the one a run in flight has read, is empty or the list some run of the stage loop published |
| Announcements.AnnouncedInRun | pkg/ai/raybuilder/builder.go:400-549 | Over every run of the machine: what a reconcile's call announces about each condition, from the snapshot and from the stages an earlier list shows as passed; RayClusterReady and RayServeRouteReady only ever as ready, and whenever they are |
| Announcements.AcrossAlternatesIff | pkg/ai/raybuilder/builder.go:400-549 | Across any sequence of reconciles with any outcomes, snapshots and lost writes, a condition's events alternate iff no reconcile announces what the last announcement said, where one announces what its snapshot says iff the last list that landed says otherwise |
| Announcements.NamelessRepeat | pkg/ai/raybuilder/builder.go:443-488 | The events of RayClusterReady and RayServeRouteReady are exactly one ready event for each reconcile that finds them ready, so they alternate iff that happens at most once |
| Announcements.SteadyRepeat | pkg/ai/raybuilder/builder.go:416-549 | While every list that lands shows the stage of that name as passed, the events of RayServiceReady, WeaviateDatabaseReady and Ready are exactly one not-ready event for each reconcile that finds them not ready |
| ServeConfig.FilterInPlace | pkg/ai/raybuilder/configmap_serve.go:54-79 | Appending into the array being read never overwrites an unread entry and yields the functional filter in order; fails iff some probe fails |
| ServeConfig.CompletedIs | pkg/ai/raybuilder/configmap_serve.go:82-127 | A completed entry field by field: import path, lower-case route, working directory of its own archive, pip packages and six variables over the entry's own, each only where the entry left it open |
| ServeConfig.CamelCaseIs | pkg/ai/raybuilder/configmap_serve.go:161-174 | Splitting, capitalizing and joining is one pass that drops underscores and raises the letter behind each |
| ServeConfig.KeptConcat | pkg/ai/raybuilder/configmap_serve.go:54-79 | The filter keeps order and judges each entry on its own |
| ServeConfig.KeptAlone | pkg/ai/raybuilder/configmap_serve.go:54-79 | An entry is kept iff the object PREFIX/NAME-VERSION.zip is in the bucket |
| ServeConfig.UnescapeEscaped | pkg/storage/storageclient.go:35-45 | The decoding of paths that the parser applies undoes percent encoding of any byte string |
| ServeConfig.CompleteEntry | pkg/ai/raybuilder/configmap_serve.go:82-127 | One entry completed through a reference into the array with exactly those fields, the others untouched; panics iff its name cannot be converted |
| ServeConfig.ReconcileApplications | pkg/ai/raybuilder/configmap_serve.go:54-127 | The array ends with the completed, filtered list |
| ServeConfig.ToCamelCase | pkg/ai/raybuilder/configmap_serve.go:161-174 | The converted name, or a panic on a name that is not splittable |
| ServeConfig.SplittableIff | pkg/ai/raybuilder/configmap_serve.go:161-174 | A name is convertible iff no underscore ends it or is followed by another |
| ServeConfig.WorkingDirProbedIff | pkg/storage/aws.go:159-164 | The working directory names the probed key iff the prefix is not empty |
| ServeConfig.FolderLocated | pkg/storage/storageclient.go:35-45 | For every S3 path the CRD allows, appending a folder never changes whether the path parses; the folder follows the path's own decoded prefix, or is swallowed by a query or fragment |
| ServeConfig.FoldersMeetIff | pkg/ai/raybuilder/configmap_serve.go:24-35 | Applications and artifacts are looked for in one place iff the path has a query or fragment |
| ServeConfig.PrefixLostIff | pkg/storage/storageclient.go:35-45 | The applications client has no prefix iff the query or fragment begins right behind the bucket's slash |
| ServeConfig.QueryAtRoot | internal/webhook/v1/aiplatform_webhook.go:230-261 | The path s3://b/?x is such a path and is admitted: what is probed and what is served differ for every file |
| ServeConfig.WorkingDirsExistIff | pkg/storage/aws.go:130-164 | Every kept application was found in the bucket, and without a preset directory it gets the URI of exactly that object iff the path's query or fragment does not begin right behind the bucket's slash |

## Left out

- Objects other than AIServices keep no owner reference: conflicts of ownership on Jobs, Deployments, StatefulSets, certificates and accounts are covered only by the failing-call oracle, and garbage collection only by the steps that delete such objects.
- One namespace: a reference to a platform in another namespace reads as not found.
- Interleaving inside a stage or a deletion flow: each stage, the whole AIService stage among them, and each call of FinalizePlatform (listing, deletes, finalizer update) or FinalizeService is one atomic step of the machine; calls of it can fail one by one, but no other step falls between them.
- Edits of ownerReferences and finalizers of stored objects by users, which no webhook forbids: users set them at creation only. What the model says about who owns a child, and about finalizers never being added, holds without such edits.
- Other writers: nobody but the operator creates Jobs, Deployments, StatefulSets or certificates.
- The informer cache: reads see the store as it is, so a run that acts on a stale listing is not covered beyond what an interleaved fetch already gives.
- Watches, predicates and work queues: which event starts a reconcile is decided by controller-runtime; every step may happen at any time.
- Sidecars, Ray autoscaler RBAC, RayService, ingress, ConfigMaps, Services and ServiceMonitor: each is one outcome of a stage (success, failure or panic) with no stored effect.
- The pod templates' images, probes, volumes, resources and environment variables: constants and copies.
- The service template of an AIService and the cleaning of its server-generated fields: they affect no property here.
- Timestamps, observedGeneration, event texts and the full wording of error messages; events for individual Ray errors.
- Conditions that other functions put into the local status: the deferred write replaces them, so they never reach the store. Of the ones the builder compares with, no earlier stage of a reconcile changes any.
- The seca feature: its handler works on a blank object of its own and always fails; it appears as an error without effect.
- Adding the two finalizers: no code of the operator does; users bring them.
- Decoding of resources, CRD schema checks beyond the feature names and the bound of ten, and ParseQuantity, which enters as the set of strings it accepts.
- URL parsing of S3 paths outside the CRD's pattern (user names, ports, hosts with escapes); the other storage providers; non-ASCII letter case; the sanitizing of metric names.
- Reading YAML, environment, Vault files and Secrets: their results are parameters. Telemetry and logging.
- Liveness.BringUpEndsReady: the schedule is one explicit bounded interleaving, in a world where no call fails. AnyOrder.FairBringUp drops the schedule, but its turns are whole and undisturbed; that the work queue is fair is its hypothesis.
- Draining.ReleasedFromAnywhere, Draining.ReleasedWithinMeasure: a child that carries the platform's own protecting finalizer is left out, because nothing in the operator releases that finalizer from an AIService; foreign finalizers are assumed to be released by their controllers.
- Deletion.DrainsIff: one schedule without failing calls; the order of the children in it is arbitrary.
