# Bindplane operator: a verified model

The Bindplane operator reconciles one custom resource into Kubernetes objects. This project models its control
logic in Dafny and proves what the operator is for: database migrations gate every workload that depends on them,
concurrent writers are left alone, passes converge, and user templates never displace what the operator owns. Where
the code falls short of such a property, the input is shown and the exact condition is proved.

## How it is modelled

**The operator as a step machine** (`Cluster`, `Plan`, `Machine`). The API server's store holds the resource, the
migrate Job with its pods, and the owned objects. Each step is one API call of the operator, with an outcome:
`Ok`, `Refused` (no effect) or `Lost` (takes effect, but the operator sees an error); or one action of somebody
else: the user edits or deletes the resource, the Job succeeds, fails, is marked for foreground deletion (as by
its time-to-live) or disappears once its pods are gone, the autoscaler scales, Argo Rollouts sets its selector hash, garbage
collection runs. Updates compare resource versions. A run is any list of such actions. The component reconcilers
appear as ordered plans of names to apply or remove (`Plan`), and the content of each name as a function of the
specification. Nothing limits the interleaving: a pass may break off after any call.

On this machine stand

- `Lifecycle`: what every state says about the pass in progress;
- `GateSafety`: the migration gate, truthful conditions, freshness of a forced migration;
- `Migration` and `Fairness`: migrations never overlap, the progress rank, liveness in constructed and in all fair
  runs, and when a force is lost;
- `Passes` and `Convergence`: passes end, what an undisturbed pass does, convergence and history independence;
- `Adoption`: new resources are taken on, deleted ones let go, and every sound new resource gets migrated;
- `Contents` and `Upgrades`: what a converged store holds field by field, and how edits and new versions roll out;
- `Exclusivity`: a node Deployment and a node Rollout never coexist;
- `Copies`: the operator's writes to the resource, and the one of them that can undo an edit of the user;
- `Writers`: replicas and selector hash are left to their owners;
- `Secrets`: generated secrets are never rotated, share no data and exist when referred to.

**The controller in its own form** (`Controller`). A class whose methods call the server, change the copy of the
resource in place and return early, as the source does. Every API call is shown to be one step of the machine, so all
theorems about runs hold of it.

**The pod template merge** (`Json`, `MergeMaps`, `PodTemplate`). The deep merge as a pure function with its algebra,
the in-place merge of heap objects proved to compute it, with decoding and encoding around it, and the container,
volume and metadata merges on top.

**Smaller parts**: environments (`EnvVars`), Go runtime variables (`GoRuntime`), extra volumes (`ExtraVolumes`),
preserved selector keys (`ServiceSelector`), NATS addressing (`NatsAddressing`), the quorum default (`Quorum`), text
helpers (`Text`).

## Findings

The members named prove what is said.

- A TLS block of the TSDB (`spec.tsdb.tls` or `spec.config.tsdb.tls`) that names both a secret and an issuer passes
  validation, and every pass then ends with an error at the certificates: nothing behind them is reconciled, no
  migration runs, and no condition says why (`Convergence.ConflictPassesValidation`, `Migration.DoomedRun`). An
  undisturbed pass over an actionable resource succeeds exactly without such a block
  (`Convergence.PassSucceedsIffNoConflict`).
- The patch that removes the force annotation carries no version, and when that annotation is the only one the copy has
  it removes the whole annotation field: what the user set in the meantime, a pause for example, is dropped
  (`Copies.PauseIsDropped`). It keeps the user's annotations exactly if the copy carries another one or the server
  carries no other (`Copies.PatchKeepsIff`); no other operator call touches the user's part (`Copies.UserOwnsTheSpec`).
- A force step whose annotation patch succeeds and whose status update fails loses the forced rerun, for as long as
  nobody edits the resource or removes a Job, exactly when the image was recorded or the patch brought in conflicting
  TLS sources (`Migration.ForceLostIff`).
- A pass that forces a migration with the check skipped continues with the resource as the patch returned it. If the
  user switched generated status keys on in between, the pass goes on to bring the jobs Deployment up to a reference to a
  secret that does not exist (`Secrets.ForcedEditDangles`); `Secrets.DownstreamBackedIff` is the exact condition.
- The extra-volume validator reserves `/etc/prometheus` but not the files mounted below it, so an accepted mount can
  collide with `/etc/prometheus/web.yml` (`ExtraVolumes.ValidatorMissesTsdbFiles`); `ExtraVolumes.TsdbPodSound` is the
  exact condition.
- The deep merge is not associative in general (`Json.GroupingMatters`); `Json.MergeAssociativeIff` says exactly when
  it is.
- The variable that upsert writes can stay hidden behind a later duplicate (`EnvVars.UpsertCanBeHidden`);
  `EnvVars.UpsertVisibleIff` says exactly when it is seen. That the operator's own lists do not hold the runtime
  variables is a hypothesis of `EnvVars.EffectiveEnvironment`.
- The memory headroom and CPU rounding, and the quorum default, are right exactly when their fixed-width arithmetic
  does not overflow (`GoRuntime`, `Quorum`).
- In a TSDB pod a user template may reuse the name of the data volume, which comes from the StatefulSet's claims; names
  stay distinct exactly if it does not (`PodTemplate.TsdbPodVolumes`).

Where code and documentation disagree, the code is modelled. docs/configuration/configuration.md says that only
"true" enables the skip annotation and that a paused resource gets the phase Paused; the code accepts everything that
parses as a true boolean, and a pause leaves the phase alone. The message that a failed Job stays failed until a force
holds only until the Job's time-to-live of 24 hours removes it; the next pass then creates a new Job.

## Assumptions

- Reads are linearizable, and one pass at a time works on a resource.
- One lifetime of one resource: after it is gone it is not created again under the same name.
- Users do not strip the operator's finalizer or write the status, and nobody else creates or deletes objects under
  the operator's names while the resource lives.
- Whoever else deletes the migrate Job (its time-to-live controller does) deletes it in the foreground. With background
  deletion by hand migrations could overlap, as `Migration.BackgroundWouldOverlap` shows.
- The operator's deletes of owned objects take them out of the store at once; `Exclusivity.NodeWorkloadsExclude` is
  about objects in the store, not about pods that are still ending.
- The answer to the annotation patch replaces the controller's copy as a whole.
- An update that changes nothing does not make a new version. Defaulting is limited to replicas.
- Marshalling between Kubernetes types and JSON trees is faithful.
- Random data is a number never used before; milli-CPUs and bytes come as integers.
- `Spec.rest` stands for all fields of the specification that only reach the contents of objects.

## Model

| member | source | states |
|---|---|---|
| GateSafety.GateSafety | internal/controller/bindplane_controller.go:629-664 | in every run a jobs, NATS, node or OpAMP workload written from a copy without a truthy skip annotation comes after the completion of a Job with that copy's migrate image, and without overrides that image is the one written |
| GateSafety.GateSafetyWithoutSkip | internal/controller/bindplane_controller.go:690-728 | the same over whole runs in which nobody ever sets the skip annotation |
| GateSafety.GateSafetySinceForced | internal/controller/jobs.go:342-367 | the Job behind such a write was created, and completed, after every force completed before the write |
| GateSafety.TruthfulConditions | internal/controller/bindplane_controller.go:534-755 | nothing is written in a pass that first read a resource without finalizer, deleted, paused or invalid; Reconciled has a completed Job behind it; MigrationCheckSkipped and MigrationFailed are told apart by the skip annotation and only reported while the image is unrecorded; Paused and Invalid only of a live resource with finalizer, told apart by the pause annotation |
| GateSafety.FailedMigrationHalts | internal/controller/jobs.go:468-479 | a pass that reports MigrationFailed writes nothing behind the gate, before or after |
| GateSafety.ForcedIsFresh | internal/controller/jobs.go:342-367 | after a completed force no later state records an image unless a Job created afterwards completed with it |
| GateSafety.StepJob | internal/controller/jobs.go:369-427 | every step keeps: a non-terminating Job postdates the last completed force, and a succeeded one has its completion on record |
| GateSafety.StepGate | internal/controller/jobs.go:323-427 | every step keeps the whole gate invariant: trusted recorded images in store and copy, gate decisions matching the copy, justified events |
| GateSafety.ActTrust | internal/controller/jobs.go:413-418 | every operator call keeps recorded images trusted: each has a completed Job no older than the last completed force |
| GateSafety.RunPass | internal/controller/bindplane_controller.go:690-709 | over any run, writes behind the gate belong to passes that got there and never to one that gave up |
| Lifecycle.StepShape | internal/controller/bindplane_controller.go:514-687 | every step keeps: the pass acts only on an actionable first read, works on its copy's plan, and is behind the gate only if the gate let that copy through |
| Lifecycle.DoneIsFinal | internal/controller/bindplane_controller.go:710-723 | in any interleaving a pass ends without asking to come back only at a finalizer, with a halting condition, or with the migration no longer in progress |
| Lifecycle.TodoNames | internal/controller/bindplane_controller.go:929-1007 | a call of a plan leaves the set of names alone or does its step exactly when it moves on |
| Adoption.NewResourceIsTakenOn | internal/controller/bindplane_controller.go:543-551 | an undisturbed pass over a live resource without the finalizer puts it on and changes nothing else |
| Adoption.DeletedResourceIsLetGo | internal/controller/bindplane_controller.go:536-541 | an undisturbed pass over a resource that is being deleted takes the finalizer off, and with it the resource goes |
| Adoption.LetGoWithoutStatus | internal/controller/bindplane_controller.go:1132-1145 | it does so too when the status update on the way is refused |
| Adoption.HeldResourceIsReported | internal/controller/bindplane_controller.go:553-595 | a paused or invalid resource gets the condition that says so, the pause first, and nothing else changes |
| Adoption.NewResourceIsMigrated | internal/controller/bindplane_controller.go:514-687 | calm rounds lead every new, sound resource from its creation to a recorded migration, a settled store and a Reconciled condition, specification unchanged |
| Migration.NoOverlap | internal/controller/jobs.go:457-465 | in every reachable state all live migration pods belong to one Job, the one in the store |
| Migration.StepPods | internal/controller/jobs.go:383-411 | every step of operator and cluster keeps that |
| Migration.BackgroundWouldOverlap | internal/controller/jobs.go:458-459 | with background deletion two migrations would run side by side, so foreground propagation is needed |
| Migration.RankFalls | internal/controller/jobs.go:323-427 | with specification and annotations fixed, succeeding Jobs and collection, the rank never rises under any outcome and falls with every step that acts |
| Migration.SteadyRunSettles | internal/controller/jobs.go:369-427 | so a steady run acts at most as often as its first rank, at most 24 times |
| Migration.Round | internal/controller/jobs.go:383-418 | without conflicting TLS sources one served Job and one pass record the migration or lower the rank |
| Migration.EventuallyMigrated | internal/controller/jobs.go:323-427 | without conflicting TLS sources calm rounds lead from every hopeful idle state to a recorded migration, a settled store and a Reconciled condition |
| Migration.MigratesIffHopeful | internal/controller/jobs.go:369-427 | without help a migration gets recorded exactly if it is recorded and not forced, or if no TLS sources conflict and the current Job has not failed or a force is asked for |
| Migration.DoomedRun | internal/controller/cert_manager.go:72-98 | with conflicting TLS sources no steady run creates a Job, records an image or takes the force annotation away |
| Migration.ForceLostIff | internal/controller/jobs.go:357-365 | when the status update of a force fails after its patch, no Job is ever created again without help exactly if the image was recorded or the patched copy has conflicting TLS sources |
| Fairness.FairRunsMigrateReachable | internal/controller/jobs.go:323-427 | in every infinite run without edits, failures or early removals in which undisturbed passes recur and no Job waits forever, whatever errors and other writers come in between, a hopeful resource without conflicting TLS sources is migrated and converges |
| Fairness.FairRunsMigrateNewResources | internal/controller/bindplane_controller.go:514-687 | the same for every such run from the creation of a sound resource on, which has no finalizer yet |
| Fairness.WillingStep | internal/controller/jobs.go:323-427 | every steady step keeps the resource, its specification and the hope of migrating it |
| Fairness.NextFall | internal/controller/jobs.go:369-427 | from every point of a fair run the rank falls, or a pass ends with everything done |
| Passes.PassesEnd | internal/controller/bindplane_controller.go:514-687 | every API call, successful or not, brings a pass closer to its end |
| Passes.OpUndisturbed | internal/controller/bindplane_controller.go:952-984 | undisturbed, a get and at most one write bring one object to its wanted content or absence |
| Passes.IdleUpdates | internal/controller/node_autoscaling.go:152-172 | over an object that is as wanted the next call of a plan writes exactly if it is an autoscaler or the web configuration, and that write changes nothing |
| Passes.LostRace | internal/controller/opamp.go:100-135 | an object that goes away between the get and the delete ends the pass with an error, except for the Deployment, Service and ServiceAccount of an OpAMP that is switched off |
| Passes.PlanUndisturbed | internal/controller/node.go:46-97 | undisturbed, every plan is worked through from any store with exactly its steps' combined effect, or ends in an error exactly if a check on its way fails |
| Passes.UpstreamUndisturbed | internal/controller/bindplane_controller.go:597-626 | undisturbed, a pass reaches the migration, or ends in an error exactly if TLS sources conflict |
| Passes.GoStops | internal/controller/bindplane_controller.go:514-687 | an undisturbed pass has one end |
| Passes.MigrateUndisturbed | internal/controller/jobs.go:323-427 | undisturbed, the migration branch does to Job, recorded image and gate what the table `MigrationTable` says, keeps the copy current and touches no owned object |
| Passes.SameDecisions | internal/controller/jobs.go:357-361 | removing the force annotation changes neither skipping nor whether the resource may be acted on |
| Convergence.PassConverges | internal/controller/bindplane_controller.go:514-687 | without conflicting TLS sources an undisturbed pass from any store ends without error, requeues exactly while the migration is in progress, settles everything owned if the gate was open with the matching condition, and changes no object of a settled store |
| Convergence.PassSucceedsIffNoConflict | internal/controller/cert_manager.go:161-194 | an undisturbed pass over an actionable resource ends, and without an error exactly if no TLS block names both sources |
| Convergence.ConflictPassesValidation | internal/validation/validate.go:104-170 | a resource that names both is actionable, and its pass fails |
| Convergence.PlansConverge | internal/controller/opamp.go:58-144 | the two plans settle every name from any store |
| Convergence.ExecSettles | internal/controller/prometheus.go:215-312 | steps settle their names and never unsettle each other's |
| Convergence.ExecIdle | internal/controller/bindplane_controller.go:973-976 | over settled objects a plan changes nothing, not even a version |
| Convergence.NamesDependOnSpecAlone | internal/controller/cert_manager.go:72-138 | after a complete pass a managed name exists exactly if the specification wants it, whatever the history; the two create-once secrets are never removed |
| Convergence.ConvergedWorkload | internal/controller/bindplane_controller.go:952-984 | a settled workload has its component's image and secrets, the wanted replicas unless an autoscaler owns them, all other contents of the specification, and without overrides the migrated image |
| Contents.WorkloadImage | internal/controller/bindplane_controller.go:353-416 | in a settled store every workload has the image its field names, else the product image of the specified version, and all other contents the specification gives it |
| Contents.WorkloadReplicas | internal/controller/bindplane_controller.go:966-980 | its replicas are those of the specification field of its component where no autoscaler owns them; jobs and TSDB run once |
| Contents.WorkloadSecrets | internal/controller/config_env.go:416-446 | which generated secrets its pod refers to, in terms of the fields for session secret, status keys and remote TSDB |
| Contents.ServiceContents | internal/controller/bindplane_controller.go:1091-1124 | a settled Service selects its component by label alone; only the node Service in Rollout mode may have the hash of Argo Rollouts besides |
| Contents.StaleHashIsDropped | internal/controller/node.go:280-286 | in Deployment mode that hash is not in the selector, whatever was there before |
| Contents.ServicesSelectApart | internal/controller/bindplane_controller.go:1494-1530 | two Services select the same pods exactly if they are the two of NATS |
| Contents.ServicesKeepTheirPods | internal/controller/bindplane_controller.go:1820-1830 | no user template takes a pod out of the Service of its component |
| Contents.AutoscalerContents | internal/controller/opamp.go:381-391 | the node autoscaler scales the workload kind of the mode, the OpAMP autoscaler the OpAMP Deployment, and the target exists |
| Contents.PlainContents | internal/controller/bindplane_controller.go:1163-1185 | accounts, budgets, certificates and the web configuration hold what the specification says |
| Contents.AlwaysThere | internal/controller/bindplane_controller.go:597-664 | the accounts, Services and workloads that every complete pass leaves |
| Contents.NodeObjects | internal/controller/node.go:46-97 | node workload kind, budgets and autoscaler exist exactly by their fields |
| Contents.OpampObjects | internal/controller/opamp.go:58-144 | the OpAMP objects exist exactly while OpAMP is on, budget and autoscaler by their own fields |
| Contents.TsdbObjects | internal/controller/prometheus.go:280-312 | the TSDB objects exist exactly while it is local, the certificates exactly by their own fields |
| Upgrades.EditRollsOut | internal/controller/bindplane_controller.go:952-1068 | from a store settled for a specification, an edit that only reaches contents makes the next undisturbed pass write every workload anew with the new contents |
| Upgrades.UpgradeRollsOut | internal/controller/bindplane_controller.go:353-363 | after an edit of the version alone, once the gate is open, the next undisturbed pass moves every workload to an image of that version |
| Upgrades.UpgradeIsUnrecorded | internal/controller/jobs.go:369-375 | an edit of the version alone makes a recorded migration stale |
| Upgrades.UpgradeIsGated | internal/controller/jobs.go:369-427 | in every continuation no gated workload is written unskipped from the new version without a completed Job that ran the image of that version, which is the image written and not the one recorded before |
| Upgrades.ImagesNameTheVersion | internal/controller/bindplane_controller.go:353-363 | without overrides every image ends in the version as its tag |
| Upgrades.VersionsDiffer | internal/controller/bindplane_controller.go:353-363 | different versions give different images, for the migration and for every component |
| Upgrades.RepositoriesApart | internal/controller/bindplane_controller.go:353-363 | product, transform agent and TSDB images come from three repositories |
| Convergence.OverrideRollsOutOnePart | internal/controller/bindplane_controller.go:366-416 | between complete passes before and after an image override is set, its component's workload gets the image and every other workload keeps its own |
| Convergence.ConvergedSecrets | internal/controller/config_env.go:425-446 | after a complete pass every generated secret a wanted workload refers to exists |
| Convergence.AutoscalerTargetExists | internal/controller/node_autoscaling.go:97-110 | after a complete pass with autoscaling the node autoscaler targets the one kind of node workload that exists |
| Exclusivity.NodeWorkloadsExclude | internal/controller/node.go:53-71 | in no reachable state do a node Deployment and a node Rollout both exist |
| Exclusivity.SwitchIsExclusive | internal/controller/node.go:55-71 | working through the node plan from names without a clash never has both, after any step |
| Exclusivity.DownstreamExclusive | internal/controller/node.go:46-97 | likewise for everything behind the gate |
| Writers.OnlyTheAutoscalerScales | internal/controller/bindplane_controller.go:966-980 | in every interleaving the live replicas of a workload under autoscaling are changed by the autoscaler only |
| Writers.OnlyArgoSelects | internal/controller/bindplane_controller.go:1091-1124 | in Rollout mode the selector hash of the node Service is changed by Argo Rollouts only |
| Writers.ActWriters | internal/controller/bindplane_controller.go:1000-1011 | every operator call keeps: an object at the version that was read is the object that was read |
| Writers.KeptObject | internal/controller/bindplane_controller.go:952-1068 | an object that survives an operator call is unchanged or is the merge of wanted and live content |
| Copies.UserOwnsTheSpec | internal/controller/jobs.go:357-361 | however passes and edits interleave, no operator call changes the specification or the deletion mark, and a call keeps every annotation but the force annotation exactly unless it is the patch wiping annotations its copy does not know |
| Copies.PatchKeepsIff | internal/controller/jobs.go:357-359 | the patch keeps the user's annotations exactly if the copy carries another annotation or the server carries no other |
| Copies.PauseIsDropped | internal/controller/jobs.go:357-361 | a pause set while a pass forces a migration is dropped by that pass's patch |
| Copies.ConditionsAreCurrent | internal/controller/bindplane_controller.go:666-686 | a condition is only ever written about the resource as it is on the server at that moment |
| Copies.RecordsAreCurrent | internal/controller/jobs.go:413-418 | the recorded image is the one the specification on the server asks for at that moment |
| Copies.StepCurrent | internal/controller/bindplane_controller.go:514-687 | every step keeps: a resource at the version of the pass's copy is the copy |
| Secrets.OperatorKeepsSecrets | internal/controller/prometheus.go:344-376 | no operator call changes or removes a session or status secret, nor the basic-auth secret while the TSDB is local |
| Secrets.GeneratedOnce | internal/controller/session_secret.go:43-82 | over any run a session or status secret keeps its data until the resource is gone |
| Secrets.DataIsNeverReused | internal/controller/prometheus.go:342-376 | over any run whatever holds the data of an earlier generated secret is that secret, unchanged: none share data, and one that is made again has new data |
| Secrets.SecretsBeforeWorkloads | internal/controller/config_env.go:507-529 | whenever a workload is in hand, the generated secrets its pod refers to exist, as long as the copy needs none that the first read did not |
| Secrets.SecretsBeforeJob | internal/controller/jobs.go:298-308 | the migrate Job's secrets exist when it is created |
| Secrets.DownstreamBackedIff | internal/controller/jobs.go:357-365 | all workloads behind the gate find their secrets in every continuation of the pass exactly if all of the copy's secrets exist when the gate is passed |
| Secrets.ForcedEditDangles | internal/controller/jobs.go:357-365 | an edit during a forced pass with the check skipped breaks that condition |
| Secrets.UpstreamBacked | internal/controller/prometheus.go:280-312 | the plan before the gate creates the basic-auth secret before the StatefulSet that mounts it |
| Secrets.UpstreamCreates | internal/controller/status_secret.go:41-90 | by the end of that plan every generated secret of the specification exists, from any store |
| Plan.ReferencesMatchCreation | internal/controller/config_env.go:739-776 | the environment refers to a generated secret exactly when the matching reconciler creates it |
| Plan.PlanIsByName | internal/controller/bindplane_controller.go:597-664 | a step is in the two plans exactly when it is the one its managed name calls for under the specification (a create-once secret only when wanted) |
| Plan.OverrideReachesItsPart | internal/controller/bindplane_controller.go:366-416 | an image override reaches its own component and no other, and only that of the migration changes the migrate image |
| Plan.BlockedIffConflicting | internal/controller/cert_manager.go:72-98 | the plan before the gate runs into a failing check exactly if TLS sources conflict, the one behind it never |
| Plan.MergedSettles | internal/controller/bindplane_controller.go:966-976 | one update or creation settles an object |
| Plan.AfterDecides | internal/controller/bindplane_controller.go:1016-1042 | the steps of a plan for a name decide whether it exists afterwards; without one it is as before |
| Plan.CertificatesFirst | internal/controller/bindplane_controller.go:597-601 | in a pass all certificates come before every workload |
| Cluster.AnnotationRules | internal/controller/bindplane_controller.go:334-343 | skip, force and pause by key and value |
| Controller.Reconciler.Reconcile | internal/controller/bindplane_controller.go:514-687 | a pass is a run of the machine from an idle state to an idle state with the same result |
| Controller.Reconciler.ReconcileRepeatedly | internal/controller/bindplane_controller.go:514-687 | after any number of passes of a fresh resource the store is that of a reachable machine state |
| Controller.Reconciler.ReconcileMigrateJob | internal/controller/jobs.go:323-427 | the method reports the state at whose gate the machine stands, with the copy the machine has |
| Controller.Reconciler.ForceMigration | internal/controller/jobs.go:346-366 | the force branch ends at the gate in progress, with the copy the patch and the status update returned |
| Controller.Reconciler.FollowJob | internal/controller/jobs.go:376-426 | the look-up branch ends at the gate with the state of the Job |
| Controller.Reconciler.PatchAway | internal/controller/jobs.go:357-361 | the patch is made from the copy, and its answer becomes the copy |
| Controller.Reconciler.DeleteJobWithPods | internal/controller/jobs.go:457-465 | foreground deletion that tolerates an absent Job |
| Controller.Reconciler.ApplyMigrateGate | internal/controller/bindplane_controller.go:690-728 | halts with the right result or stands before the downstream plan, and asks to come back exactly in progress |
| Controller.Reconciler.HandleDeletion | internal/controller/bindplane_controller.go:1132-1145 | the finalizer is dropped whether or not the status update succeeds |
| Controller.Reconciler.ReconcileWorkload | internal/controller/bindplane_controller.go:952-1068 | does the machine's step for one workload, keeping live replicas where none are wanted |
| Controller.Reconciler.DesiredService | internal/controller/bindplane_controller.go:1091-1109 | the loop over the annotation builds the merge of wanted and live selectors |
| Controller.Reconciler.ReconcileService | internal/controller/bindplane_controller.go:1071-1125 | does the machine's step for one Service |
| Controller.Reconciler.ReconcilePlain | internal/controller/bindplane_controller.go:1163-1185 | does the machine's step for accounts, budgets, certificates, autoscalers and the web configuration |
| Controller.Reconciler.CreateOnceSecret | internal/controller/session_secret.go:59-81 | creates a secret only if there is none |
| Controller.Reconciler.DeleteIfExists | internal/controller/bindplane_controller.go:1016-1042 | deletes what is there |
| Controller.Reconciler.ReconcileNode | internal/controller/node.go:46-97 | works through the node plan in order |
| Controller.Reconciler.ReconcileOpamp | internal/controller/opamp.go:58-144 | works through the OpAMP plan in order, on or off |
| Controller.Reconciler.ReconcileTsdb | internal/controller/prometheus.go:280-312 | works through the TSDB plan in order, local or remote |
| Controller.Reconciler.ReconcileNats | internal/controller/nats.go:55-97 | works through the NATS plan in order |
| Controller.Reconciler.ReconcileCertificates | internal/controller/cert_manager.go:72-138 | works through the certificate plan in order, ending the pass where a check fails |
| Controller.Reconciler.ValidateServerTls | internal/controller/cert_manager.go:161-174 | fails exactly if the server block names both sources, where the machine's pass ends too |
| Controller.Reconciler.ValidateClientTls | internal/controller/cert_manager.go:178-197 | the same for the client block |
| Controller.Reconciler.ReconcileTransformAgent | internal/controller/transform_agent.go:44-80 | works through the transform agent's plan in order |
| Controller.Reconciler.Update | internal/controller/bindplane_controller.go:978-980 | a compare-and-set of the merged content that moves on or ends the pass with an error |
| MergeMaps.MergeMaps | internal/controller/bindplane_controller.go:1955-1970 | on disjoint object trees the in-place merge terminates, changes only the target's tree, leaves the source as it was and makes the target the pure merge, for every order of keys |
| MergeMaps.MergeDocuments | internal/controller/bindplane_controller.go:1840-1865 | decoding both documents, merging the objects in place and encoding the result gives the pure merge |
| MergeMaps.Decode | internal/controller/bindplane_controller.go:1850-1857 | a document becomes a fresh tree of objects that stands for it |
| MergeMaps.Encode | internal/controller/bindplane_controller.go:1860-1864 | a tree of objects is read back as the document it stands for |
| Json.MergeAtPath | internal/controller/bindplane_controller.go:1955-1970 | what the merge has at every path |
| Json.MergeIsRightBiased | internal/controller/bindplane_controller.go:1955-1970 | a plain value of the user's always wins |
| Json.MergeDecides | internal/controller/bindplane_controller.go:1955-1970 | where both documents have a value: a null says nothing, objects join their keys, anything else replaces |
| Json.MergeIdempotent | internal/controller/bindplane_controller.go:1955-1970 | merging twice is merging once |
| Json.MergeSelf | internal/controller/bindplane_controller.go:1955-1970 | merging a document into itself changes nothing |
| Json.MergeAssociativeIff | internal/controller/bindplane_controller.go:1955-1970 | grouping does not matter exactly when no object shows through a plain value |
| Json.GroupingMatters | internal/controller/bindplane_controller.go:1955-1970 | three documents for which it does |
| Json.MergeAssociative | internal/controller/bindplane_controller.go:1955-1970 | it never matters for documents that agree which shared paths are objects |
| PodTemplate.MergeContainers | internal/controller/bindplane_controller.go:1869-1894 | the operator's containers in order and number, each with all user entries of its name applied in order |
| PodTemplate.MergeOne | internal/controller/bindplane_controller.go:1898-1925 | one container merged in place through its decoded form, with the protected fields put back |
| PodTemplate.MergeSpec | internal/controller/bindplane_controller.go:1840-1865 | likewise the pod spec |
| PodTemplate.MergePodTemplateSpec | internal/controller/bindplane_controller.go:1752-1789 | protected labels, account, grace period, containers and volumes of the merged template |
| PodTemplate.MergeLabels | internal/controller/bindplane_controller.go:1820-1830 | every label but the protected ones is the user's where given |
| PodTemplate.ProtectedContainerFrame | internal/controller/bindplane_controller.go:1898-1925 | for every user template each container keeps the operator's protected fields, its environment but for the two runtime variables, and is the left fold of the user entries of its name |
| PodTemplate.FoldKeepsProtected | internal/controller/bindplane_controller.go:1898-1925 | repeated user entries never reach a protected field |
| PodTemplate.KeepsItsIdentity | internal/controller/bindplane_controller.go:1898-1925 | whatever the template says, name, image, ports, command and arguments of a container are the operator's |
| PodTemplate.TemplateReachesItsContainer | internal/controller/bindplane_controller.go:1869-1925 | a plain value of the template outside the protected fields reaches the container of that name, from the last entry that says anything; where none does the operator's value stays |
| PodTemplate.RuntimeEnvStable | internal/controller/go_runtime_env.go:17-45 | writing the environment does not change what it is computed from |
| PodTemplate.PodEnvironment | internal/controller/bindplane_controller.go:1233-1244 | end to end, a container sees values computed from its merged resources, then the operator's, then the user's |
| PodTemplate.PodRuntime | internal/controller/go_runtime_env.go:17-64 | end to end, GOMAXPROCS is the decimal of the least CPUs covering the CPU limit, else request, GOMEMLIMIT that of nine tenths of the memory limit, else request, and neither is set without such a quantity |
| Text.DecimalStandsFor | internal/controller/go_runtime_env.go:47-64 | the digits written for a number stand for it |
| EnvVars.PrependExtraEnv | internal/controller/bindplane_controller.go:1233-1244 | the user's entries, then the operator's lists in order |
| EnvVars.ValidateExtraEnv | internal/validation/validate.go:326-336 | accepts exactly the lists without a name kept for the operator |
| EnvVars.NameRules | internal/validation/validate.go:326-336 | the names that are refused, one by one |
| EnvVars.EffectiveEnvironment | internal/controller/go_runtime_env.go:38-45 | by name: computed values, then the operator's, then the user's last |
| EnvVars.UpsertVisibleIff | internal/controller/go_runtime_env.go:85-93 | an upserted value is seen exactly when no later duplicate hides it |
| EnvVars.UpsertCanBeHidden | internal/controller/go_runtime_env.go:85-93 | a list for which one does |
| EnvVars.UpsertOthers | internal/controller/go_runtime_env.go:85-93 | other names are not affected |
| EnvVars.EnvList.UpsertEnvVar | internal/controller/go_runtime_env.go:85-93 | the in-place loop replaces the first entry of the name or appends |
| EnvVars.OpampOverridesShared | internal/controller/opamp.go:317-337 | the OpAMP override wins over the shared value |
| GoRuntime.MaxProcsIsLeastIffNoOverflow | internal/controller/go_runtime_env.go:67-71 | the least whole number of CPUs that covers the request, exactly without overflow |
| GoRuntime.MemLimitIsNineTenthsIffNoOverflow | internal/controller/go_runtime_env.go:74-82 | nine tenths of the memory rounded up but at least one byte, exactly without overflow, and never more than a positive amount itself |
| ExtraVolumes.ValidateExtraVolumes | internal/validation/validate.go:604-656 | accepts exactly well-named, distinct, unreserved volumes of allowed sources with resolving, distinct, unreserved mounts |
| ExtraVolumes.SourceRules | internal/validation/validate.go:658-672 | a host path is never accepted, each of the six other sources is |
| ExtraVolumes.NameRules | internal/validation/validate.go:604-656 | what accepted names and paths look like |
| ExtraVolumes.ReservedNamesAreUsed | internal/validation/validate.go:58-73 | a volume name is reserved exactly if some pod of the operator uses it |
| ExtraVolumes.ReservedPathsAreUsed | internal/validation/validate.go:75-90 | a path is reserved exactly if some pod of the operator mounts something there, with the directory /etc/prometheus in place of its two files |
| ExtraVolumes.OneExtra | internal/validation/validate.go:604-656 | one extra volume, or one mount of it, is accepted exactly for these names and paths |
| ExtraVolumes.FeatureVolumes | internal/controller/bindplane_controller.go:1649-1659 | each TLS feature of a server brings its own volume and no other does |
| ExtraVolumes.FeatureMounts | internal/controller/bindplane_controller.go:1649-1659 | likewise its mount |
| ExtraVolumes.ServerPodSound | internal/controller/bindplane_controller.go:1649-1659 | in a server pod accepted volumes leave names and paths distinct and mounts resolving |
| ExtraVolumes.TsdbPodSound | internal/controller/prometheus.go:585-749 | in the TSDB pod names stay distinct, data volume included, and paths do exactly when no added mount takes one of the two files mounted inside the reserved directory |
| ExtraVolumes.ValidatorMissesTsdbFiles | internal/validation/validate.go:75-90 | such a mount is accepted |
| ExtraVolumes.MergeVolumes | internal/controller/bindplane_controller.go:1929-1952 | operator order, then new names by first occurrence, each name with its last user volume, else the operator's |
| ExtraVolumes.MergedVolumesSound | internal/controller/bindplane_controller.go:1929-1952 | no name dropped, none repeated, operator order kept, new names in the order given |
| PodTemplate.VolumeOrigins | internal/controller/bindplane_controller.go:1929-1952 | a pod gets the template's last volume of each name it gives, the operator's of all others, and no more |
| PodTemplate.ServerPodVolumes | internal/controller/bindplane_controller.go:1248-1262 | end to end, operator volumes, accepted extras and any template leave names distinct, the first two in order in front, and every accepted extra mount with its volume |
| PodTemplate.TsdbPodVolumes | internal/controller/bindplane_controller.go:1929-1952 | likewise in the TSDB pod, where names are distinct exactly if the template does not reuse the data volume's |
| ServiceSelector.AnnotationRoundTripIff | internal/controller/bindplane_controller.go:1519-1525 | the key list read back is the one written exactly for non-empty, comma-free, trimmed keys |
| Text.TrimCuts | internal/controller/bindplane_controller.go:1097-1100 | trimming cuts white space off both ends and nothing else |
| ServiceSelector.PreserveSelectorKeys | internal/controller/bindplane_controller.go:1091-1105 | the loop computes the base with listed live keys taken over |
| ServiceSelector.KeptByKey | internal/controller/bindplane_controller.go:1091-1105 | key by key the live value of a listed key wins, and every other key is as the operator wants it |
| ServiceSelector.RolloutHashKept | internal/controller/node.go:280-286 | the hash key survives the annotation and its live value the update; other keys are the operator's |
| NatsAddressing.GetNatsClusterRoutes | internal/controller/nats.go:346-366 | the text is the routes of all ordinals joined with commas |
| NatsAddressing.AddressText | internal/controller/nats.go:346-366 | host, route and client endpoint as text, with their ports |
| NatsAddressing.NameRules | internal/validation/validate.go:350-374 | what an accepted name looks like |
| NatsAddressing.RoutesSplit | internal/controller/nats.go:346-366 | cut at commas it gives exactly one route per replica, in order and pairwise distinct |
| NatsAddressing.GetNatsServerCertDNSNames | internal/controller/cert_manager.go:329-352 | the list names exactly the covered hosts |
| NatsAddressing.RoutesMatchCertificate | internal/controller/cert_manager.go:329-352 | the host of every route read is covered by the certificate |
| NatsAddressing.ClientEndpointCovered | internal/controller/bindplane_controller.go:923-925 | so is the host clients dial |
| Quorum.DefaultIsLeastQuorumIffNoOverflow | internal/controller/config_env.go:630-637 | for validated replica counts the default is the least number for which any two groups of hosts meet, exactly without overflow |
| Quorum.MajoritiesMeet | internal/controller/config_env.go:630-637 | groups of more than half share a host |
| Quorum.HalvesMiss | internal/controller/config_env.go:630-637 | smaller groups can miss each other |

## Left out

- Controller.Reconciler.ReconcileMigrateJob: does not model the best-effort removal of the legacy migrate Deployment, which
  never affects the pass.
- Controller.Reconciler.ReconcileTsdb: does not model the read of the basic-auth secret before the web-config ConfigMap is
  written, nor the YAML made from it; the ConfigMap is one step, and its contents are part of `Spec.rest`.
- Phases and ready counts of the status, condition messages and timestamps: only the reason of the Reconciled
  condition and the recorded migrate image are modelled.
- Absent custom resource definitions (cert-manager, Argo Rollouts), which the delete helpers treat as nothing to delete.
- Certificate issuance, bcrypt, UUIDs and random bytes, persistent volume claims, RBAC, manager and webhook wiring.
- The mapping of single configuration fields to environment variables, probes, security contexts, affinities.
- Validation rules other than names, extra environment, extra volumes and replica bounds; the step machine sees their
  verdict as `Spec.valid`.
- Names outside ASCII in the name validator.
- Re-creation of a deleted resource under the same name, and objects of other owners under the operator's names.
- API-server defaulting beyond replicas, admission and cached reads.
- Labels shared by all parts: Service selectors carry the component label only.
