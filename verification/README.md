# Trussium Operator: a verified model of the control loop

The Trussium Operator reconciles `TrussiumRuntime` resources into Kubernetes objects, derives a
status with six conditions from the managed Deployment, tracks image upgrades, and announces status
transitions as Events. This project models that control loop in Dafny and proves what it guarantees
over every input, every run from the empty status, and every interleaving of its workers with users,
the autoscaler and other writers.

`dafny verify dfyconfig.toml` checks the whole project.

## Layout

| file | content |
|---|---|
| `RuntimeApi.dfy` | spec, status, conditions, and the observed parts of Deployments and Services |
| `Ordering.dfy`, `ConfigPayload.dfy` | sorted listings, and the text hashed into the config checksum, with its decoder |
| `RuntimeResources.dfy` | image reference, replica counts, labels, selectors, configuration data |
| `Conditions.dfy` | condition lists: find, set, and restoring transition times |
| `DeploymentRollout.dfy` | Deployment failures, rollout state, current image |
| `RuntimeStatus.dfy` | the status builders, imperative, against a table of phases and rows |
| `StatusProperties.dfy`, `StatusRuns.dfy` | what one status computation guarantees; invariants of all runs |
| `RuntimeEvents.dfy`, `EventTraces.dfy` | the Event recorders; facts about whole traces |
| `SecretReferences.dfy` | reference validation and the Secret watch |
| `ManagedResources.dfy` | CreateOrUpdate and the seven managed kinds: drift correction |
| `Reconciler.dfy` | Reconcile on the store, imperative, and its fixpoint |
| `Quiescence.dfy` | what every order of working off the queue leads to |
| `WatchQueue.dfy` | work queue, watches and workers, one API call at a time, as a state machine: no lost wake-ups, and where stored statuses come from |
| `Workers.dfy` | a worker nobody disturbs does what Reconcile does |
| `OwnedWatch.dfy` | the watches on owned objects: no drift and no workload change goes unnoticed |
| `FailedLists.dfy` | exactly when a failed List in the Secret watch loses a wake-up |
| `ReplicaRace.dfy` | the Deployment write racing the autoscaler |

## Reading the model

- Go strings are byte strings; one `char` stands for one byte.
- A build reads the clock once per `setRuntimeCondition` call, and all readings are arbitrary. A
  condition update carries its reading; the condition list decides whether the reading is used. The
  API server stores times with second precision (`Conditions.Persist`).
- Condition types, reasons and messages are datatypes with an `Other…` case for foreign values.
  Messages are kept as functions of the values they mention.
- `meta.SetStatusCondition`, `meta.FindStatusCondition`, `controllerutil.CreateOrUpdate`,
  `SetControllerReference` and `slices.Sort` are library code and are written out. The API server
  starts a Deployment at generation 1, counts spec changes, and rejects a write whose version is
  stale.
- API calls fail by parameter: every Get, List, write and status update of a reconcile can fail.
- The pass over the managed kinds, the status step and the Events of `Reconciler.ReconcileEffect`
  are the same functions that the runs of `StatusRuns` and `EventTraces` and the workers of
  `WatchQueue` are made of; `WatchQueue.StoredStatusesFromRuns` and `Workers.WorkerRefinesReconcile`
  join them.

## Where the code and its documentation or an obvious expectation part

- `docs/STATUS_AND_EVENTS.md` lists `ReferenceCheckFailed` as a reason of `ConfigurationValid`, and a
  `ConfigurationInvalid` Event for Secrets that cannot be checked. In the code every failure path
  builds its status as if the references were valid: after a failed lookup, and also when a Secret
  was found missing and the workload could then not be observed
  (`Reconciler.ConfigurationValidInStore`, `Reconciler.MissingSecretReportedValid`).
- The same document says each condition records the generation it represents. `Upgrading` keeps its
  old generation whenever it is tracked and the desired image is the successful one, so after every
  edit that leaves the image alone (`StatusRuns.UpgradingGenerationIff`,
  `StatusRuns.PlainEditKeepsOldGeneration`). After a reverted upgrade it keeps its whole old value,
  possibly True (`StatusRuns.StaleUpgradingIff`, `StatusRuns.RevertedUpgradeStaysUpgrading`).
- A completed upgrade directly after a completed upgrade has no Event
  (`EventTraces.UpgradeCompletedInRuns`, `EventTraces.CompletionEventDropped`).
- With zero desired replicas the base conditions ignore Deployment failures, the rollout observer
  does not (`StatusProperties.FailedRolloutIsDegradedIff`, `StatusProperties.ReadyOverFailedRollout`).
- With invalid references `Available` is measured against the declared scale, not the autoscaler's
  (`StatusProperties.AvailabilityAgreesIff`, `StatusProperties.MissingSecretHidesAvailability`).
- A failed List in the Secret watch can lose a wake-up, also one for a reconcile in flight
  (`FailedLists.FailedListLosesWakeUp`, `FailedLists.InFlightWakeUpLost`).
- Disabled NetworkPolicies and autoscalers are deleted whoever controls them
  (`Reconciler.ForeignSurvivesReconcileIff`, `ManagedResources.ForeignPolicyDeleted`).
- Such a deletion wakes the runtime that controlled the object, so two passes per runtime are not
  always all (`Quiescence.TwoPassesSufficeIff`, `Quiescence.NewHolderWokenTwice`).
- While references do not resolve, a runtime reports a Deployment of its name that it does not control,
  and is not woken when that changes (`OwnedWatch.UnnoticedChangeIff`,
  `OwnedWatch.StrayWorkloadGoesUnnoticed`).

## Model

| member | source | states |
|---|---|---|
| ConfigPayload.RuntimeConfigPayload | internal/controller/runtime_resources.go:318-342 | whatever order the map yields its keys in, the builder ends up with the payload of the map's sorted listing |
| ConfigPayload.PayloadIsCanonical | internal/controller/runtime_resources.go:318-342 | a text decodes to a map exactly when it is that map's payload: lossless and canonical, even when keys or values contain ':', ';' or digits |
| ConfigPayload.PayloadInjective | internal/controller/runtime_resources.go:318-342 | different maps have different payloads |
| ConfigPayload.ReadFieldIff | internal/controller/runtime_resources.go:334-341 | reading a length-prefixed field succeeds exactly on what is written for some text, whatever follows |
| Ordering.SortStrings | internal/controller/runtime_resources.go:327 | sorting a repetition-free listing gives the one strictly increasing listing of its elements |
| Ordering.SortedSeqUnique | internal/controller/runtime_status.go:149-154 | a strictly increasing listing is determined by its elements, so iteration order never matters |
| RuntimeResources.ImageRoundTrip | internal/controller/runtime_resources.go:97-109 | on schema-valid images the rendered reference parses back to repository and tag or digest, even with ports in the repository |
| RuntimeResources.ImageInjective | api/v1alpha1/trussiumruntime_types.go:62-96 | two schema-valid images render equally exactly when they name the same repository and tag or digest |
| RuntimeResources.MergedPodLabels | internal/controller/runtime_resources.go:188-206 | user labels are merged in any order and never override the operator's identity labels |
| RuntimeResources.PodLabelsAt | internal/controller/runtime_resources.go:188-206 | key by key: an identity label is the operator's, every other label is the user's |
| RuntimeResources.PodAnnotationsAt | internal/controller/runtime_resources.go:208-226 | key by key: every user annotation survives but the checksum, whose text decodes to the configuration data |
| RuntimeResources.RuntimeConfigData | internal/controller/runtime_resources.go:285-316 | filling the map setting by setting gives the configuration data |
| RuntimeResources.ConfigDataReadsBack | internal/controller/runtime_resources.go:285-316 | provider, URL, port and each timeout land under their own variable and can be read back from it |
| RuntimeResources.ConfigDataDetermines | internal/controller/runtime_resources.go:285-316 | the configuration data changes exactly when the provider or a timeout does |
| RuntimeResources.SelectorIsolation | internal/controller/runtime_resources.go:84-93 | for every user label map, a runtime's selector matches a Pod template exactly when it belongs to the runtime of that name |
| RuntimeResources.ConfigChangeRollsTemplate | internal/controller/runtime_resources.go:208-226 | the checksum annotation changes exactly when the provider or a timeout does |
| Conditions.FindSet | internal/controller/runtime_status.go:723-741 | setting a condition affects only the first entry of its type, appends a missing one, and moves the time only with the status |
| Conditions.FindApply | internal/controller/runtime_status.go:723-741 | after any number of updates a condition shows its last one; its time is a reading of one of them or untouched together with the status |
| Conditions.FindMerge | internal/controller/runtime_status.go:862-888 | after normalisation the stored time survives exactly when the stored status does, despite flapping in between |
| Conditions.MergeSettled | internal/controller/runtime_status.go:862-888 | updates a uniquely typed list already reflects leave it exactly as it is, whatever the clock says |
| DeploymentRollout.DeploymentHasRolloutFailure | internal/controller/runtime_status.go:273-294 | the one-pass scan finds a failure exactly when some condition is one |
| DeploymentRollout.DeploymentFailure | internal/controller/runtime_status.go:779-810 | the prioritised two-pass scan agrees with the one-pass scan on every list, and reports the first passed deadline, else the first replica failure |
| DeploymentRollout.RolloutCompleteIff | internal/controller/runtime_status.go:219-271 | a rollout is complete exactly when the Deployment is failure-free, its generation observed and all five counters settled |
| DeploymentRollout.CurrentImageOf | internal/controller/runtime_status.go:812-830 | the current image is that of the first container with the runtime's name, else of the first container |
| RuntimeStatus.StatusDraft.SetRuntimeCondition | internal/controller/runtime_status.go:723-741 | the in-place update of the condition list is the library's set operation |
| RuntimeStatus.StatusDraft.SetAvailabilityCondition | internal/controller/runtime_status.go:679-721 | the Available row for a requested scale and the available replicas |
| RuntimeStatus.ReportScaleToZero | internal/controller/runtime_status.go:428-505 | the scaled-to-zero branches set the rows of their phase |
| RuntimeStatus.ReportReplicas | internal/controller/runtime_status.go:507-632 | the failing, serving and converging branches set the rows of their phase |
| RuntimeStatus.BuildBaseRuntimeStatus | internal/controller/runtime_status.go:314-633 | all branches of the base builder produce the fields and the five rows of the phase table |
| RuntimeStatus.ApplyUpgradeStatus | internal/controller/runtime_status.go:923-1051 | every branch follows the upgrade decision; the successful image moves exactly when the desired image has rolled out |
| RuntimeStatus.BuildRuntimeStatus | internal/controller/runtime_status.go:296-312 | the composed build is one flat sequence of condition updates on the stored list |
| RuntimeStatus.BuildReconciliationFailureStatus | internal/controller/runtime_status.go:635-677 | the failure build overwrites three of the conditions it has just set |
| RuntimeStatus.PreserveRuntimeConditionTransitionTimes | internal/controller/runtime_status.go:862-888 | the in-place loop restores stored times element by element as specified |
| StatusProperties.TargetCondition | internal/controller/runtime_status.go:296-677 | each condition of the normalised status: its final row at the runtime's generation, with the stored time exactly when the status survives, else a clock reading of this build |
| StatusProperties.TargetIsExclusive | internal/controller/runtime_status.go:314-677 | on all three builder paths, from any prior list, exactly one of Ready, Progressing and Degraded is True |
| StatusProperties.TargetCarriesGeneration | internal/controller/runtime_status.go:314-677 | the five non-upgrade conditions carry the status's observed generation, which is the runtime's |
| StatusProperties.ConfigurationValidIff | internal/controller/runtime_status.go:635-644 | the builders report ConfigurationValid exactly when they are given valid references, which the failure build always is |
| StatusProperties.ReadyIff | internal/controller/runtime_status.go:425-584 | on the valid path Ready is True exactly when the generation is observed, ready and available replicas equal the desired count, and nothing failed or nothing is desired |
| StatusProperties.DegradedIff | internal/controller/runtime_status.go:337-540 | Degraded is True exactly after a failed reconcile, with invalid references, or when a Deployment that should run replicas reports a failure |
| StatusProperties.AvailableIff | internal/controller/runtime_status.go:354-358 | Available is True exactly when replicas are requested and one is available, with the declared scale on the invalid path |
| StatusProperties.AvailabilityAgreesIff | internal/controller/runtime_status.go:354-358 | valid and invalid path agree on Available unless replicas are available and exactly one of declared and autoscaled scale asks for any |
| StatusProperties.MissingSecretHidesAvailability | internal/controller/runtime_status.go:354-358 | an autoscaled runtime declaring no replicas stops being Available when a Secret goes missing |
| StatusProperties.FailedRolloutIsDegradedIff | internal/controller/runtime_status.go:227-229 | a failed rollout is Degraded exactly when replicas are desired |
| StatusProperties.ReadyOverFailedRollout | internal/controller/runtime_status.go:428-466 | scaled to zero, a runtime is Ready over a Deployment whose rollout failed |
| StatusProperties.FailureIsNamed | internal/controller/runtime_status.go:646-676 | a failed reconcile says so, with its error, in Progressing, Ready and Degraded |
| StatusProperties.InvalidReferencesAreNamed | internal/controller/runtime_status.go:337-377 | invalid references are named in ConfigurationValid and Degraded and blamed in Progressing and Ready |
| StatusProperties.ReadyReason | internal/controller/runtime_status.go:425-632 | Ready tells scaled to zero from serving, and a failed Deployment from one not ready yet |
| StatusProperties.ProgressingReason | internal/controller/runtime_status.go:425-632 | the reason of Progressing, in terms of the Deployment |
| StatusProperties.DegradedReason | internal/controller/runtime_status.go:779-810 | the reason of Degraded: a passed deadline before a replica failure |
| StatusProperties.AvailableReason | internal/controller/runtime_status.go:679-721 | Available blames scaling to zero exactly when no replicas are asked for and none is left |
| StatusProperties.TargetFields | internal/controller/runtime_status.go:319-335 | replica counts, images and endpoint reported, on every path |
| StatusProperties.RolloutCompleteIsReady | internal/controller/runtime_status.go:219-294 | on the valid path a completed rollout is Ready, so lastSuccessfulImage never advances there without Ready |
| StatusProperties.UpgradeSettles | internal/controller/runtime_status.go:934-1050 | repeating an upgrade decision on its own result asks for nothing new |
| StatusProperties.SettlesInOneStep | internal/controller/runtime_status.go:890-921 | recomputing from a stored target, whatever its time precision and the later readings, gives the stored status back: no second write; covers the failure path that sets conditions twice |
| StatusRuns.RunInvariant | internal/controller/runtime_status.go:923-1051 | in every run from the empty status: empty last successful image means NoUpgrade, a differing one means UpgradeInProgress or UpgradeFailed, UpgradeComplete means equal images, Upgrading is True exactly with UpgradeInProgress; types stay unique; exactly one of Ready, Progressing and Degraded is True; five conditions share the observed generation |
| StatusRuns.UpgradeRowFacts | internal/controller/runtime_status.go:939-1048 | what the upgrade decision means for the image pair it leads to |
| StatusRuns.UpgradeIsReported | internal/controller/runtime_status.go:939-1048 | whatever the outcome, an upgrade under way is reported as the Deployment stands, naming both images, and none where there is nothing to upgrade from |
| StatusRuns.UpgradeFailedIff | internal/controller/runtime_status.go:986-1048 | a pending upgrade is reported failed exactly when the Deployment reports a failure, complete exactly when it has converged on the desired image, in progress exactly when Upgrading is True |
| StatusRuns.LastSuccessfulChange | internal/controller/runtime_status.go:934-1050 | lastSuccessfulImage changes only in a written step that saw the new image desired, configured and completely rolled out |
| StatusRuns.LastSuccessfulProvenance | internal/controller/runtime_status.go:934-1050 | in every run it is empty or was rolled out at some earlier written step |
| StatusRuns.LastSuccessfulKept | internal/controller/runtime_status.go:934-1050 | once set it is never lost |
| StatusRuns.StaleUpgradingIff | internal/controller/runtime_status.go:966-984 | Upgrading is True with equal images exactly when the desired image returned while it was True; the condition is then untouched, generation included |
| StatusRuns.RevertedUpgradeStaysUpgrading | internal/controller/runtime_status.go:966-984 | deploy, start an upgrade, revert: Upgrading stays True for every such run |
| StatusRuns.UpgradingGenerationIff | internal/controller/runtime_status.go:966-984 | Upgrading carries the status's generation except exactly when it is tracked at another one and the desired image is the successful one |
| StatusRuns.PlainEditKeepsOldGeneration | internal/controller/runtime_status.go:966-984 | create, roll out, edit anything but the image: Upgrading still carries the first generation, in every such run |
| StatusRuns.TransitionTimesHonest | internal/controller/runtime_status.go:862-888 | in every run a stored transition time moves only when the stored status changes or first appears, and then is a clock reading of that reconcile in seconds |
| StatusRuns.RepeatedReconcileIsQuiet | internal/controller/runtime_status.go:892-921 | repeating a reconcile on the rounded, stored result never writes again |
| RuntimeEvents.Recorder.RecordConfigurationTransition | internal/controller/runtime_events.go:83-113 | appends the Event for entering ConfigurationValid=False, or nothing |
| RuntimeEvents.Recorder.RecordDegradedTransition | internal/controller/runtime_events.go:115-168 | appends RuntimeDegraded, RuntimeRecovered, or nothing |
| RuntimeEvents.Recorder.RecordProgressingTransition | internal/controller/runtime_events.go:170-200 | appends the Event for entering Progressing=True, or nothing |
| RuntimeEvents.Recorder.RecordReadyTransition | internal/controller/runtime_events.go:202-237 | appends RuntimeReady or RuntimeScaledToZero for entering Ready=True, or nothing |
| RuntimeEvents.Recorder.RecordUpgradeTransition | internal/controller/runtime_events.go:258-361 | appends the announcement of a changed Upgrading reason with its two images, or nothing |
| RuntimeEvents.Recorder.RecordStatusTransitionEvents | internal/controller/runtime_events.go:47-81 | the five recorders in their fixed order |
| EventTraces.TransitionEmits | internal/controller/runtime_events.go:47-361 | for each Event reason exactly which change of conditions and images emits it |
| EventTraces.TransitionEventsSaySo | internal/controller/runtime_events.go:83-361 | every upgrade Event names the image left and the image desired; every other Event repeats its condition's message; bad news are warnings |
| EventTraces.TransitionEventsInTurn | internal/controller/runtime_events.go:47-81 | at most one Event per recorder, in the recorders' order |
| EventTraces.OneHealthEventPerStep | internal/controller/runtime_events.go:115-237 | one reconcile emits at most one of RuntimeReady or RuntimeScaledToZero, RuntimeProgressing and RuntimeDegraded |
| EventTraces.SilentWithoutWrite | internal/controller/trussiumruntime_controller.go:147-167 | without a successful status write there is no transition Event |
| EventTraces.DegradedRecoveredAlternate | internal/controller/runtime_events.go:115-168 | in every run each RuntimeRecovered is preceded by a RuntimeDegraded with no RuntimeRecovered in between, and a degraded stored status is announced |
| EventTraces.UpgradeCompletedIff | internal/controller/runtime_events.go:306-327 | RuntimeUpgradeCompleted is emitted exactly when a write moves a non-empty lastSuccessfulImage and the stored condition was not already a completed upgrade |
| EventTraces.CompletionNamesImages | internal/controller/runtime_events.go:306-327 | every RuntimeUpgradeCompleted names exactly the old and the new successful image |
| EventTraces.UpgradeCompletedInRuns | internal/controller/runtime_events.go:258-327 | in runs from the empty status the exception is exactly a prior reason UpgradeComplete |
| EventTraces.CompletionEventDropped | internal/controller/runtime_events.go:258-327 | the exception is real: when the status write announcing the next upgrade is lost, that upgrade completes without its Event, in every such run |
| EventTraces.UpgradeChangesAreAnnounced | internal/controller/runtime_events.go:279-361 | a changed Upgrading condition with an upgrade reason always passes the image check and is announced |
| SecretReferences.ReferencedSecretNames | internal/controller/runtime_status.go:134-157 | collecting, ranging and sorting yields the sorted set of referenced names |
| SecretReferences.ValidateSecretReferences | internal/controller/runtime_status.go:90-132 | the lookup loop stops at the first missing or unreadable Secret in sorted order |
| SecretReferences.ValidationReportsFirst | internal/controller/runtime_status.go:90-157 | whichever lookups fail: valid exactly when every reference can be read and exists, else the first name in string order that cannot be read or is missing, and which of the two, however references are ordered or repeated |
| SecretReferences.MapSecretToRuntimes | internal/controller/trussiumruntime_controller.go:493-539 | the requests are exactly the stored runtimes of the Secret's namespace that reference it, whatever order the List returns; a failed List yields none |
| SecretReferences.SecretWatchComplete | internal/controller/trussiumruntime_controller.go:493-539 | if two stores differ in one Secret, every runtime whose validation differs is among those requests |
| SecretReferences.SecretWatchExact | internal/controller/trussiumruntime_controller.go:493-539 | a runtime is requested exactly when some change of that Secret would change its validation |
| ManagedResources.ApplyStep | internal/controller/trussiumruntime_controller.go:357-659 | one step fails exactly on foreign ownership of a wanted object; else its kind conforms, unmanaged fields survive and no other kind is touched |
| ManagedResources.ReconcileConforms | internal/controller/trussiumruntime_controller.go:232-304 | after an error-free pass every managed field of every kind has its desired value, autoscaler and NetworkPolicy present exactly when enabled |
| ManagedResources.ReconcileStops | internal/controller/trussiumruntime_controller.go:232-304 | a failing pass stops at the first step that an API error or another owner stops and reports that step and cause; everything before conforms, the rest is untouched |
| ManagedResources.ReconcileFailsIff | internal/controller/trussiumruntime_controller.go:232-304 | a pass fails exactly when an API error or another owner of a needed object stops one of its steps |
| ManagedResources.ReconcileIdempotent | internal/controller/trussiumruntime_controller.go:232-304 | a second pass changes nothing and repeats the result, after success and after any error |
| ManagedResources.DriftCorrection | internal/controller/trussiumruntime_controller.go:357-659 | from any store: exact failure condition, full conformance, unmanaged fields kept, idempotence |
| ManagedResources.ScaleAgreesAfterReconcile | internal/controller/runtime_resources.go:603-619 | after a successful pass from any store, in either scaling mode, the desired count is the Deployment's own |
| ManagedResources.AutoscalerStartsAtMinimum | internal/controller/runtime_resources.go:603-619 | a Deployment created for an autoscaled runtime starts at the autoscaler's minimum; given bounds win over defaults |
| ManagedResources.SelectorsIsolate | internal/controller/runtime_resources.go:84-93 | in conforming objects every selector, of Service, Deployment, topology spread, budget and policy, matches exactly this runtime's Pod templates |
| ManagedResources.ObjectsFitTogether | internal/controller/runtime_resources.go:352-699 | policy port, listening port, autoscaler target, grace period, drain time, account and pull Secrets agree across the managed objects |
| ManagedResources.WokenIff | internal/controller/trussiumruntime_controller.go:553-559 | the watches wake a runtime exactly when an object changes that it controls before or after the change |
| ManagedResources.ChangedDeploymentIsNotComplete | internal/controller/trussiumruntime_controller.go:457-491 | a pass that creates or changes the Deployment never observes a completed rollout |
| ManagedResources.ForeignSurvivesStepIff | internal/controller/trussiumruntime_controller.go:570-599 | a step leaves another owner's object alone exactly when its API call fails or the spec wants such an object |
| ManagedResources.ForeignSurvivesIff | internal/controller/trussiumruntime_controller.go:232-304 | a pass leaves another owner's object alone exactly when it stops at that kind or earlier |
| ManagedResources.ForeignPolicyDeleted | internal/controller/trussiumruntime_controller.go:589-599 | a gateway's NetworkPolicy carrying the runtime's name is deleted by every runtime with the policy disabled |
| Reconciler.StepCorrects | internal/controller/trussiumruntime_controller.go:357-659 | what each of the seven reconcile methods means on the store: fails exactly on an API error or foreign ownership and then changes nothing; else its kind conforms, unmanaged fields survive, nothing else moves |
| Reconciler.RuntimeReconciler.ReconcileConfigMap | internal/controller/trussiumruntime_controller.go:357-387 | the callback's assignments, in place, are the ConfigMap step of the pass |
| Reconciler.RuntimeReconciler.ReconcileServiceAccount | internal/controller/trussiumruntime_controller.go:389-421 | the callback's assignments, in place, are the ServiceAccount step of the pass |
| Reconciler.RuntimeReconciler.ReconcileService | internal/controller/trussiumruntime_controller.go:423-455 | assigning type, selector and ports one by one keeps the Service fields the API server assigned |
| Reconciler.RuntimeReconciler.ReconcileDeployment | internal/controller/trussiumruntime_controller.go:457-491 | saving and restoring the replica count around the spec assignment keeps the autoscaler's choice; the generation counts spec changes |
| Reconciler.RuntimeReconciler.ReconcilePodDisruptionBudget | internal/controller/trussiumruntime_controller.go:629-659 | the callback's assignments, in place, are the PodDisruptionBudget step of the pass |
| Reconciler.RuntimeReconciler.ReconcileNetworkPolicy | internal/controller/trussiumruntime_controller.go:585-627 | deletes when disabled, whoever is the owner, else creates or updates |
| Reconciler.RuntimeReconciler.ReconcileHorizontalPodAutoscaler | internal/controller/trussiumruntime_controller.go:570-583 | deletes when disabled, whoever is the owner, else creates or updates |
| Reconciler.RuntimeReconciler.ReconcileCoreResources | internal/controller/trussiumruntime_controller.go:232-304 | the seven steps in order are the specified pass |
| Reconciler.RuntimeReconciler.UpdateRuntimeStatus | internal/controller/runtime_status.go:890-921 | writes only a status that differs after normalisation, and reports whether it did |
| Reconciler.RuntimeReconciler.PublishStatus | internal/controller/trussiumruntime_controller.go:306-355 | status write, then transition Events only if written, then the failure Event and joined error |
| Reconciler.RuntimeReconciler.EstablishVerdict | internal/controller/trussiumruntime_controller.go:91-139 | validation, core resources only when references resolve, observation, with every failure path |
| Reconciler.RuntimeReconciler.Reconcile | internal/controller/trussiumruntime_controller.go:64-180 | the whole reconcile: new store, appended Events and returned error as functions of the old store and the faults |
| Reconciler.UnresolvedTouchesNothing | internal/controller/trussiumruntime_controller.go:98-114 | one referenced Secret that is missing or cannot be looked up blocks every change to managed resources |
| Reconciler.ForeignSurvivesReconcileIff | internal/controller/trussiumruntime_controller.go:232-304 | a reconcile leaves another owner's object alone exactly when references do not resolve or the pass stops at that kind or earlier |
| Reconciler.ConfigurationValidInStore | internal/controller/trussiumruntime_controller.go:96-114 | on the store and the failing calls: ConfigurationValid is reported False exactly when a Secret is found missing and the observation then succeeds |
| Reconciler.MissingSecretReportedValid | internal/controller/trussiumruntime_controller.go:182-200 | a missing Secret followed by a failed observation is reported as valid references |
| Reconciler.MissingSecretIsNamed | internal/controller/trussiumruntime_controller.go:107-114 | the first missing Secret is named in ConfigurationValid and Degraded |
| Reconciler.SuccessReports | internal/controller/trussiumruntime_controller.go:128-145 | a successful reconcile reports the desired image as current and the endpoint at the desired port |
| Reconciler.PodsUseValidatedSecrets | internal/controller/runtime_status.go:134-157 | the Pods use exactly the Secrets that validation looks up |
| Reconciler.NoPrematureSuccess | internal/controller/trussiumruntime_controller.go:116-145 | a reconcile that creates the Deployment or changes its spec never moves lastSuccessfulImage, on any path and under any faults |
| Reconciler.ReconcileIsFixpoint | internal/controller/trussiumruntime_controller.go:116-167 | without faults one reconcile reaches a store that every later reconcile leaves unchanged, with the same error |
| Reconciler.FaultFreeErrorIff | internal/controller/trussiumruntime_controller.go:116-126 | without faults a reconcile fails, and is requeued, exactly when another owner obstructs it |
| Reconciler.VerdictFailsIff | internal/controller/trussiumruntime_controller.go:98-139 | whatever fails: the verdict is a failure exactly when a lookup or the observation fails or an API error or another owner stops the pass of a runtime whose references resolve |
| Reconciler.ReconcileErrorIff | internal/controller/trussiumruntime_controller.go:64-180 | a reconcile returns an error exactly when its Get fails, its verdict is a failure, or a needed status write is refused; a failed Get changes nothing |
| Reconciler.ErrorIsAnnounced | internal/controller/trussiumruntime_controller.go:306-355 | the Events end with a ReconciliationFailed naming the returned error exactly when there is one |
| Reconciler.VerdictObserves | internal/controller/trussiumruntime_controller.go:306-318 | a failing reconcile reports the workload as it then is, or nothing if that cannot be read either |
| Quiescence.PassesFrame | internal/controller/trussiumruntime_controller.go:116-167 | whatever is reconciled in whatever order, only statuses and managed objects of the reconciled runtimes change; specs and Secrets stay |
| Quiescence.ReconciledIsSettled | internal/controller/trussiumruntime_controller.go:116-167 | one reconcile is enough: whatever follows, a reconciled runtime is at its fixpoint |
| Quiescence.RepeatedPassChangesNothing | internal/controller/trussiumruntime_controller.go:116-167 | in every sequence of passes only a runtime's first one can change the store |
| Quiescence.ObstructedNeverDrains | internal/controller/trussiumruntime_controller.go:116-126 | a queue that holds a runtime obstructed by another owner never drains |
| Quiescence.WakesBystanders | internal/controller/trussiumruntime_controller.go:543-568 | a pass wakes others exactly when it deletes disabled objects that they control, and a settled runtime wakes nobody |
| Quiescence.SchedulesAreBounded | internal/controller/trussiumruntime_controller.go:543-568 | every schedule ends: at most three passes per runtime beyond the keys queued at first |
| Quiescence.DrainedIsQuiet | internal/controller/trussiumruntime_controller.go:543-568 | once the queue is empty, everything that was queued or reconciled is unchanged by further reconciles, which succeed |
| Quiescence.TwoPassesSufficeIff | internal/controller/trussiumruntime_controller.go:543-568 | every schedule from every queue reconciles each runtime at most twice exactly when no runtime is woken by the passes of two, itself included |
| Quiescence.NewHolderWokenTwice | internal/controller/trussiumruntime_controller.go:570-599 | so not when a new runtime controls a disabled object of another: it can be reconciled a third time |
| Quiescence.Drain | internal/controller/trussiumruntime_controller.go:543-568 | working the queue off in any order terminates within that bound; final store and Events are those of the schedule it made, and everything queued or reconciled is quiet |
| WatchQueue.NextKeepsEverything | internal/controller/trussiumruntime_controller.go:493-568 | every action of users, Secrets, watches and workers keeps the no-lost-wake-up invariant, everybody interleaving between any two API calls of a reconcile |
| WatchQueue.NoLostWakeUps | internal/controller/trussiumruntime_controller.go:493-568 | in every reachable state a live runtime neither queued nor in progress reports its current generation, and ConfigurationValid exactly when all its Secrets exist |
| WatchQueue.FinishWritesStatusOnly | internal/controller/runtime_status.go:892-921 | however users interleave with a reconcile, its status write never undoes an edit: it changes nothing but its own runtime's status |
| WatchQueue.StoredStatusesFromRuns | internal/controller/trussiumruntime_controller.go:64-180 | in every reachable state of the queue protocol, failed Lists included, each stored status arises from a run of reconciles and so satisfies every run invariant |
| Workers.WorkerRefinesReconcile | internal/controller/trussiumruntime_controller.go:64-180 | whatever its calls fail with, a worker nobody disturbs does to the store what the reconcile does, and is requeued exactly on an error or when a watch on what it changed asks for it |
| Workers.WorkerRefinesPass | internal/controller/trussiumruntime_controller.go:543-568 | without faults that is one pass of the quiescent queue |
| OwnedWatch.NextKeepsGrounded | internal/controller/trussiumruntime_controller.go:553-559 | every action keeps what workers and idle statuses hold in line with the managed objects |
| OwnedWatch.NoLostDrift | internal/controller/trussiumruntime_controller.go:543-568 | in every reachable state, whoever changed whatever, an idle live runtime whose references resolve has every wanted object as its spec wants it, and a status to which a reconcile would change nothing |
| OwnedWatch.NoLostObservation | internal/controller/runtime_status.go:173-209 | if changes to its Deployment and Service happen under its control, every idle live runtime's status reports them as they are, also while references do not resolve |
| OwnedWatch.IdleIsSettled | internal/controller/trussiumruntime_controller.go:116-167 | an idle live runtime whose references resolve, with no object of a disabled kind around, is at its fixpoint |
| OwnedWatch.UnnoticedChangeIff | internal/controller/runtime_status.go:337-377 | with references unresolved, a change leaves an idle runtime's accurate report out of date exactly when it concerns no object the runtime controls and leads to another report |
| OwnedWatch.StrayWorkloadGoesUnnoticed | internal/controller/runtime_status.go:173-209 | such states are reachable: a change of a Deployment nobody controls leaves an idle runtime's report out of date |
| FailedLists.FailedListLosesWakeUp | internal/controller/trussiumruntime_controller.go:499-514 | for every key, idle or in flight: a failed List leaves a wrong status with nobody due to correct it exactly when the Secret really changes, alone decides a live unqueued runtime's validation, and a reconcile in flight has relied on it and is not followed by another for its own reasons |
| FailedLists.MisledIff | internal/controller/runtime_status.go:90-132 | a reconcile in flight is misled exactly when the change flips the verdict and it has decided or looked past that Secret |
| FailedLists.InFlightWakeUpLost | internal/controller/trussiumruntime_controller.go:499-514 | such states are reachable: for every runtime with one Secret, a reconcile that has just looked it up ends in an idle runtime with a wrong status |
| ReplicaRace.AutoscalerDecisionsSurvive | internal/controller/trussiumruntime_controller.go:457-491 | while autoscaling stays enabled, after every interleaving the replica count is the last autoscaler write of the history since the Deployment came into being; before one, it is unset or the default of some controller write |
| ReplicaRace.ControllerNeverRescales | internal/controller/trussiumruntime_controller.go:474-480 | no controller write alters a replica count that is set; one not set stays so or gets its default |

## Left out

- Process wiring (`cmd/main.go`), metrics, logging, leader election, Helm chart and manifests: no state the control loop depends on.
- SHA-256 and hex encoding of the checksum: results are about the text that is hashed.
- Static Pod template fields (probes, security context, strategy constants) and pass-through scheduling and resource settings: constants or copies, kept as opaque text.
- Human-readable message wording, and the namespace and name in error texts of core resources.
- API-server defaulting, admission and JSON: the store is abstract; a Service's assigned fields appear only as a value that must be kept.
- Writes that take effect although the call reports an error: a failing call leaves the store unchanged.
- Loss of Events between the status write and the recorder: the two are one step.
- A nil recorder: without one there are no Events to speak about.
- WatchQueue.NoLostWakeUps: assumes that reads see the current store and that Lists in the Secret watch succeed; `FailedLists` says exactly what a failed List costs.
- OwnedWatch.NoLostObservation: assumes that changes to a Deployment or Service happen under the runtime's control; `OwnedWatch.UnnoticedChangeIff` says exactly what others cost, and `OwnedWatch.NoLostDrift` does without it once references resolve.
- WatchQueue.Advance: the second observation of a failing reconcile is one step, because such a reconcile is always requeued.
- Periodic resync of the informers: it would queue every runtime again and only hide what the exact conditions above describe.
- Quiescence.Drain: speaks about stores in which no foreign owner obstructs a runtime; an obstructed one is requeued forever, by `Quiescence.ObstructedNeverDrains`.
- ReplicaRace.AutoscalerDecisionsSurvive: a Deployment deleted and recreated starts again at its default scale, as in the code.
