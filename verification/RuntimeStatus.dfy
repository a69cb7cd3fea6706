/** The status state machine: the three status builders, upgrade tracking, and normalisation. */
module RuntimeStatus {
  import opened Wrappers
  import opened RuntimeApi
  import opened RuntimeResources
  import opened Conditions
  import opened DeploymentRollout

  datatype Validation = ReferencesValid | ReferencesInvalid(reason: Reason, message: Message)

  /** How a reconcile ended before its status is built. */
  datatype Outcome = Validated(validation: Validation) | Failed(error: string)

  /** The clock reading of the n-th setRuntimeCondition call of one build. */
  type Clock = nat -> Time

  datatype Row = Row(status: ConditionStatus, reason: Reason, message: Message)

  function UpdateTo(generation: int, kind: ConditionType, row: Row, now: Time): Condition {
    Condition(kind, row.status, generation, row.reason, row.message, now)
  }

  /******* Specification: one phase per reconcile, one row per condition *******/

  datatype Phase =
    | Blocked(reason: Reason, message: Message)
    | Creating
    | AtZero
    | TowardZero
    | Failing(failure: Failure)
    | Serving(available: int)
    | Converging(observed: bool, ready: int, desired: int)

  function PhaseOf(spec: Spec, deployment: Option<Deployment>, validation: Validation): Phase {
    if validation.ReferencesInvalid? then Blocked(validation.reason, validation.message)
    else if deployment.None? then Creating
    else
      var status := deployment.value.status;
      var observed := status.observedGeneration >= deployment.value.generation;
      var desired := DesiredReplicaCount(spec, deployment);
      if desired == 0 then
        if observed && status.readyReplicas == 0 && status.availableReplicas == 0 then AtZero else TowardZero
      else if DeploymentFailure(deployment.value).Some? then Failing(DeploymentFailure(deployment.value).value)
      else if observed && status.readyReplicas == desired && status.availableReplicas == desired
      then Serving(status.availableReplicas)
      else Converging(observed, status.readyReplicas, desired)
  }

  function ConfigurationRow(phase: Phase): Row {
    if phase.Blocked? then Row(False, phase.reason, phase.message)
    else Row(True, ReferencesResolved, SecretsAvailable)
  }

  function ProgressingRow(phase: Phase): Row {
    match phase
    case Blocked(_, _) => Row(False, ConfigurationInvalid, BlockedByReferences)
    case Creating => Row(True, DeploymentProgressing, BeingCreated)
    case AtZero => Row(False, ScaledToZero, ReachedZero)
    case TowardZero => Row(True, DeploymentGenerationPending, ConvergingToZero)
    case Failing(failure) => Row(False, DeploymentFailed, failure.message)
    case Serving(_) => Row(False, ReconciliationComplete, ReachedDesired)
    case Converging(observed, _, desired) =>
      if observed then Row(True, DeploymentProgressing, ProgressingToward(desired))
      else Row(True, DeploymentGenerationPending, GenerationUnobserved)
  }

  /** setAvailabilityCondition. */
  function AvailabilityRow(desired: int, available: int): Row {
    if desired == 0 then Row(False, ScaledToZero, NoneRequested)
    else if available > 0 then Row(True, RuntimeAvailable, ReplicasAvailable(available))
    else Row(False, RuntimeUnavailable, NoneAvailable)
  }

  function AvailableRow(phase: Phase, spec: Spec, deployment: Option<Deployment>): Row {
    var available := if deployment.None? then 0 else deployment.value.status.availableReplicas;
    match phase
    case Blocked(_, _) => AvailabilityRow(DesiredReplicas(spec), available)
    case AtZero => Row(False, ScaledToZero, NoneRequested)
    case TowardZero => Row(False, RuntimeUnavailable, NotAvailable)
    case Serving(_) => Row(True, RuntimeAvailable, ReplicasAvailable(available))
    case _ => AvailabilityRow(DesiredReplicaCount(spec, deployment), available)
  }

  function ReadyRow(phase: Phase): Row {
    match phase
    case Blocked(_, _) => Row(False, ConfigurationInvalid, NotReadyInvalid)
    case Creating => Row(False, RuntimeNotReady, NotYetAvailable)
    case AtZero => Row(True, ScaledToZero, ReachedZero)
    case TowardZero => Row(False, RuntimeNotReady, NotYetZero)
    case Failing(failure) => Row(False, DeploymentFailed, failure.message)
    case Serving(_) => Row(True, RuntimeReady, AllReady)
    case Converging(_, ready, desired) => Row(False, RuntimeNotReady, ReadyOf(ready, desired))
  }

  function DegradedRow(phase: Phase): Row {
    match phase
    case Blocked(_, message) => Row(True, ConfigurationInvalid, message)
    case Failing(failure) => Row(True, failure.reason, failure.message)
    case _ => Row(False, AsExpected, NotDegraded)
  }

  /** The four rows below ConfigurationValid. */
  function PhaseUpdates(generation: int, phase: Phase, spec: Spec, deployment: Option<Deployment>, now: Clock): seq<Condition> {
    [UpdateTo(generation, Progressing, ProgressingRow(phase), now(1)),
     UpdateTo(generation, Available, AvailableRow(phase, spec, deployment), now(2)),
     UpdateTo(generation, Ready, ReadyRow(phase), now(3)),
     UpdateTo(generation, Degraded, DegradedRow(phase), now(4))]
  }

  function BaseUpdates(generation: int, spec: Spec, deployment: Option<Deployment>, validation: Validation, now: Clock)
    : seq<Condition>
  {
    var phase := PhaseOf(spec, deployment, validation);
    [UpdateTo(generation, ConfigurationValid, ConfigurationRow(phase), now(0))]
    + PhaseUpdates(generation, phase, spec, deployment, now)
  }

  /** The Deployment has finished rolling out the desired image. */
  predicate ImageRolledOut(spec: Spec, deployment: Option<Deployment>) {
    ObserveRollout(spec, deployment) == RolloutComplete && CurrentImage(deployment) == RuntimeImage(spec.image)
  }

  function NextLastSuccessful(spec: Spec, deployment: Option<Deployment>, last: string): string {
    if ImageRolledOut(spec, deployment) then RuntimeImage(spec.image) else last
  }

  /** The Upgrading condition to set, given the image that last succeeded and whether the condition
      is already tracked; None leaves it alone. */
  function UpgradeRow(spec: Spec, deployment: Option<Deployment>, last: string, tracked: bool): Option<Row> {
    var desired := RuntimeImage(spec.image);
    if last == "" || (last == desired && !tracked) then Some(Row(False, NoUpgrade, NoImageUpgrade))
    else if last == desired then None
    else
      match ObserveRollout(spec, deployment)
      case RolloutFailed => Some(Row(False, UpgradeFailed, ImageFailed(last, desired)))
      case RolloutProgressing => Some(Row(True, UpgradeInProgress, ImageUpgrading(last, desired)))
      case RolloutComplete =>
        if CurrentImage(deployment) == desired then Some(Row(False, UpgradeComplete, ImageCompleted(last, desired)))
        else Some(Row(True, UpgradeInProgress, ImageTransitioning(last, desired)))
  }

  function UpgradeUpdates(generation: int, spec: Spec, deployment: Option<Deployment>, status: Status, now: Clock)
    : seq<Condition>
  {
    var row := UpgradeRow(spec, deployment, status.lastSuccessfulImage, Find(status.conditions, Upgrading).Some?);
    if row.None? then [] else [UpdateTo(generation, Upgrading, row.value, now(5))]
  }

  function FailureRow(status: ConditionStatus, error: string): Row {
    Row(status, ReconciliationFailed, ReconcileError(error))
  }

  function FailureUpdates(generation: int, error: string, now: Clock): seq<Condition> {
    [UpdateTo(generation, Progressing, FailureRow(False, error), now(6)),
     UpdateTo(generation, Ready, FailureRow(False, error), now(7)),
     UpdateTo(generation, Degraded, FailureRow(True, error), now(8))]
  }

  function ValidationOf(outcome: Outcome): Validation {
    if outcome.Failed? then ReferencesValid else outcome.validation
  }

  /** Every setRuntimeCondition call of one build, in order. */
  function Updates(runtime: Runtime, deployment: Option<Deployment>, outcome: Outcome, now: Clock): seq<Condition> {
    BaseUpdates(runtime.generation, runtime.spec, deployment, ValidationOf(outcome), now)
    + UpgradeUpdates(runtime.generation, runtime.spec, deployment, runtime.status, now)
    + if outcome.Failed? then FailureUpdates(runtime.generation, outcome.error, now) else []
  }

  function ServiceEndpoint(key: Key, service: Option<Service>): Endpoint {
    if service.None? || service.value.ports == [] then NoEndpoint
    else Endpoint(key.name, key.namespace, service.value.ports[0])
  }

  /** The status fields besides conditions and lastSuccessfulImage. */
  function Observed(runtime: Runtime, observation: Observation): Status {
    runtime.status.(
      observedGeneration := runtime.generation,
      readyReplicas := if observation.deployment.None? then 0 else observation.deployment.value.status.readyReplicas,
      availableReplicas := if observation.deployment.None? then 0 else observation.deployment.value.status.availableReplicas,
      desiredImage := RuntimeImage(runtime.spec.image),
      currentImage := CurrentImage(observation.deployment),
      endpoint := ServiceEndpoint(runtime.key, observation.service))
  }

  /** The desired status of a reconcile with this outcome. */
  function BuildStatus(runtime: Runtime, observation: Observation, outcome: Outcome, now: Clock): Status {
    Observed(runtime, observation).(
      lastSuccessfulImage := NextLastSuccessful(runtime.spec, observation.deployment, runtime.status.lastSuccessfulImage),
      conditions := ApplyAll(runtime.status.conditions, Updates(runtime, observation.deployment, outcome, now)))
  }

  function NormaliseStatus(current: Status, desired: Status): Status {
    desired.(conditions := Normalise(current.conditions, desired.conditions))
  }

  /** What updateRuntimeStatus compares with the stored status and writes when different. */
  function Target(runtime: Runtime, observation: Observation, outcome: Outcome, now: Clock): Status {
    NormaliseStatus(runtime.status, BuildStatus(runtime, observation, outcome, now))
  }

  /******* The builders as written, against that specification *******/

  /** A status under construction; the builders pass a pointer to it. The ghost log lists the
      updates its condition list has received since `start`. */
  class StatusDraft {
    var status: Status
    ghost const start: seq<Condition>
    ghost var log: seq<Condition>

    ghost predicate Valid()
      reads this
    {
      status.conditions == ApplyAll(start, log)
    }

    constructor (status: Status)
      ensures Valid() && this.status == status && start == status.conditions && log == []
    {
      this.status := status;
      start := status.conditions;
      log := [];
    }

    method SetRuntimeCondition(generation: int, kind: ConditionType, conditionStatus: ConditionStatus,
                               reason: Reason, message: Message, now: Time)
      requires Valid()
      modifies this
      ensures Valid() && log == old(log) + [UpdateTo(generation, kind, Row(conditionStatus, reason, message), now)]
      ensures status == old(status).(conditions := status.conditions)
    {
      var update := Condition(kind, conditionStatus, generation, reason, message, now);
      ghost var before := status.conditions;
      var existing := IndexOf(status.conditions, kind);
      if existing == |status.conditions| {
        status := status.(conditions := status.conditions + [update]);
      } else {
        var entry := status.conditions[existing];
        if entry.status != conditionStatus {
          entry := entry.(status := conditionStatus, lastTransitionTime := now);
        }
        entry := entry.(reason := reason, message := message, observedGeneration := generation);
        status := status.(conditions := status.conditions[existing := entry]);
      }
      assert status.conditions == SetCondition(before, update);
      log := log + [update];
      assert log[..|log| - 1] == old(log);
    }

    method SetAvailabilityCondition(generation: int, desired: int, now: Time)
      requires Valid()
      modifies this
      ensures Valid() && log == old(log) + [UpdateTo(generation, Available, AvailabilityRow(desired, old(status).availableReplicas), now)]
      ensures status == old(status).(conditions := status.conditions)
    {
      if desired == 0 {
        SetRuntimeCondition(generation, Available, False, ScaledToZero, NoneRequested, now);
        return;
      }
      if status.availableReplicas > 0 {
        SetRuntimeCondition(generation, Available, True, RuntimeAvailable, ReplicasAvailable(status.availableReplicas), now);
        return;
      }
      SetRuntimeCondition(generation, Available, False, RuntimeUnavailable, NoneAvailable, now);
    }
  }

  /** The fields a builder assigns before it sets conditions. */
  method ObserveWorkload(runtime: Runtime, observation: Observation) returns (status: Status)
    ensures status == Observed(runtime, observation)
  {
    status := runtime.status.(
      observedGeneration := runtime.generation,
      readyReplicas := 0,
      availableReplicas := 0,
      desiredImage := RuntimeImage(runtime.spec.image),
      currentImage := CurrentImage(observation.deployment),
      endpoint := ServiceEndpoint(runtime.key, observation.service));
    if observation.deployment.Some? {
      status := status.(
        readyReplicas := observation.deployment.value.status.readyReplicas,
        availableReplicas := observation.deployment.value.status.availableReplicas);
    }
  }

  /** The scaled-to-zero part of the base builder. */
  method ReportScaleToZero(draft: StatusDraft, generation: int, spec: Spec, deployment: Deployment, now: Clock)
    requires draft.Valid() && DesiredReplicaCount(spec, Some(deployment)) == 0
    requires draft.status.readyReplicas == deployment.status.readyReplicas
    requires draft.status.availableReplicas == deployment.status.availableReplicas
    modifies draft
    ensures draft.Valid() && draft.status == old(draft.status).(conditions := draft.status.conditions)
    ensures draft.log == old(draft.log)
              + PhaseUpdates(generation, PhaseOf(spec, Some(deployment), ReferencesValid), spec, Some(deployment), now)
  {
    hide ApplyAll, SetCondition;
    var deploymentObserved := deployment.status.observedGeneration >= deployment.generation;
    if deploymentObserved && draft.status.readyReplicas == 0 && draft.status.availableReplicas == 0 {
      draft.SetRuntimeCondition(generation, Progressing, False, ScaledToZero, ReachedZero, now(1));
      draft.SetRuntimeCondition(generation, Available, False, ScaledToZero, NoneRequested, now(2));
      draft.SetRuntimeCondition(generation, Ready, True, ScaledToZero, ReachedZero, now(3));
      draft.SetRuntimeCondition(generation, Degraded, False, AsExpected, NotDegraded, now(4));
      return;
    }
    draft.SetRuntimeCondition(generation, Progressing, True, DeploymentGenerationPending, ConvergingToZero, now(1));
    draft.SetRuntimeCondition(generation, Available, False, RuntimeUnavailable, NotAvailable, now(2));
    draft.SetRuntimeCondition(generation, Ready, False, RuntimeNotReady, NotYetZero, now(3));
    draft.SetRuntimeCondition(generation, Degraded, False, AsExpected, NotDegraded, now(4));
  }

  /** The part of the base builder for a Deployment that should run replicas. */
  method ReportReplicas(draft: StatusDraft, generation: int, spec: Spec, deployment: Deployment, now: Clock)
    requires draft.Valid() && DesiredReplicaCount(spec, Some(deployment)) != 0
    requires draft.status.readyReplicas == deployment.status.readyReplicas
    requires draft.status.availableReplicas == deployment.status.availableReplicas
    modifies draft
    ensures draft.Valid() && draft.status == old(draft.status).(conditions := draft.status.conditions)
    ensures draft.log == old(draft.log)
              + PhaseUpdates(generation, PhaseOf(spec, Some(deployment), ReferencesValid), spec, Some(deployment), now)
  {
    hide ApplyAll, SetCondition, FailureFree, IsFailureOf, DesiredReplicaCount;
    var desired := DesiredReplicaCount(spec, Some(deployment));
    var deploymentObserved := deployment.status.observedGeneration >= deployment.generation;
    var failure := DeploymentFailure(deployment);
    if failure.Some? {
      draft.SetRuntimeCondition(generation, Progressing, False, DeploymentFailed, failure.value.message, now(1));
      draft.SetAvailabilityCondition(generation, desired, now(2));
      draft.SetRuntimeCondition(generation, Ready, False, DeploymentFailed, failure.value.message, now(3));
      draft.SetRuntimeCondition(generation, Degraded, True, failure.value.reason, failure.value.message, now(4));
      return;
    }
    if deploymentObserved && draft.status.readyReplicas == desired && draft.status.availableReplicas == desired {
      draft.SetRuntimeCondition(generation, Progressing, False, ReconciliationComplete, ReachedDesired, now(1));
      draft.SetRuntimeCondition(generation, Available, True, RuntimeAvailable,
                                ReplicasAvailable(draft.status.availableReplicas), now(2));
      draft.SetRuntimeCondition(generation, Ready, True, RuntimeReady, AllReady, now(3));
      draft.SetRuntimeCondition(generation, Degraded, False, AsExpected, NotDegraded, now(4));
      return;
    }
    var progressReason, progressMessage := DeploymentProgressing, ProgressingToward(desired);
    if !deploymentObserved {
      progressReason, progressMessage := DeploymentGenerationPending, GenerationUnobserved;
    }
    draft.SetRuntimeCondition(generation, Progressing, True, progressReason, progressMessage, now(1));
    draft.SetAvailabilityCondition(generation, desired, now(2));
    draft.SetRuntimeCondition(generation, Ready, False, RuntimeNotReady, ReadyOf(draft.status.readyReplicas, desired), now(3));
    draft.SetRuntimeCondition(generation, Degraded, False, AsExpected, NotDegraded, now(4));
  }

  method BuildBaseRuntimeStatus(runtime: Runtime, observation: Observation, validation: Validation, now: Clock)
    returns (status: Status)
    ensures status == Observed(runtime, observation).(conditions :=
              ApplyAll(runtime.status.conditions,
                       BaseUpdates(runtime.generation, runtime.spec, observation.deployment, validation, now)))
  {
    hide ApplyAll, SetCondition, DeploymentFailure, DesiredReplicaCount;
    status := ObserveWorkload(runtime, observation);
    var draft := new StatusDraft(status);
    var generation, spec, deployment := runtime.generation, runtime.spec, observation.deployment;
    ghost var updates := BaseUpdates(generation, spec, deployment, validation, now);

    if validation.ReferencesInvalid? {
      draft.SetRuntimeCondition(generation, ConfigurationValid, False, validation.reason, validation.message, now(0));
      draft.SetRuntimeCondition(generation, Progressing, False, ConfigurationInvalid, BlockedByReferences, now(1));
      draft.SetAvailabilityCondition(generation, DesiredReplicas(spec), now(2));
      draft.SetRuntimeCondition(generation, Ready, False, ConfigurationInvalid, NotReadyInvalid, now(3));
      draft.SetRuntimeCondition(generation, Degraded, True, ConfigurationInvalid, validation.message, now(4));
      assert draft.log == updates;
      return draft.status;
    }

    draft.SetRuntimeCondition(generation, ConfigurationValid, True, ReferencesResolved, SecretsAvailable, now(0));

    if deployment.None? {
      draft.SetRuntimeCondition(generation, Progressing, True, DeploymentProgressing, BeingCreated, now(1));
      draft.SetAvailabilityCondition(generation, DesiredReplicaCount(spec, deployment), now(2));
      draft.SetRuntimeCondition(generation, Ready, False, RuntimeNotReady, NotYetAvailable, now(3));
      draft.SetRuntimeCondition(generation, Degraded, False, AsExpected, NotDegraded, now(4));
    } else if DesiredReplicaCount(spec, deployment) == 0 {
      ReportScaleToZero(draft, generation, spec, deployment.value, now);
    } else {
      ReportReplicas(draft, generation, spec, deployment.value, now);
    }
    assert draft.log == updates;
    return draft.status;
  }

  method ApplyUpgradeStatus(runtime: Runtime, deployment: Option<Deployment>, status: Status, now: Clock)
    returns (upgraded: Status)
    ensures upgraded == status.(
              desiredImage := RuntimeImage(runtime.spec.image),
              lastSuccessfulImage := NextLastSuccessful(runtime.spec, deployment, status.lastSuccessfulImage),
              conditions := ApplyAll(status.conditions, UpgradeUpdates(runtime.generation, runtime.spec, deployment, status, now)))
  {
    var desiredImage, generation := RuntimeImage(runtime.spec.image), runtime.generation;
    var draft := new StatusDraft(status.(desiredImage := desiredImage));
    var rollout := ObserveRollout(runtime.spec, deployment);
    var last := status.lastSuccessfulImage;

    if last == "" {
      if rollout == RolloutComplete && CurrentImage(deployment) == desiredImage {
        draft.status := draft.status.(lastSuccessfulImage := desiredImage);
      }
      draft.SetRuntimeCondition(generation, Upgrading, False, NoUpgrade, NoImageUpgrade, now(5));
      return draft.status;
    }

    if desiredImage == last {
      if Find(draft.status.conditions, Upgrading).None? {
        draft.SetRuntimeCondition(generation, Upgrading, False, NoUpgrade, NoImageUpgrade, now(5));
      }
      return draft.status;
    }

    match rollout {
    case RolloutFailed =>
      draft.SetRuntimeCondition(generation, Upgrading, False, UpgradeFailed, ImageFailed(last, desiredImage), now(5));
    case RolloutComplete =>
      if CurrentImage(deployment) != desiredImage {
        draft.SetRuntimeCondition(generation, Upgrading, True, UpgradeInProgress, ImageTransitioning(last, desiredImage), now(5));
        return draft.status;
      }
      draft.status := draft.status.(lastSuccessfulImage := desiredImage);
      draft.SetRuntimeCondition(generation, Upgrading, False, UpgradeComplete, ImageCompleted(last, desiredImage), now(5));
    case RolloutProgressing =>
      draft.SetRuntimeCondition(generation, Upgrading, True, UpgradeInProgress, ImageUpgrading(last, desiredImage), now(5));
    }
    return draft.status;
  }

  lemma BaseLeavesUpgrading(cs: seq<Condition>, updates: seq<Condition>)
    requires |updates| == 5 && forall i :: 0 <= i < 5 ==> updates[i].kind != Upgrading
    ensures Find(ApplyAll(cs, updates), Upgrading) == Find(cs, Upgrading)
  {
    FindApply(cs, updates, Upgrading);
    LastForIsUpdate(updates, Upgrading);
  }

  method BuildRuntimeStatus(runtime: Runtime, observation: Observation, validation: Validation, now: Clock)
    returns (status: Status)
    ensures status == BuildStatus(runtime, observation, Validated(validation), now)
  {
    status := BuildBaseRuntimeStatus(runtime, observation, validation, now);
    ghost var base := BaseUpdates(runtime.generation, runtime.spec, observation.deployment, validation, now);
    BaseLeavesUpgrading(runtime.status.conditions, base);
    ghost var upgrade := UpgradeUpdates(runtime.generation, runtime.spec, observation.deployment, runtime.status, now);
    ApplyConcat(runtime.status.conditions, base, upgrade);
    assert Updates(runtime, observation.deployment, Validated(validation), now) == base + upgrade;
    status := ApplyUpgradeStatus(runtime, observation.deployment, status, now);
  }

  method BuildReconciliationFailureStatus(runtime: Runtime, observation: Observation, error: string, now: Clock)
    returns (status: Status)
    ensures status == BuildStatus(runtime, observation, Failed(error), now)
  {
    var base := BuildRuntimeStatus(runtime, observation, ReferencesValid, now);
    status := OverwriteWithFailure(base, runtime.generation, error, now);
    ghost var before := Updates(runtime, observation.deployment, Validated(ReferencesValid), now);
    ghost var failure := FailureUpdates(runtime.generation, error, now);
    ApplyConcat(runtime.status.conditions, before, failure);
    assert Updates(runtime, observation.deployment, Failed(error), now) == before + failure;
  }

  method OverwriteWithFailure(base: Status, generation: int, error: string, now: Clock) returns (status: Status)
    ensures status == base.(conditions := ApplyAll(base.conditions, FailureUpdates(generation, error, now)))
  {
    var draft := new StatusDraft(base);
    var message := ReconcileError(error);
    draft.SetRuntimeCondition(generation, Progressing, False, ReconciliationFailed, message, now(6));
    draft.SetRuntimeCondition(generation, Ready, False, ReconciliationFailed, message, now(7));
    draft.SetRuntimeCondition(generation, Degraded, True, ReconciliationFailed, message, now(8));
    assert draft.log == FailureUpdates(generation, error, now);
    return draft.status;
  }

  /** Clones the desired conditions and restores stored transition times element by element. */
  method PreserveRuntimeConditionTransitionTimes(current: Status, desired: Status) returns (normalized: Status)
    ensures normalized == NormaliseStatus(current, desired)
  {
    var clone := new Condition[|desired.conditions|](i requires 0 <= i < |desired.conditions| => desired.conditions[i]);
    for index := 0 to clone.Length
      invariant forall i :: 0 <= i < index ==> clone[i] == Preserve(current.conditions, desired.conditions[i])
      invariant forall i :: index <= i < clone.Length ==> clone[i] == desired.conditions[i]
    {
      var stored := Find(current.conditions, clone[index].kind);
      if stored.None? {
        continue;
      }
      if stored.value.status != clone[index].status {
        continue;
      }
      clone[index] := clone[index].(lastTransitionTime := stored.value.lastTransitionTime);
    }
    normalized := desired.(conditions := clone[..]);
    assert clone[..] == Normalise(current.conditions, desired.conditions);
  }
}
