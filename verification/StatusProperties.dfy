/** What one status computation guarantees, from any stored status. */
module StatusProperties {
  import opened Wrappers
  import opened RuntimeApi
  import opened RuntimeResources
  import opened Conditions
  import opened DeploymentRollout
  import opened RuntimeStatus

  /** The row each condition ends up with, ignoring how often it was set on the way. */
  function FinalRow(status: Status, spec: Spec, deployment: Option<Deployment>, outcome: Outcome, kind: ConditionType)
    : Option<Row>
  {
    var phase := PhaseOf(spec, deployment, ValidationOf(outcome));
    match kind
    case ConfigurationValid => Some(ConfigurationRow(phase))
    case Progressing => Some(if outcome.Failed? then FailureRow(False, outcome.error) else ProgressingRow(phase))
    case Available => Some(AvailableRow(phase, spec, deployment))
    case Ready => Some(if outcome.Failed? then FailureRow(False, outcome.error) else ReadyRow(phase))
    case Degraded => Some(if outcome.Failed? then FailureRow(True, outcome.error) else DegradedRow(phase))
    case Upgrading => UpgradeRow(spec, deployment, status.lastSuccessfulImage, Find(status.conditions, Upgrading).Some?)
    case OtherType(_) => None
  }

  ghost predicate ClockRead(now: Clock, time: Time) {
    exists n: nat :: n < 9 && now(n) == time
  }

  lemma LastForBase(generation: int, spec: Spec, deployment: Option<Deployment>, validation: Validation, now: Clock, kind: ConditionType)
    ensures var phase := PhaseOf(spec, deployment, validation);
            LastFor(BaseUpdates(generation, spec, deployment, validation, now), kind) ==
            match kind
            case ConfigurationValid => Some(UpdateTo(generation, kind, ConfigurationRow(phase), now(0)))
            case Progressing => Some(UpdateTo(generation, kind, ProgressingRow(phase), now(1)))
            case Available => Some(UpdateTo(generation, kind, AvailableRow(phase, spec, deployment), now(2)))
            case Ready => Some(UpdateTo(generation, kind, ReadyRow(phase), now(3)))
            case Degraded => Some(UpdateTo(generation, kind, DegradedRow(phase), now(4)))
            case _ => None
  {
    hide PhaseOf, ConfigurationRow, ProgressingRow, AvailableRow, ReadyRow, DegradedRow;
    var u := BaseUpdates(generation, spec, deployment, validation, now);
    assert u == [u[0], u[1], u[2], u[3], u[4]];
    LastOfFive(u[0], u[1], u[2], u[3], u[4], kind);
  }

  lemma LastOfFive(a: Condition, b: Condition, c: Condition, d: Condition, e: Condition, kind: ConditionType)
    ensures LastFor([a, b, c, d, e], kind) ==
            if e.kind == kind then Some(e) else if d.kind == kind then Some(d) else if c.kind == kind then Some(c)
            else if b.kind == kind then Some(b) else if a.kind == kind then Some(a) else None
  {
    assert [a, b, c, d, e][..4] == [a, b, c, d];
    assert [a, b, c, d][..3] == [a, b, c];
    LastOfThree(a, b, c, kind);
    assert LastFor([a, b, c, d], kind) == if d.kind == kind then Some(d) else LastFor([a, b, c], kind);
  }

  lemma LastOfThree(a: Condition, b: Condition, c: Condition, kind: ConditionType)
    ensures LastFor([a, b, c], kind) ==
            if c.kind == kind then Some(c) else if b.kind == kind then Some(b) else if a.kind == kind then Some(a) else None
  {
    assert [a, b, c][..2] == [a, b];
    assert [a, b][..1] == [a];
    assert [a][..0] == [];
    assert LastFor([a], kind) == if a.kind == kind then Some(a) else None;
    assert LastFor([a, b], kind) == if b.kind == kind then Some(b) else LastFor([a], kind);
  }

  lemma LastForFailure(generation: int, error: string, now: Clock, kind: ConditionType)
    ensures LastFor(FailureUpdates(generation, error, now), kind) ==
            match kind
            case Progressing => Some(UpdateTo(generation, kind, FailureRow(False, error), now(6)))
            case Ready => Some(UpdateTo(generation, kind, FailureRow(False, error), now(7)))
            case Degraded => Some(UpdateTo(generation, kind, FailureRow(True, error), now(8)))
            case _ => None
  {
    var u := FailureUpdates(generation, error, now);
    LastOfThree(u[0], u[1], u[2], kind);
  }

  lemma LastUpdate(runtime: Runtime, deployment: Option<Deployment>, outcome: Outcome, now: Clock, kind: ConditionType)
    ensures var row := FinalRow(runtime.status, runtime.spec, deployment, outcome, kind);
            var last := LastFor(Updates(runtime, deployment, outcome, now), kind);
            && (row.None? <==> last.None?)
            && (row.Some? ==> SameButTime(UpdateTo(runtime.generation, kind, row.value, 0), last.value))
  {
    var generation, spec := runtime.generation, runtime.spec;
    var base := BaseUpdates(generation, spec, deployment, ValidationOf(outcome), now);
    var upgrade := UpgradeUpdates(generation, spec, deployment, runtime.status, now);
    var failure := if outcome.Failed? then FailureUpdates(generation, outcome.error, now) else [];
    hide PhaseOf, ConfigurationRow, ProgressingRow, AvailableRow, ReadyRow, DegradedRow, UpgradeRow, BaseUpdates, FailureUpdates, Find;
    LastForBase(generation, spec, deployment, ValidationOf(outcome), now, kind);
    if outcome.Failed? { LastForFailure(generation, outcome.error, now, kind); }
    LastForConcat(base + upgrade, failure, kind);
    LastForConcat(base, upgrade, kind);
    if upgrade != [] { assert upgrade[..0] == []; }
  }

  /** Updates only carry readings of this build's clock. */
  lemma ReadingsAreClockReads(runtime: Runtime, deployment: Option<Deployment>, outcome: Outcome, now: Clock, kind: ConditionType, time: Time)
    requires IsReading(Updates(runtime, deployment, outcome, now), kind, time)
    ensures ClockRead(now, time)
  {
    hide PhaseOf, ConfigurationRow, ProgressingRow, AvailableRow, ReadyRow, DegradedRow, UpgradeRow;
    var u := Updates(runtime, deployment, outcome, now);
    var i :| 0 <= i < |u| && u[i].kind == kind && u[i].lastTransitionTime == time;
    assert time in [now(0), now(1), now(2), now(3), now(4), now(5), now(6), now(7), now(8)];
  }

  /** Each condition of the target status: its final row at this generation, with the stored
      transition time exactly when the stored status survives, else a reading of this build. */
  lemma TargetCondition(runtime: Runtime, observation: Observation, outcome: Outcome, now: Clock, kind: ConditionType)
    ensures var row := FinalRow(runtime.status, runtime.spec, observation.deployment, outcome, kind);
            var stored := Find(runtime.status.conditions, kind);
            var found := Find(Target(runtime, observation, outcome, now).conditions, kind);
            && (row.None? ==> found == stored)
            && (row.Some? ==>
                && found.Some?
                && SameButTime(UpdateTo(runtime.generation, kind, row.value, 0), found.value)
                && (if stored.Some? && stored.value.status == row.value.status
                    then found.value.lastTransitionTime == stored.value.lastTransitionTime
                    else ClockRead(now, found.value.lastTransitionTime)))
  {
    hide FinalRow, Updates, Find;
    var updates := Updates(runtime, observation.deployment, outcome, now);
    assert Target(runtime, observation, outcome, now).conditions == Merge(runtime.status.conditions, updates);
    FindMerge(runtime.status.conditions, updates, kind);
    LastUpdate(runtime, observation.deployment, outcome, now, kind);
    var found := Find(Merge(runtime.status.conditions, updates), kind);
    if found.Some? && IsReading(updates, kind, found.value.lastTransitionTime) {
      ReadingsAreClockReads(runtime, observation.deployment, outcome, now, kind, found.value.lastTransitionTime);
    }
  }

  function StatusOf(status: Status, kind: ConditionType): Option<ConditionStatus> {
    var c := Find(status.conditions, kind);
    if c.None? then None else Some(c.value.status)
  }

  predicate Holds(status: Status, kind: ConditionType) {
    StatusOf(status, kind) == Some(True)
  }

  predicate ExactlyOneHolds(status: Status) {
    || (Holds(status, Ready) && !Holds(status, Progressing) && !Holds(status, Degraded))
    || (!Holds(status, Ready) && Holds(status, Progressing) && !Holds(status, Degraded))
    || (!Holds(status, Ready) && !Holds(status, Progressing) && Holds(status, Degraded))
  }

  predicate CarriesGeneration(status: Status, kind: ConditionType) {
    var c := Find(status.conditions, kind);
    c.Some? && c.value.observedGeneration == status.observedGeneration
  }

  lemma TargetShows(runtime: Runtime, observation: Observation, outcome: Outcome, now: Clock, kind: ConditionType)
    requires FinalRow(runtime.status, runtime.spec, observation.deployment, outcome, kind).Some?
    ensures var target := Target(runtime, observation, outcome, now);
            && StatusOf(target, kind) ==
               Some(FinalRow(runtime.status, runtime.spec, observation.deployment, outcome, kind).value.status)
            && CarriesGeneration(target, kind)
  {
    assert Target(runtime, observation, outcome, now).observedGeneration == runtime.generation;
    hide Target, FinalRow, Find;
    TargetCondition(runtime, observation, outcome, now, kind);
  }

  /** Each phase is exactly one of ready, progressing and degraded. */
  lemma PhaseIsExclusive(phase: Phase)
    ensures ReadyRow(phase).status == True <==> phase.AtZero? || phase.Serving?
    ensures ProgressingRow(phase).status == True <==> phase.Creating? || phase.TowardZero? || phase.Converging?
    ensures DegradedRow(phase).status == True <==> phase.Blocked? || phase.Failing?
  {
  }

  /** On all three builder paths and from any prior condition list, exactly one of Ready,
      Progressing and Degraded is True. */
  lemma TargetIsExclusive(runtime: Runtime, observation: Observation, outcome: Outcome, now: Clock)
    ensures ExactlyOneHolds(Target(runtime, observation, outcome, now))
  {
    hide Target, StatusOf, CarriesGeneration, PhaseOf, ProgressingRow, ReadyRow, DegradedRow;
    PhaseIsExclusive(PhaseOf(runtime.spec, observation.deployment, ValidationOf(outcome)));
    TargetShows(runtime, observation, outcome, now, Progressing);
    TargetShows(runtime, observation, outcome, now, Ready);
    TargetShows(runtime, observation, outcome, now, Degraded);
  }

  /** The conditions every build sets; Upgrading is not one of them. */
  predicate AlwaysSet(kind: ConditionType) {
    !kind.Upgrading? && !kind.OtherType?
  }

  /** The five non-upgrade conditions carry the status's observed generation, which is the
      runtime's. */
  lemma TargetCarriesGeneration(runtime: Runtime, observation: Observation, outcome: Outcome, now: Clock, kind: ConditionType)
    ensures Target(runtime, observation, outcome, now).observedGeneration == runtime.generation
    ensures AlwaysSet(kind) ==> CarriesGeneration(Target(runtime, observation, outcome, now), kind)
  {
    if AlwaysSet(kind) {
      TargetShows(runtime, observation, outcome, now, kind);
    }
  }

  /** ConfigurationValid is True exactly when the reconcile did not find the references invalid; a
      failed reconcile therefore reports True, even when the failure was a Secret lookup. */
  lemma ConfigurationValidIff(runtime: Runtime, observation: Observation, outcome: Outcome, now: Clock)
    ensures Holds(Target(runtime, observation, outcome, now), ConfigurationValid) <==>
            ValidationOf(outcome) == ReferencesValid
  {
    hide Target, StatusOf;
    TargetShows(runtime, observation, outcome, now, ConfigurationValid);
  }

  /** Ready on the valid path, in terms of the Deployment alone. */
  lemma ReadyIff(runtime: Runtime, observation: Observation, now: Clock)
    ensures var desired := DesiredReplicaCount(runtime.spec, observation.deployment);
            Holds(Target(runtime, observation, Validated(ReferencesValid), now), Ready) <==>
            && observation.deployment.Some?
            && observation.deployment.value.generation <= observation.deployment.value.status.observedGeneration
            && observation.deployment.value.status.readyReplicas == desired
            && observation.deployment.value.status.availableReplicas == desired
            && (desired == 0 || FailureFree(observation.deployment.value))
  {
    hide Target, StatusOf;
    TargetShows(runtime, observation, Validated(ReferencesValid), now, Ready);
  }

  /** Degraded, on every path: the reconcile failed, the references are invalid, or a Deployment
      that should run replicas reports a failure. A runtime scaled to zero ignores such reports. */
  lemma DegradedIff(runtime: Runtime, observation: Observation, outcome: Outcome, now: Clock)
    ensures Holds(Target(runtime, observation, outcome, now), Degraded) <==>
            || outcome.Failed?
            || outcome.validation.ReferencesInvalid?
            || (&& observation.deployment.Some?
                && DesiredReplicaCount(runtime.spec, observation.deployment) != 0
                && !FailureFree(observation.deployment.value))
  {
    hide Target, StatusOf, DesiredReplicaCount, FailureFree, IsFailureOf;
    TargetShows(runtime, observation, outcome, now, Degraded);
  }

  /** The scale a status is measured against: with invalid references it is the declared one, even
      when an autoscaler has chosen another. */
  function MeasuredScale(spec: Spec, deployment: Option<Deployment>, outcome: Outcome): int {
    if ValidationOf(outcome).ReferencesInvalid? then DesiredReplicas(spec) else DesiredReplicaCount(spec, deployment)
  }

  /** Available, on every path: replicas are requested and at least one is available. */
  lemma AvailableIff(runtime: Runtime, observation: Observation, outcome: Outcome, now: Clock)
    requires MeasuredScale(runtime.spec, observation.deployment, outcome) >= 0
    ensures Holds(Target(runtime, observation, outcome, now), Available) <==>
            && MeasuredScale(runtime.spec, observation.deployment, outcome) > 0
            && observation.deployment.Some?
            && observation.deployment.value.status.availableReplicas > 0
  {
    hide Target, StatusOf, DesiredReplicaCount, DeploymentFailure;
    TargetShows(runtime, observation, outcome, now, Available);
  }

  /******* Reasons and fields *******/

  predicate ReadsAs(status: Status, kind: ConditionType, row: Row) {
    var c := Find(status.conditions, kind);
    c.Some? && Row(c.value.status, c.value.reason, c.value.message) == row
  }

  lemma TargetReads(runtime: Runtime, observation: Observation, outcome: Outcome, now: Clock, kind: ConditionType)
    requires FinalRow(runtime.status, runtime.spec, observation.deployment, outcome, kind).Some?
    ensures ReadsAs(Target(runtime, observation, outcome, now), kind,
                    FinalRow(runtime.status, runtime.spec, observation.deployment, outcome, kind).value)
  {
    hide Target, FinalRow, Find;
    TargetCondition(runtime, observation, outcome, now, kind);
  }

  /** A failed reconcile says so, with its error, in the three conditions that judge the runtime. */
  lemma FailureIsNamed(runtime: Runtime, observation: Observation, error: string, now: Clock)
    ensures var target := Target(runtime, observation, Failed(error), now);
            && ReadsAs(target, Progressing, Row(False, ReconciliationFailed, ReconcileError(error)))
            && ReadsAs(target, Ready, Row(False, ReconciliationFailed, ReconcileError(error)))
            && ReadsAs(target, Degraded, Row(True, ReconciliationFailed, ReconcileError(error)))
  {
    hide Target, ReadsAs, PhaseOf;
    TargetReads(runtime, observation, Failed(error), now, Progressing);
    TargetReads(runtime, observation, Failed(error), now, Ready);
    TargetReads(runtime, observation, Failed(error), now, Degraded);
  }

  /** Invalid references are named in ConfigurationValid and Degraded, and blamed for the rest. */
  lemma InvalidReferencesAreNamed(runtime: Runtime, observation: Observation, reason: Reason, message: Message, now: Clock)
    ensures var target := Target(runtime, observation, Validated(ReferencesInvalid(reason, message)), now);
            && ReadsAs(target, ConfigurationValid, Row(False, reason, message))
            && ReadsAs(target, Degraded, Row(True, ConfigurationInvalid, message))
            && ReadsAs(target, Progressing, Row(False, ConfigurationInvalid, BlockedByReferences))
            && ReadsAs(target, Ready, Row(False, ConfigurationInvalid, NotReadyInvalid))
  {
    hide Target, ReadsAs;
    var outcome := Validated(ReferencesInvalid(reason, message));
    TargetReads(runtime, observation, outcome, now, ConfigurationValid);
    TargetReads(runtime, observation, outcome, now, Degraded);
    TargetReads(runtime, observation, outcome, now, Progressing);
    TargetReads(runtime, observation, outcome, now, Ready);
  }

  function ReasonOf(status: Status, kind: ConditionType): Option<Reason> {
    var c := Find(status.conditions, kind);
    if c.None? then None else Some(c.value.reason)
  }

  lemma TargetReason(runtime: Runtime, observation: Observation, outcome: Outcome, now: Clock, kind: ConditionType)
    requires FinalRow(runtime.status, runtime.spec, observation.deployment, outcome, kind).Some?
    ensures var target := Target(runtime, observation, outcome, now);
            var row := FinalRow(runtime.status, runtime.spec, observation.deployment, outcome, kind).value;
            ReasonOf(target, kind) == Some(row.reason) && StatusOf(target, kind) == Some(row.status)
  {
    hide Target, FinalRow, Find;
    TargetReads(runtime, observation, outcome, now, kind);
  }

  /** The reason that Ready gives on the valid path. True, it tells a runtime scaled to zero, which
      gets its own Event, from a serving one. */
  lemma ReadyReason(runtime: Runtime, observation: Observation, now: Clock)
    ensures var target, deployment := Target(runtime, observation, Validated(ReferencesValid), now), observation.deployment;
            var desired := DesiredReplicaCount(runtime.spec, deployment);
            ReasonOf(target, Ready) ==
            if Holds(target, Ready) then Some(if desired == 0 then ScaledToZero else RuntimeReady)
            else if deployment.Some? && desired != 0 && !FailureFree(deployment.value) then Some(DeploymentFailed)
            else Some(RuntimeNotReady)
  {
    hide Target, StatusOf, ReasonOf, DesiredReplicaCount, FailureFree, IsFailureOf;
    TargetReason(runtime, observation, Validated(ReferencesValid), now, Ready);
  }

  /** The reason that Progressing gives on the valid path. */
  lemma ProgressingReason(runtime: Runtime, observation: Observation, now: Clock)
    ensures var target, deployment := Target(runtime, observation, Validated(ReferencesValid), now), observation.deployment;
            var desired := DesiredReplicaCount(runtime.spec, deployment);
            ReasonOf(target, Progressing) ==
            if deployment.None? then Some(DeploymentProgressing)
            else if Holds(target, Progressing) then
              Some(if desired == 0 || deployment.value.status.observedGeneration < deployment.value.generation
                   then DeploymentGenerationPending else DeploymentProgressing)
            else if desired == 0 then Some(ScaledToZero)
            else if !FailureFree(deployment.value) then Some(DeploymentFailed)
            else Some(ReconciliationComplete)
  {
    hide Target, StatusOf, ReasonOf, DesiredReplicaCount, FailureFree, IsFailureOf;
    TargetReason(runtime, observation, Validated(ReferencesValid), now, Progressing);
  }

  /** The reason that Degraded gives on the valid path: a passed deadline before a replica failure. */
  lemma DegradedReason(runtime: Runtime, observation: Observation, now: Clock)
    ensures var target := Target(runtime, observation, Validated(ReferencesValid), now);
            ReasonOf(target, Degraded) ==
            if !Holds(target, Degraded) then Some(AsExpected)
            else if observation.deployment.Some? && exists c :: c in observation.deployment.value.status.conditions && DeadlinePassed(c)
            then Some(ProgressDeadlineExceeded)
            else Some(ReplicaFailure)
  {
    hide Target, StatusOf, ReasonOf, DesiredReplicaCount;
    TargetReason(runtime, observation, Validated(ReferencesValid), now, Degraded);
    DegradedIff(runtime, observation, Validated(ReferencesValid), now);
  }

  predicate IdleAtZero(deployment: Deployment) {
    && deployment.generation <= deployment.status.observedGeneration
    && deployment.status.readyReplicas == deployment.status.availableReplicas == 0
  }

  /** The reason that Available gives, on every path. */
  lemma AvailableReason(runtime: Runtime, observation: Observation, outcome: Outcome, now: Clock)
    ensures var target := Target(runtime, observation, outcome, now);
            var reason := ReasonOf(target, Available);
            && (Holds(target, Available) ==> reason == Some(RuntimeAvailable))
            && (!Holds(target, Available) ==> reason == Some(ScaledToZero) || reason == Some(RuntimeUnavailable))
            && (reason == Some(ScaledToZero) <==>
                && MeasuredScale(runtime.spec, observation.deployment, outcome) == 0
                && (ValidationOf(outcome).ReferencesInvalid? || observation.deployment.None? || IdleAtZero(observation.deployment.value)))
  {
    hide Target, StatusOf, ReasonOf, DeploymentFailure, DesiredReplicaCount;
    TargetReason(runtime, observation, outcome, now, Available);
  }

  /** The observed fields, on every path. */
  lemma TargetFields(runtime: Runtime, observation: Observation, outcome: Outcome, now: Clock)
    ensures var target := Target(runtime, observation, outcome, now);
            && (observation.deployment.Some? ==>
                && target.readyReplicas == observation.deployment.value.status.readyReplicas
                && target.availableReplicas == observation.deployment.value.status.availableReplicas)
            && (observation.deployment.None? ==> target.readyReplicas == target.availableReplicas == 0 && target.currentImage == "")
            && target.currentImage == CurrentImage(observation.deployment)
            && target.desiredImage == RuntimeImage(runtime.spec.image)
            && (target.endpoint.Endpoint? <==> observation.service.Some? && observation.service.value.ports != [])
            && (target.endpoint.Endpoint? ==>
                target.endpoint == Endpoint(runtime.key.name, runtime.key.namespace, observation.service.value.ports[0]))
  {
  }

  /** The two judges of availability agree unless replicas are available and exactly one of the
      declared and the measured scale asks for any. */
  lemma AvailabilityAgreesIff(runtime: Runtime, observation: Observation, reason: Reason, message: Message, now: Clock)
    requires DesiredReplicas(runtime.spec) >= 0 && DesiredReplicaCount(runtime.spec, observation.deployment) >= 0
    ensures var valid := Target(runtime, observation, Validated(ReferencesValid), now);
            var invalid := Target(runtime, observation, Validated(ReferencesInvalid(reason, message)), now);
            (Holds(valid, Available) <==> Holds(invalid, Available)) <==>
            !(&& observation.deployment.Some?
              && observation.deployment.value.status.availableReplicas > 0
              && (DesiredReplicas(runtime.spec) > 0) != (DesiredReplicaCount(runtime.spec, observation.deployment) > 0))
  {
    hide Target, Holds, DesiredReplicaCount, DesiredReplicas;
    AvailableIff(runtime, observation, Validated(ReferencesValid), now);
    AvailableIff(runtime, observation, Validated(ReferencesInvalid(reason, message)), now);
  }

  /** They can disagree: an autoscaled runtime that declares no replicas and has three available
      stops being Available when a Secret goes missing. */
  lemma MissingSecretHidesAvailability(runtime: Runtime, deployment: Deployment, reason: Reason, message: Message, now: Clock)
    requires AutoscalingEnabled(runtime.spec) && runtime.spec.replicas == Some(0)
    requires deployment.spec.replicas == Some(3) && deployment.status.availableReplicas == 3
    ensures var observation := Observation(Some(deployment), None);
            && Holds(Target(runtime, observation, Validated(ReferencesValid), now), Available)
            && !Holds(Target(runtime, observation, Validated(ReferencesInvalid(reason, message)), now), Available)
  {
    hide Target, Holds;
    var observation := Observation(Some(deployment), None);
    AvailableIff(runtime, observation, Validated(ReferencesValid), now);
    AvailableIff(runtime, observation, Validated(ReferencesInvalid(reason, message)), now);
  }

  /** A rollout that has failed is reported as Degraded exactly when replicas are desired. */
  lemma FailedRolloutIsDegradedIff(runtime: Runtime, observation: Observation, now: Clock)
    requires ObserveRollout(runtime.spec, observation.deployment) == RolloutFailed
    ensures Holds(Target(runtime, observation, Validated(ReferencesValid), now), Degraded) <==>
            DesiredReplicaCount(runtime.spec, observation.deployment) != 0
  {
    hide Target, Holds, DesiredReplicaCount, FailureFree;
    DegradedIff(runtime, observation, Validated(ReferencesValid), now);
  }

  /** So a runtime scaled to zero can be Ready over a Deployment whose rollout has failed. */
  lemma ReadyOverFailedRollout(runtime: Runtime, deployment: Deployment, now: Clock)
    requires !AutoscalingEnabled(runtime.spec) && runtime.spec.replicas == Some(0)
    requires deployment.generation == 1
    requires deployment.status == DeploymentStatus(1, 0, 0, 0, 0, 0,
                                                   [DeploymentCondition(DeploymentConditionReplicaFailure, True, OtherReason("FailedCreate"), "")])
    ensures var observation := Observation(Some(deployment), None);
            var target := Target(runtime, observation, Validated(ReferencesValid), now);
            && ObserveRollout(runtime.spec, observation.deployment) == RolloutFailed
            && Holds(target, Ready) && !Holds(target, Degraded)
  {
    hide Target, Holds;
    var observation := Observation(Some(deployment), None);
    assert ReplicasFailing(deployment.status.conditions[0]);
    ReadyIff(runtime, observation, now);
    DegradedIff(runtime, observation, Validated(ReferencesValid), now);
  }

  /** A completed rollout is Ready on the valid path, so lastSuccessfulImage never advances there
      without Ready. */
  lemma RolloutCompleteIsReady(runtime: Runtime, observation: Observation, now: Clock)
    ensures var target := Target(runtime, observation, Validated(ReferencesValid), now);
            && (ObserveRollout(runtime.spec, observation.deployment) == RolloutComplete ==> Holds(target, Ready))
            && (target.lastSuccessfulImage != runtime.status.lastSuccessfulImage ==> Holds(target, Ready))
  {
    ReadyIff(runtime, observation, now);
    RolloutCompleteIff(runtime.spec, observation.deployment);
    assert Target(runtime, observation, Validated(ReferencesValid), now).lastSuccessfulImage
        == NextLastSuccessful(runtime.spec, observation.deployment, runtime.status.lastSuccessfulImage);
    hide Target, Holds;
  }

  /******* Settling *******/

  /** Equal up to transition times, which the API server may round. */
  ghost predicate SameButTimes(a: Status, b: Status) {
    && a.(conditions := b.conditions) == b
    && |a.conditions| == |b.conditions|
    && forall i :: 0 <= i < |a.conditions| ==> SameButTime(a.conditions[i], b.conditions[i])
  }

  lemma FindSame(a: Status, b: Status, kind: ConditionType)
    requires SameButTimes(a, b)
    ensures Find(a.conditions, kind).Some? <==> Find(b.conditions, kind).Some?
    ensures Find(a.conditions, kind).Some? ==> SameButTime(Find(a.conditions, kind).value, Find(b.conditions, kind).value)
  {
    var i, j := IndexOf(a.conditions, kind), IndexOf(b.conditions, kind);
    assert i < |a.conditions| ==> b.conditions[i].kind == kind;
    assert j < |b.conditions| ==> a.conditions[j].kind == kind;
  }

  /** After an upgrade decision the same observation asks for nothing new. */
  lemma UpgradeSettles(spec: Spec, deployment: Option<Deployment>, last: string, tracked: bool)
    requires RuntimeImage(spec.image) != ""
    ensures var next := UpgradeRow(spec, deployment, NextLastSuccessful(spec, deployment, last), true);
            next.None? || next == UpgradeRow(spec, deployment, last, tracked)
  {
  }

  /** The second computation's rows already show in a status that equals the first target up to
      transition times. */
  lemma RowsSettle(runtime: Runtime, observation: Observation, outcome: Outcome, now: Clock, stored: Status, kind: ConditionType)
    requires RuntimeImage(runtime.spec.image) != ""
    requires SameButTimes(Target(runtime, observation, outcome, now), stored)
    requires FinalRow(stored, runtime.spec, observation.deployment, outcome, kind).Some?
    ensures var row := FinalRow(stored, runtime.spec, observation.deployment, outcome, kind).value;
            && Find(stored.conditions, kind).Some?
            && SameButTime(UpdateTo(runtime.generation, kind, row, 0), Find(stored.conditions, kind).value)
  {
    var target := Target(runtime, observation, outcome, now);
    assert target.lastSuccessfulImage == NextLastSuccessful(runtime.spec, observation.deployment, runtime.status.lastSuccessfulImage);
    hide Target, Find, PhaseOf, AvailableRow, ConfigurationRow, ProgressingRow, ReadyRow, DegradedRow, UpgradeRow;
    TargetCondition(runtime, observation, outcome, now, kind);
    FindSame(target, stored, kind);
    if kind == Upgrading {
      UpgradeSettles(runtime.spec, observation.deployment, runtime.status.lastSuccessfulImage,
                     Find(runtime.status.conditions, Upgrading).Some?);
    }
  }

  /** Computing the status again from its own target, stored with whatever time precision and with
      later clock readings, gives back the stored status: no second write. */
  lemma SettlesInOneStep(runtime: Runtime, observation: Observation, outcome: Outcome, now: Clock, stored: Status, later: Clock)
    requires RuntimeImage(runtime.spec.image) != ""
    requires Unique(runtime.status.conditions)
    requires SameButTimes(Target(runtime, observation, outcome, now), stored)
    ensures Target(runtime.(status := stored), observation, outcome, later) == stored
  {
    var again := runtime.(status := stored);
    var updates := Updates(again, observation.deployment, outcome, later);
    assert Unique(stored.conditions) by {
      MergeShape(runtime.status.conditions, Updates(runtime, observation.deployment, outcome, now));
    }
    assert Reflects(stored.conditions, updates) by {
      hide Target, Find, Updates, FinalRow;
      forall i | 0 <= i < |updates|
        ensures && Find(stored.conditions, updates[i].kind).Some?
                && LastFor(updates, updates[i].kind).Some?
                && SameButTime(Find(stored.conditions, updates[i].kind).value, LastFor(updates, updates[i].kind).value)
      {
        var kind := updates[i].kind;
        LastForIsUpdate(updates, kind);
        LastUpdate(again, observation.deployment, outcome, later, kind);
        RowsSettle(runtime, observation, outcome, now, stored, kind);
      }
    }
    MergeSettled(stored.conditions, updates);
    FieldsSettle(runtime, observation, outcome, now, stored, later);
  }

  lemma FieldsSettle(runtime: Runtime, observation: Observation, outcome: Outcome, now: Clock, stored: Status, later: Clock)
    requires SameButTimes(Target(runtime, observation, outcome, now), stored)
    ensures var again := Target(runtime.(status := stored), observation, outcome, later);
            again.(conditions := stored.conditions) == stored
  {
    hide Updates, ApplyAll, Normalise, ObserveRollout;
  }
}
