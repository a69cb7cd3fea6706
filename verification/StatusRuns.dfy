/** Runs of the control loop on one runtime: invariants of every status reachable from the empty
    one, over arbitrary spec changes, observations, outcomes, clock readings and failed writes. */
module StatusRuns {
  import opened Wrappers
  import opened RuntimeApi
  import opened RuntimeResources
  import opened Conditions
  import opened DeploymentRollout
  import opened RuntimeStatus
  import opened StatusProperties

  /** One reconcile as far as the status is concerned. */
  datatype Reconcile = Reconcile(
    key: Key,
    generation: int,
    spec: Spec,
    observation: Observation,
    outcome: Outcome,
    now: Clock,
    writeError: Option<string>)

  function RuntimeAt(stored: Status, r: Reconcile): Runtime {
    Runtime(r.key, "", r.generation, false, r.spec, stored)
  }

  function TargetOf(stored: Status, r: Reconcile): Status {
    Target(RuntimeAt(stored, r), r.observation, r.outcome, r.now)
  }

  /** updateRuntimeStatus writes only a differing status, and the write may fail. */
  predicate Writes(stored: Status, r: Reconcile) {
    TargetOf(stored, r) != stored && r.writeError.None?
  }

  function PersistStatus(status: Status): Status {
    status.(conditions := Persist(status.conditions))
  }

  function Step(stored: Status, r: Reconcile): Status {
    if Writes(stored, r) then PersistStatus(TargetOf(stored, r)) else stored
  }

  function StatusAfter(run: seq<Reconcile>): Status {
    if run == [] then EMPTY_STATUS else Step(StatusAfter(run[..|run| - 1]), run[|run| - 1])
  }

  lemma StatusAfterAppend(run: seq<Reconcile>, r: Reconcile)
    ensures StatusAfter(run + [r]) == Step(StatusAfter(run), r)
  {
    assert (run + [r])[..|run|] == run;
  }

  lemma ThreeSteps(a: Reconcile, b: Reconcile, c: Reconcile)
    ensures StatusAfter([a, b, c]) == Step(Step(Step(EMPTY_STATUS, a), b), c)
  {
    hide Step;
    assert [] + [a] + [b] + [c] == [a, b, c];
    StatusAfterAppend([], a);
    StatusAfterAppend([] + [a], b);
    StatusAfterAppend([] + [a] + [b], c);
  }

  /** The schema guarantees a non-empty repository, hence a non-empty image. */
  predicate SchemaValid(r: Reconcile) {
    RuntimeImage(r.spec.image) != ""
  }

  ghost predicate SchemaValidRun(run: seq<Reconcile>) {
    forall i :: 0 <= i < |run| ==> SchemaValid(run[i])
  }

  /******* Invariants *******/

  /** The upgrade lifecycle: what the Upgrading status and reason say about the image pair. */
  predicate Describes(status: ConditionStatus, reason: Reason, desired: string, last: string) {
    && (last == "" ==> reason == NoUpgrade)
    && (last != "" && last != desired ==> reason == UpgradeInProgress || reason == UpgradeFailed)
    && (reason == UpgradeComplete ==> last == desired)
    && (status == True <==> reason == UpgradeInProgress)
    && status != Unknown
    && reason in {NoUpgrade, UpgradeInProgress, UpgradeComplete, UpgradeFailed}
  }

  predicate Lifecycle(status: Status) {
    var c := Find(status.conditions, Upgrading);
    && c.Some?
    && status.desiredImage != ""
    && Describes(c.value.status, c.value.reason, status.desiredImage, status.lastSuccessfulImage)
  }

  ghost predicate Truncated(cs: seq<Condition>) {
    forall i :: 0 <= i < |cs| ==> Truncate(cs[i].lastTransitionTime) == cs[i].lastTransitionTime
  }

  ghost predicate Coherent(status: Status) {
    && ExactlyOneHolds(status)
    && (forall kind :: AlwaysSet(kind) ==> CarriesGeneration(status, kind))
  }

  /** Everything that holds of a status the controller has written. */
  ghost predicate Invariant(status: Status) {
    && Unique(status.conditions)
    && Truncated(status.conditions)
    && (status == EMPTY_STATUS || (Lifecycle(status) && Coherent(status)))
  }

  lemma PersistedFind(status: Status, kind: ConditionType)
    ensures StatusOf(PersistStatus(status), kind) == StatusOf(status, kind)
    ensures CarriesGeneration(PersistStatus(status), kind) == CarriesGeneration(status, kind)
  {
    FindPersist(status.conditions, kind);
  }

  lemma PersistKeepsCoherence(status: Status)
    requires Coherent(status)
    ensures Coherent(PersistStatus(status))
  {
    hide StatusOf, CarriesGeneration, PersistStatus;
    PersistedFind(status, Ready);
    PersistedFind(status, Progressing);
    PersistedFind(status, Degraded);
    forall kind | AlwaysSet(kind) ensures CarriesGeneration(PersistStatus(status), kind) {
      PersistedFind(status, kind);
    }
  }

  /** What the upgrade decision means for the image pair it leads to. */
  lemma UpgradeRowFacts(spec: Spec, deployment: Option<Deployment>, last: string, tracked: bool)
    requires RuntimeImage(spec.image) != ""
    ensures var desired, next := RuntimeImage(spec.image), NextLastSuccessful(spec, deployment, last);
            var row := UpgradeRow(spec, deployment, last, tracked);
            && (row.None? <==> last == desired && tracked)
            && (row.None? ==> next == desired)
            && (row.Some? ==> Describes(row.value.status, row.value.reason, desired, next))
  {
    hide RuntimeImage, ObserveRollout, CurrentImage;
  }

  /** The image pair and the Upgrading condition a reconcile aims for: the stored condition, or the
      upgrade decision's row. */
  lemma TargetUpgrading(stored: Status, r: Reconcile)
    ensures var target := TargetOf(stored, r);
            var before, after := Find(stored.conditions, Upgrading), Find(target.conditions, Upgrading);
            var row := UpgradeRow(r.spec, r.observation.deployment, stored.lastSuccessfulImage, before.Some?);
            && target.desiredImage == RuntimeImage(r.spec.image)
            && target.lastSuccessfulImage == NextLastSuccessful(r.spec, r.observation.deployment, stored.lastSuccessfulImage)
            && (row.None? ==> after == before)
            && (row.Some? ==>
                && after.Some? && after.value.status == row.value.status && after.value.reason == row.value.reason
                && after.value.message == row.value.message && after.value.observedGeneration == r.generation)
            && target.observedGeneration == r.generation
  {
    TargetCondition(RuntimeAt(stored, r), r.observation, r.outcome, r.now, Upgrading);
    hide Find, UpgradeRow, RuntimeImage, NextLastSuccessful, PhaseOf, AvailableRow, Updates, ClockRead;
  }

  lemma TargetKeepsLifecycle(stored: Status, r: Reconcile)
    requires SchemaValid(r)
    requires stored == EMPTY_STATUS || Lifecycle(stored)
    ensures Lifecycle(TargetOf(stored, r))
  {
    hide TargetOf, Find, UpgradeRow, RuntimeImage, NextLastSuccessful;
    TargetUpgrading(stored, r);
    UpgradeRowFacts(r.spec, r.observation.deployment, stored.lastSuccessfulImage, Find(stored.conditions, Upgrading).Some?);
  }

  lemma PersistKeepsLifecycle(status: Status)
    requires Lifecycle(status)
    ensures Lifecycle(PersistStatus(status))
  {
    FindPersist(status.conditions, Upgrading);
    hide Find;
  }

  lemma PersistKeepsShape(cs: seq<Condition>)
    requires Unique(cs)
    ensures Unique(Persist(cs)) && Truncated(Persist(cs))
  {
  }

  lemma StepKeepsUnique(stored: Status, r: Reconcile)
    requires Unique(stored.conditions)
    ensures Unique(TargetOf(stored, r).conditions)
    ensures Unique(Step(stored, r).conditions)
  {
    var updates := Updates(RuntimeAt(stored, r), r.observation.deployment, r.outcome, r.now);
    assert TargetOf(stored, r).conditions == Merge(stored.conditions, updates);
    hide Updates, Merge;
    MergeShape(stored.conditions, updates);
    PersistKeepsShape(TargetOf(stored, r).conditions);
  }

  lemma StepKeepsInvariant(stored: Status, r: Reconcile)
    requires SchemaValid(r)
    requires Invariant(stored)
    ensures Invariant(Step(stored, r))
    ensures Writes(stored, r) ==> Lifecycle(Step(stored, r)) && Coherent(Step(stored, r))
  {
    if Writes(stored, r) {
      var runtime, target := RuntimeAt(stored, r), TargetOf(stored, r);
      StepKeepsUnique(stored, r);
      hide Target, Lifecycle, ExactlyOneHolds, CarriesGeneration;
      TargetKeepsLifecycle(stored, r);
      TargetIsExclusive(runtime, r.observation, r.outcome, r.now);
      forall kind | AlwaysSet(kind) ensures CarriesGeneration(target, kind) {
        TargetCarriesGeneration(runtime, r.observation, r.outcome, r.now, kind);
      }
      PersistKeepsLifecycle(target);
      PersistKeepsCoherence(target);
      PersistKeepsShape(target.conditions);
    }
  }

  /** Every status reachable from the empty one satisfies the upgrade lifecycle, has exactly one of
      Ready, Progressing and Degraded True, and reports one generation in its five conditions. */
  lemma {:induction false} RunInvariant(run: seq<Reconcile>)
    requires SchemaValidRun(run)
    ensures Invariant(StatusAfter(run))
  {
    if run == [] {
    } else {
      var front := run[..|run| - 1];
      assert SchemaValidRun(front) by { assert forall i :: 0 <= i < |front| ==> front[i] == run[i]; }
      RunInvariant(front);
      StepKeepsInvariant(StatusAfter(front), run[|run| - 1]);
    }
  }

  /******* lastSuccessfulImage *******/

  /** In this reconcile, `image` was desired, configured, and completely rolled out. */
  ghost predicate RolledOut(r: Reconcile, image: string) {
    && r.observation.deployment.Some?
    && Converged(r.observation.deployment.value, DesiredReplicaCount(r.spec, r.observation.deployment))
    && image == RuntimeImage(r.spec.image) == CurrentImage(r.observation.deployment)
  }

  /** lastSuccessfulImage changes only in a written step that saw its new value rolled out. */
  lemma LastSuccessfulChange(stored: Status, r: Reconcile)
    ensures var next := Step(stored, r).lastSuccessfulImage;
            next != stored.lastSuccessfulImage ==> Writes(stored, r) && RolledOut(r, next)
  {
    RolloutCompleteIff(r.spec, r.observation.deployment);
    assert TargetOf(stored, r).lastSuccessfulImage ==
        NextLastSuccessful(r.spec, r.observation.deployment, stored.lastSuccessfulImage);
    hide Target, ObserveRollout, Converged, CurrentImage;
  }

  /** Step `i` of the run wrote a status and saw `image` rolled out. */
  ghost predicate RolledOutAt(run: seq<Reconcile>, i: nat, image: string) {
    i < |run| && Writes(StatusAfter(run[..i]), run[i]) && RolledOut(run[i], image)
  }

  lemma RolledOutEarlier(run: seq<Reconcile>, n: nat, i: nat, image: string)
    requires n <= |run| && RolledOutAt(run[..n], i, image)
    ensures RolledOutAt(run, i, image)
  {
    hide Writes, StatusAfter, RolledOut;
    assert run[..n][..i] == run[..i];
  }

  /** Provenance over whole runs: the last successful image is empty or was rolled out at some
      written step of the run. */
  lemma {:induction false} LastSuccessfulProvenance(run: seq<Reconcile>)
    ensures var image := StatusAfter(run).lastSuccessfulImage;
            image == "" || exists i: nat :: RolledOutAt(run, i, image)
  {
    if run == [] {
    } else {
      hide Writes, RolledOut, Step;
      var n := |run| - 1;
      var image := StatusAfter(run).lastSuccessfulImage;
      if image == "" {
      } else if image == StatusAfter(run[..n]).lastSuccessfulImage {
        LastSuccessfulProvenance(run[..n]);
        var i: nat :| RolledOutAt(run[..n], i, image);
        RolledOutEarlier(run, n, i, image);
      } else {
        LastSuccessfulChange(StatusAfter(run[..n]), run[n]);
        assert RolledOutAt(run, n, image);
      }
    }
  }

  /** Once set, the last successful image is never lost. */
  lemma {:induction false} LastSuccessfulKept(run: seq<Reconcile>, n: nat)
    requires SchemaValidRun(run) && n <= |run|
    requires StatusAfter(run[..n]).lastSuccessfulImage != ""
    ensures StatusAfter(run).lastSuccessfulImage != ""
    decreases |run|
  {
    hide Step, RuntimeImage, Writes, Converged, CurrentImage;
    if n < |run| {
      var front, r := run[..|run| - 1], run[|run| - 1];
      assert front[..n] == run[..n];
      LastSuccessfulKept(front, n);
      LastSuccessfulChange(StatusAfter(front), r);
      assert SchemaValid(r);
    } else {
      assert run[..n] == run;
    }
  }

  /******* What an upgrade reports *******/

  /** The report of an upgrade from `last` to another desired image: failed exactly when the
      Deployment reports a failure, complete exactly when it has converged on the desired image,
      else in progress; each naming both images. */
  function UpgradeReport(spec: Spec, deployment: Option<Deployment>, last: string): Row {
    var desired := RuntimeImage(spec.image);
    if deployment.Some? && !FailureFree(deployment.value) then Row(False, UpgradeFailed, ImageFailed(last, desired))
    else if deployment.None? || !Converged(deployment.value, DesiredReplicaCount(spec, deployment))
    then Row(True, UpgradeInProgress, ImageUpgrading(last, desired))
    else if CurrentImage(deployment) == desired then Row(False, UpgradeComplete, ImageCompleted(last, desired))
    else Row(True, UpgradeInProgress, ImageTransitioning(last, desired))
  }

  lemma UpgradeRowReports(spec: Spec, deployment: Option<Deployment>, last: string, tracked: bool)
    ensures last != "" && last != RuntimeImage(spec.image) ==>
            UpgradeRow(spec, deployment, last, tracked) == Some(UpgradeReport(spec, deployment, last))
    ensures last == "" || (last == RuntimeImage(spec.image) && !tracked) ==>
            UpgradeRow(spec, deployment, last, tracked) == Some(Row(False, NoUpgrade, NoImageUpgrade))
  {
    RolloutCompleteIff(spec, deployment);
    hide RuntimeImage, CurrentImage, DesiredReplicaCount;
  }

  /** Whatever the outcome of the reconcile, an upgrade under way is reported as the Deployment
      stands, and none is reported where there is nothing to upgrade from. */
  lemma UpgradeIsReported(stored: Status, r: Reconcile)
    ensures stored.lastSuccessfulImage != "" && stored.lastSuccessfulImage != RuntimeImage(r.spec.image) ==>
            ReadsAs(TargetOf(stored, r), Upgrading, UpgradeReport(r.spec, r.observation.deployment, stored.lastSuccessfulImage))
    ensures || stored.lastSuccessfulImage == ""
            || (stored.lastSuccessfulImage == RuntimeImage(r.spec.image) && Find(stored.conditions, Upgrading).None?) ==>
            ReadsAs(TargetOf(stored, r), Upgrading, Row(False, NoUpgrade, NoImageUpgrade))
  {
    hide TargetOf, Find, UpgradeRow, UpgradeReport, NextLastSuccessful, RuntimeImage;
    TargetUpgrading(stored, r);
    UpgradeRowReports(r.spec, r.observation.deployment, stored.lastSuccessfulImage, Find(stored.conditions, Upgrading).Some?);
  }

  /** In particular a failed upgrade is reported as failed, exactly when the Deployment reports a
      failure. */
  lemma UpgradeFailedIff(stored: Status, r: Reconcile)
    requires stored.lastSuccessfulImage != "" && stored.lastSuccessfulImage != RuntimeImage(r.spec.image)
    ensures var deployment, reason := r.observation.deployment, ReasonOf(TargetOf(stored, r), Upgrading);
            && (reason == Some(UpgradeFailed) <==> deployment.Some? && !FailureFree(deployment.value))
            && (reason == Some(UpgradeComplete) <==> RolledOut(r, RuntimeImage(r.spec.image)))
            && (reason == Some(UpgradeInProgress) <==> Holds(TargetOf(stored, r), Upgrading))
  {
    hide TargetOf, Find, RuntimeImage, CurrentImage, DesiredReplicaCount;
    UpgradeIsReported(stored, r);
  }

  /******* Upgrading and reverted upgrades *******/

  /** When Upgrading is True although the desired image is the successful one: exactly when the
      desired image went back to it while Upgrading was True. The condition is then left untouched,
      old generation included. */
  lemma StaleUpgradingIff(stored: Status, r: Reconcile)
    requires SchemaValid(r)
    ensures var target := TargetOf(stored, r);
            (Holds(target, Upgrading) && target.lastSuccessfulImage == target.desiredImage) <==>
            (stored.lastSuccessfulImage == RuntimeImage(r.spec.image) && Holds(stored, Upgrading))
    ensures stored.lastSuccessfulImage == RuntimeImage(r.spec.image) && Holds(stored, Upgrading) ==>
            Find(TargetOf(stored, r).conditions, Upgrading) == Find(stored.conditions, Upgrading)
  {
    TargetUpgrading(stored, r);
    UpgradeRowFacts(r.spec, r.observation.deployment, stored.lastSuccessfulImage, Find(stored.conditions, Upgrading).Some?);
    hide TargetOf, Find, UpgradeRow, NextLastSuccessful, RuntimeImage;
  }

  /** What a written step stores: the stored Upgrading condition, or the upgrade decision's row at
      this generation. */
  lemma WrittenUpgrading(stored: Status, r: Reconcile)
    requires Writes(stored, r)
    ensures var row := UpgradeRow(r.spec, r.observation.deployment, stored.lastSuccessfulImage, Find(stored.conditions, Upgrading).Some?);
            var before, after := Find(stored.conditions, Upgrading), Find(Step(stored, r).conditions, Upgrading);
            && (row.None? ==>
                && before.Some? && after.Some?
                && after.value.status == before.value.status && after.value.reason == before.value.reason
                && after.value.observedGeneration == before.value.observedGeneration)
            && (row.Some? ==>
                && after.Some? && after.value.status == row.value.status && after.value.reason == row.value.reason
                && after.value.observedGeneration == r.generation)
    ensures Step(stored, r).observedGeneration == r.generation
    ensures Step(stored, r).desiredImage == RuntimeImage(r.spec.image)
    ensures Step(stored, r).lastSuccessfulImage == NextLastSuccessful(r.spec, r.observation.deployment, stored.lastSuccessfulImage)
  {
    TargetUpgrading(stored, r);
    FindPersist(TargetOf(stored, r).conditions, Upgrading);
    UpgradeRowTracked(r.spec, r.observation.deployment, stored.lastSuccessfulImage, Find(stored.conditions, Upgrading).Some?);
    hide Find, TargetOf, Persist, UpgradeRow, NextLastSuccessful, RuntimeImage;
  }

  lemma UpgradeRowTracked(spec: Spec, deployment: Option<Deployment>, last: string, tracked: bool)
    ensures UpgradeRow(spec, deployment, last, tracked).None? ==> tracked
  {
    hide RuntimeImage, ObserveRollout, CurrentImage;
  }

  /** A reconcile for another image or generation, or one that moves the successful image, writes. */
  lemma ChangeIsWritten(stored: Status, r: Reconcile)
    requires r.writeError.None?
    requires || stored.desiredImage != RuntimeImage(r.spec.image)
             || stored.observedGeneration != r.generation
             || NextLastSuccessful(r.spec, r.observation.deployment, stored.lastSuccessfulImage) != stored.lastSuccessfulImage
    ensures Writes(stored, r)
  {
    TargetUpgrading(stored, r);
    hide Find, TargetOf, UpgradeRow, NextLastSuccessful, RuntimeImage;
  }

  /** Upgrading carries the generation of the status except exactly when it is already tracked, at
      another generation, and the desired image is the successful one. */
  lemma UpgradingGenerationIff(stored: Status, r: Reconcile)
    requires SchemaValid(r)
    ensures CarriesGeneration(TargetOf(stored, r), Upgrading) <==>
            !(&& stored.lastSuccessfulImage == RuntimeImage(r.spec.image)
              && Find(stored.conditions, Upgrading).Some?
              && Find(stored.conditions, Upgrading).value.observedGeneration != r.generation)
  {
    TargetUpgrading(stored, r);
    UpgradeRowFacts(r.spec, r.observation.deployment, stored.lastSuccessfulImage, Find(stored.conditions, Upgrading).Some?);
    hide TargetOf, Find, UpgradeRow, NextLastSuccessful, RuntimeImage;
  }

  /** So any later edit that keeps the image leaves the old generation behind: create a runtime,
      let its image roll out, then change anything else. */
  lemma PlainEditKeepsOldGeneration(create: Reconcile, rollout: Reconcile, edit: Reconcile)
    requires SchemaValid(create) && rollout.spec == create.spec && edit.spec.image == create.spec.image
    requires create.writeError.None? && rollout.writeError.None? && edit.writeError.None?
    requires ObserveRollout(create.spec, create.observation.deployment) == RolloutProgressing
    requires ImageRolledOut(rollout.spec, rollout.observation.deployment)
    requires create.generation == rollout.generation != edit.generation
    ensures var status := StatusAfter([create, rollout, edit]);
            var c := Find(status.conditions, Upgrading);
            && status.observedGeneration == edit.generation
            && c.Some? && c.value.observedGeneration == create.generation
            && !CarriesGeneration(status, Upgrading)
  {
    var one := Step(EMPTY_STATUS, create);
    var two := Step(one, rollout);
    ThreeSteps(create, rollout, edit);
    hide Step, StatusAfter, Writes, RuntimeImage, ObserveRollout, CurrentImage;
    ChangeIsWritten(EMPTY_STATUS, create);
    WrittenUpgrading(EMPTY_STATUS, create);
    ChangeIsWritten(one, rollout);
    WrittenUpgrading(one, rollout);
    ChangeIsWritten(two, edit);
    WrittenUpgrading(two, edit);
    hide Find;
  }

  lemma PersistKeepsUpgrading(stored: Status, r: Reconcile)
    requires Writes(stored, r)
    ensures Holds(Step(stored, r), Upgrading) == Holds(TargetOf(stored, r), Upgrading)
    ensures Step(stored, r).lastSuccessfulImage == TargetOf(stored, r).lastSuccessfulImage
    ensures Step(stored, r).desiredImage == RuntimeImage(r.spec.image)
  {
    FindPersist(TargetOf(stored, r).conditions, Upgrading);
  }

  /** Such runs exist: deploy one image, start an upgrade, revert before it completes. Whatever the
      Deployment looks like then, Upgrading stays True although nothing is being upgraded. */
  lemma RevertedUpgradeStaysUpgrading(deploy: Reconcile, upgrade: Reconcile, revert: Reconcile)
    requires SchemaValid(deploy) && SchemaValid(upgrade)
    requires deploy.writeError.None? && upgrade.writeError.None? && revert.writeError.None?
    requires ImageRolledOut(deploy.spec, deploy.observation.deployment)
    requires RuntimeImage(upgrade.spec.image) != RuntimeImage(deploy.spec.image)
    requires ObserveRollout(upgrade.spec, upgrade.observation.deployment) == RolloutProgressing
    requires revert.spec == deploy.spec
    ensures var status := StatusAfter([deploy, upgrade, revert]);
            && Holds(status, Upgrading)
            && status.lastSuccessfulImage == status.desiredImage
  {
    var one := Step(EMPTY_STATUS, deploy);
    var two := Step(one, upgrade);
    ThreeSteps(deploy, upgrade, revert);
    DeploySetsLastSuccessful(deploy);
    UpgradeRaisesUpgrading(one, upgrade);
    assert TargetOf(two, revert).desiredImage == RuntimeImage(revert.spec.image) != two.desiredImage;
    PersistKeepsUpgrading(two, revert);
    StaleUpgradingIff(two, revert);
  }

  lemma DeploySetsLastSuccessful(deploy: Reconcile)
    requires SchemaValid(deploy) && deploy.writeError.None?
    requires ImageRolledOut(deploy.spec, deploy.observation.deployment)
    ensures var one := Step(EMPTY_STATUS, deploy);
            one.lastSuccessfulImage == one.desiredImage == RuntimeImage(deploy.spec.image)
  {
    assert TargetOf(EMPTY_STATUS, deploy).desiredImage == RuntimeImage(deploy.spec.image) != EMPTY_STATUS.desiredImage;
    PersistKeepsUpgrading(EMPTY_STATUS, deploy);
  }

  lemma UpgradeRaisesUpgrading(one: Status, upgrade: Reconcile)
    requires upgrade.writeError.None?
    requires one.lastSuccessfulImage == one.desiredImage != RuntimeImage(upgrade.spec.image)
    requires one.lastSuccessfulImage != ""
    requires ObserveRollout(upgrade.spec, upgrade.observation.deployment) == RolloutProgressing
    ensures var two := Step(one, upgrade);
            && Holds(two, Upgrading)
            && two.lastSuccessfulImage == one.lastSuccessfulImage
            && two.desiredImage == RuntimeImage(upgrade.spec.image)
  {
    assert TargetOf(one, upgrade).desiredImage == RuntimeImage(upgrade.spec.image) != one.desiredImage;
    PersistKeepsUpgrading(one, upgrade);
    TargetUpgrading(one, upgrade);
    hide TargetOf, Find, ObserveRollout, RuntimeImage, CurrentImage;
  }

  /******* Transition times *******/

  ghost predicate HonestTime(before: Option<Condition>, after: Option<Condition>, now: Clock) {
    && (before.Some? ==> after.Some?)
    && (after.Some? && before.Some? && before.value.status == after.value.status ==>
        before.value.lastTransitionTime == after.value.lastTransitionTime)
    && (after.Some? && (before.None? || before.value.status != after.value.status) ==>
        exists t :: ClockRead(now, t) && after.value.lastTransitionTime == Truncate(t))
  }

  lemma TargetTime(stored: Status, r: Reconcile, kind: ConditionType)
    ensures var before, after := Find(stored.conditions, kind), Find(TargetOf(stored, r).conditions, kind);
            && (before.Some? ==> after.Some?)
            && (after.Some? && before.Some? && before.value.status == after.value.status ==>
                before.value.lastTransitionTime == after.value.lastTransitionTime)
            && (after.Some? && (before.None? || before.value.status != after.value.status) ==>
                ClockRead(r.now, after.value.lastTransitionTime))
  {
    TargetCondition(RuntimeAt(stored, r), r.observation, r.outcome, r.now, kind);
    hide FinalRow, Target, Find, ClockRead;
  }

  lemma StepTimeHonest(stored: Status, r: Reconcile, kind: ConditionType)
    requires Truncated(stored.conditions)
    ensures HonestTime(Find(stored.conditions, kind), Find(Step(stored, r).conditions, kind), r.now)
  {
    hide TargetOf, ClockRead, Truncate;
    if Writes(stored, r) {
      TargetTime(stored, r, kind);
      FindPersist(TargetOf(stored, r).conditions, kind);
      assert Find(stored.conditions, kind).Some? ==> Find(stored.conditions, kind).value in stored.conditions;
    }
  }

  /** In every run, a stored transition time moves only when the stored status changes or the
      condition first appears, and then it is a clock reading of that reconcile, in seconds. */
  lemma TransitionTimesHonest(run: seq<Reconcile>, r: Reconcile, kind: ConditionType)
    requires SchemaValidRun(run)
    ensures HonestTime(Find(StatusAfter(run).conditions, kind), Find(Step(StatusAfter(run), r).conditions, kind), r.now)
  {
    hide HonestTime, Step, Find, Lifecycle, Coherent, Unique, Truncated;
    RunInvariant(run);
    StepTimeHonest(StatusAfter(run), r, kind);
  }

  /******* Settling in runs *******/

  /** Repeating a successful reconcile with the same inputs never writes again, whatever its clock
      reads and although the API server rounded the first write's times. */
  lemma RepeatedReconcileIsQuiet(stored: Status, r: Reconcile, later: Clock, laterError: Option<string>)
    requires SchemaValid(r) && r.writeError.None?
    requires Unique(stored.conditions)
    ensures !Writes(Step(stored, r), r.(now := later, writeError := laterError))
  {
    var runtime, target := RuntimeAt(stored, r), TargetOf(stored, r);
    var next := Step(stored, r);
    assert SameButTimes(target, next);
    SettlesInOneStep(runtime, r.observation, r.outcome, r.now, next, later);
    assert RuntimeAt(next, r.(now := later, writeError := laterError)) == runtime.(status := next);
  }
}
