/** What the controller reads off the managed Deployment: failures, rollout state, image. */
module DeploymentRollout {
  import opened Wrappers
  import opened RuntimeApi
  import opened RuntimeResources

  datatype RolloutState = RolloutProgressing | RolloutComplete | RolloutFailed

  datatype Failure = Failure(reason: Reason, message: Message)

  predicate DeadlinePassed(c: DeploymentCondition) {
    c.kind == DeploymentConditionProgressing && c.status == False && c.reason == ProgressDeadlineExceeded
  }

  predicate ReplicasFailing(c: DeploymentCondition) {
    c.kind == DeploymentConditionReplicaFailure && c.status == True
  }

  predicate FailureFree(deployment: Deployment) {
    forall c :: c in deployment.status.conditions ==> !DeadlinePassed(c) && !ReplicasFailing(c)
  }

  /** deploymentHasRolloutFailure: one pass over the conditions. */
  method DeploymentHasRolloutFailure(deployment: Option<Deployment>) returns (failed: bool)
    ensures failed <==> deployment.Some? && !FailureFree(deployment.value)
  {
    if deployment.None? {
      return false;
    }
    var conditions := deployment.value.status.conditions;
    for n := 0 to |conditions|
      invariant forall i :: 0 <= i < n ==> !DeadlinePassed(conditions[i]) && !ReplicasFailing(conditions[i])
    {
      var c := conditions[n];
      assert c in conditions;
      if c.kind == DeploymentConditionProgressing && c.status == False && c.reason == ProgressDeadlineExceeded {
        return true;
      }
      if c.kind == DeploymentConditionReplicaFailure && c.status == True {
        return true;
      }
    }
    return false;
  }

  ghost predicate FirstWhere(cs: seq<DeploymentCondition>, p: DeploymentCondition -> bool, i: nat) {
    i < |cs| && p(cs[i]) && forall j :: 0 <= j < i ==> !p(cs[j])
  }

  function FailureNote(text: string, fallback: Message): Message {
    if text == "" then fallback else Reported(text)
  }

  /** What a failure report must say: the first passed deadline, else the first replica failure. */
  ghost predicate IsFailureOf(failure: Failure, cs: seq<DeploymentCondition>) {
    || (exists i: nat ::
          && FirstWhere(cs, DeadlinePassed, i)
          && failure == Failure(ProgressDeadlineExceeded, FailureNote(cs[i].message, DeadlineExceeded)))
    || (&& (forall c :: c in cs ==> !DeadlinePassed(c))
        && exists i: nat ::
             && FirstWhere(cs, ReplicasFailing, i)
             && failure == Failure(ReplicaFailure, FailureNote(cs[i].message, ReplicaFailed)))
  }

  function FindDeadline(cs: seq<DeploymentCondition>): (i: nat)
    ensures i <= |cs| && forall j :: 0 <= j < i ==> !DeadlinePassed(cs[j])
    ensures i < |cs| ==> DeadlinePassed(cs[i])
  {
    if cs == [] || DeadlinePassed(cs[0]) then 0 else 1 + FindDeadline(cs[1..])
  }

  function FindReplicaFailure(cs: seq<DeploymentCondition>): (i: nat)
    ensures i <= |cs| && forall j :: 0 <= j < i ==> !ReplicasFailing(cs[j])
    ensures i < |cs| ==> ReplicasFailing(cs[i])
  {
    if cs == [] || ReplicasFailing(cs[0]) then 0 else 1 + FindReplicaFailure(cs[1..])
  }

  /** deploymentFailure: two passes, deadlines before replica failures. The one-pass scan of
      DeploymentHasRolloutFailure agrees with it on every condition list. */
  function DeploymentFailure(deployment: Deployment): (failure: Option<Failure>)
    ensures failure.None? <==> FailureFree(deployment)
    ensures failure.Some? ==> IsFailureOf(failure.value, deployment.status.conditions)
  {
    var cs := deployment.status.conditions;
    var i := FindDeadline(cs);
    if i < |cs| then
      assert FirstWhere(cs, DeadlinePassed, i);
      Some(Failure(ProgressDeadlineExceeded, FailureNote(cs[i].message, DeadlineExceeded)))
    else
      var j := FindReplicaFailure(cs);
      if j < |cs| then
        assert FirstWhere(cs, ReplicasFailing, j);
        Some(Failure(ReplicaFailure, FailureNote(cs[j].message, ReplicaFailed)))
      else None
  }

  /** observeDeploymentRollout. */
  function ObserveRollout(spec: Spec, deployment: Option<Deployment>): RolloutState {
    if deployment.None? then RolloutProgressing
    else if !FailureFree(deployment.value) then RolloutFailed
    else
      var status := deployment.value.status;
      if status.observedGeneration < deployment.value.generation then RolloutProgressing
      else
        var desired := DesiredReplicaCount(spec, deployment);
        if desired == 0 then
          if status.replicas != 0 || status.updatedReplicas != 0 || status.readyReplicas != 0
             || status.availableReplicas != 0 || status.unavailableReplicas != 0
          then RolloutProgressing
          else RolloutComplete
        else if status.updatedReplicas != desired then RolloutProgressing
        else if status.replicas != desired then RolloutProgressing
        else if status.readyReplicas != desired then RolloutProgressing
        else if status.availableReplicas != desired then RolloutProgressing
        else if status.unavailableReplicas != 0 then RolloutProgressing
        else RolloutComplete
  }

  /** All replicas, and only those, run the Deployment's current template. */
  predicate Converged(deployment: Deployment, desired: int) {
    && FailureFree(deployment)
    && deployment.generation <= deployment.status.observedGeneration
    && deployment.status.updatedReplicas == deployment.status.replicas == deployment.status.readyReplicas
       == deployment.status.availableReplicas == desired
    && deployment.status.unavailableReplicas == 0
  }

  lemma RolloutCompleteIff(spec: Spec, deployment: Option<Deployment>)
    ensures ObserveRollout(spec, deployment) == RolloutComplete <==>
            deployment.Some? && Converged(deployment.value, DesiredReplicaCount(spec, deployment))
  {
  }

  function RuntimeContainer(containers: seq<Container>): (i: nat)
    ensures i <= |containers|
    ensures i < |containers| ==> containers[i].name == RUNTIME_CONTAINER
  {
    if containers == [] || containers[0].name == RUNTIME_CONTAINER then 0 else 1 + RuntimeContainer(containers[1..])
  }

  /** deploymentCurrentImage: the runtime container's image, else the first container's. */
  function CurrentImage(deployment: Option<Deployment>): string {
    if deployment.None? then ""
    else
      var containers := deployment.value.spec.template.containers;
      var i := RuntimeContainer(containers);
      if i < |containers| then containers[i].image
      else if containers == [] then ""
      else containers[0].image
  }

  /** It is the image of the first container with the runtime's name; without one, of the first
      container; without any, empty. */
  lemma CurrentImageOf(deployment: Deployment, i: nat)
    requires i < |deployment.spec.template.containers|
    ensures var containers := deployment.spec.template.containers;
            && (containers[i].name == RUNTIME_CONTAINER && (forall j :: 0 <= j < i ==> containers[j].name != RUNTIME_CONTAINER) ==>
                CurrentImage(Some(deployment)) == containers[i].image)
            && (i == 0 && (forall j :: 0 <= j < |containers| ==> containers[j].name != RUNTIME_CONTAINER) ==>
                CurrentImage(Some(deployment)) == containers[0].image)
  {
    RuntimeContainerFirst(deployment.spec.template.containers);
  }

  lemma {:induction false} RuntimeContainerFirst(containers: seq<Container>)
    ensures forall j :: 0 <= j < RuntimeContainer(containers) ==> containers[j].name != RUNTIME_CONTAINER
  {
    if containers == [] || containers[0].name == RUNTIME_CONTAINER {
    } else {
      RuntimeContainerFirst(containers[1..]);
      assert forall j :: 0 < j < |containers| ==> containers[j] == containers[1..][j - 1];
    }
  }
}
