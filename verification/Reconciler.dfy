/** Reconcile on the API store: validation, core resources, observation, status write and Events. */
module Reconciler {
  import opened Wrappers
  import opened RuntimeApi
  import opened RuntimeResources
  import opened Conditions
  import opened DeploymentRollout
  import opened RuntimeStatus
  import opened StatusProperties
  import opened StatusRuns
  import opened RuntimeEvents
  import opened EventTraces
  import opened SecretReferences
  import opened ManagedResources

  /** `managed` holds one record per runtime key, empty while nothing has been created. */
  datatype Cluster = Cluster(runtimes: map<Key, Runtime>, secrets: set<Key>, managed: map<Key, Managed>)

  function ManagedAt(cluster: Cluster, key: Key): Managed {
    if key in cluster.managed then cluster.managed[key] else NO_RESOURCES
  }

  function WithManaged(cluster: Cluster, key: Key, m: Managed): Cluster {
    cluster.(managed := cluster.managed[key := m])
  }

  function WithStatus(cluster: Cluster, runtime: Runtime, status: Status): Cluster {
    cluster.(runtimes := cluster.runtimes[runtime.key := runtime.(status := status)])
  }

  /** The API calls of one reconcile that fail, with their errors. */
  datatype Faults = Faults(
    get: Option<string>,
    secrets: map<string, string>,
    core: map<Kind, string>,
    observe: Option<string>,
    observeAfterFailure: Option<string>,
    write: Option<string>)

  const NO_FAULTS := Faults(None, map[], map[], None, None, None)

  /******* Specification *******/

  function Body<T>(r: Option<Resource<T>>): Option<T> {
    if r.None? then None else Some(r.value.body)
  }

  function Observe(m: Managed): Observation {
    Observation(Body(m.deployment), Body(m.service))
  }

  const NOTHING_OBSERVED := Observation(None, None)

  function CoreErrorText(error: CoreError): string {
    var name := match error.kind
                case ConfigMaps => "ConfigMap" case ServiceAccounts => "ServiceAccount" case Services => "Service"
                case Deployments => "Deployment" case Budgets => "PodDisruptionBudget"
                case Policies => "NetworkPolicy" case Autoscalers => "HorizontalPodAutoscaler";
    "reconcile " + name + ": " + error.cause
  }

  /** What a reconcile did to the managed resources and what it found. */
  datatype Verdict = Verdict(managed: Managed, outcome: Outcome, observation: Observation)

  /** handleReconciliationFailure observes again; that failing too leaves nothing observed. */
  function Failing(m: Managed, error: string, faults: Faults): Verdict {
    if faults.observeAfterFailure.Some?
    then Verdict(m, Failed(Join(error, faults.observeAfterFailure.value)), NOTHING_OBSERVED)
    else Verdict(m, Failed(error), Observe(m))
  }

  function Concluding(m: Managed, outcome: Outcome, faults: Faults): Verdict {
    if outcome.Failed? then Failing(m, outcome.error, faults)
    else if faults.observe.Some? then Failing(m, faults.observe.value, faults)
    else Verdict(m, outcome, Observe(m))
  }

  /** A missing Secret or a failed lookup leaves all managed resources alone. */
  function VerdictOf(runtime: Runtime, m: Managed, secrets: set<Key>, faults: Faults): Verdict {
    var outcome := OutcomeOf(CheckReferences(runtime.spec, runtime.key.namespace, secrets, faults.secrets), runtime.key.namespace);
    if outcome != Validated(ReferencesValid) then Concluding(m, outcome, faults)
    else
      var core := ReconcileCore(m, runtime, faults.core);
      Concluding(core.managed, if core.error.Some? then Failed(CoreErrorText(core.error.value)) else outcome, faults)
  }

  function StatusStep(runtime: Runtime, verdict: Verdict, faults: Faults, now: Clock): Reconcile {
    Reconcile(runtime.key, runtime.generation, runtime.spec, verdict.observation, verdict.outcome, now, faults.write)
  }

  datatype Effect = Effect(cluster: Cluster, events: seq<Event>, error: Option<string>)

  /** Reconcile, as a function of the store. */
  function ReconcileEffect(cluster: Cluster, key: Key, faults: Faults, now: Clock): Effect {
    if faults.get.Some? then Effect(cluster, [], faults.get)
    else if key !in cluster.runtimes || cluster.runtimes[key].deleting then Effect(cluster, [], None)
    else
      var runtime := cluster.runtimes[key];
      var verdict := VerdictOf(runtime, ManagedAt(cluster, key), cluster.secrets, faults);
      var step := StatusStep(runtime, verdict, faults, now);
      Effect(WithStatus(WithManaged(cluster, key, verdict.managed), runtime, Step(runtime.status, step)),
             StepEvents(runtime.status, step),
             StepError(runtime.status, step))
  }

  /** Keys name their objects, images are schema-valid, condition types are unique. */
  ghost predicate WellFormed(cluster: Cluster) {
    forall key :: key in cluster.runtimes ==>
      && key in cluster.managed
      && cluster.runtimes[key].key == key
      && RuntimeImage(cluster.runtimes[key].spec.image) != ""
      && Unique(cluster.runtimes[key].status.conditions)
  }

  /** One reconcileX step on the store, with the error it returns. */
  ghost predicate Stepped(kind: Kind, before: Cluster, after: Cluster, runtime: Runtime, errors: map<Kind, string>, error: Option<CoreError>) {
    var result := StepResult(kind, ManagedAt(before, runtime.key), runtime, errors);
    after == WithManaged(before, runtime.key, result.managed) && error == result.error
  }

  lemma SameManaged(cluster: Cluster, key: Key)
    requires key in cluster.managed
    ensures WithManaged(cluster, key, ManagedAt(cluster, key)) == cluster
  {
  }

  const BLANK_DEPLOYMENT := Deployment(0, DeploymentSpec(None, map[], map[], PodTemplate(map[], map[], [], BLANK_POD)), NO_REPLICAS)
  const BLANK_POD := PodSettings("", 0, [], "", None, "", "")

  /** What such a step means: it fails exactly on an API error or foreign ownership and then
      changes nothing; otherwise its kind conforms, unmanaged fields survive, and nothing else in
      the store moves. */
  lemma StepCorrects(kind: Kind, before: Cluster, after: Cluster, runtime: Runtime, errors: map<Kind, string>, error: Option<CoreError>)
    requires runtime.key in before.managed && Stepped(kind, before, after, runtime, errors, error)
    ensures error.Some? <==> kind in errors || Conflict(kind, ManagedAt(before, runtime.key), runtime)
    ensures error.Some? ==> after == before
    ensures error.None? ==>
              var m, next := ManagedAt(before, runtime.key), ManagedAt(after, runtime.key);
              && Conforms(kind, next, runtime)
              && KeepsUnmanaged(m, next, runtime)
              && forall other :: other != kind ==> Agree(other, m, next)
    ensures after.runtimes == before.runtimes && after.secrets == before.secrets
    ensures forall key :: key != runtime.key ==> ManagedAt(after, key) == ManagedAt(before, key)
  {
    SameManaged(before, runtime.key);
    ApplyStep(kind, ManagedAt(before, runtime.key), runtime);
    hide Apply, Conflict, Conforms, KeepsUnmanaged, Agree;
  }

  /******* The reconciler as written *******/

  class RuntimeReconciler {
    var cluster: Cluster
    const recorder: Recorder

    constructor (cluster: Cluster, recorder: Recorder)
      ensures this.cluster == cluster && this.recorder == recorder
    {
      this.cluster := cluster;
      this.recorder := recorder;
    }

    /** reconcileConfigMap: Get, the callback's assignments in place, then Create or Update. */
    method ReconcileConfigMap(runtime: Runtime, errors: map<Kind, string>) returns (error: Option<CoreError>)
      requires runtime.key in cluster.managed
      modifies this
      ensures Stepped(ConfigMaps, old(cluster), cluster, runtime, errors, error)
    {
      hide ConfigData, RuntimeLabels, SelectorLabels, DesiredTemplate, ServiceKind, ServicePort;
      SameManaged(cluster, runtime.key);
      if ConfigMaps in errors {
        return Some(CoreError(ConfigMaps, errors[ConfigMaps]));
      }
      var m := ManagedAt(cluster, runtime.key);
      var current := Fetched(m.configMap, map[]);
      current := current.(labels := RuntimeLabels(runtime.key.name));
      current := current.(body := ConfigData(runtime.spec));
      var owned := SetControllerReference(current, OwnerOf(runtime));
      if owned.None? {
        return Some(CoreError(ConfigMaps, ALREADY_OWNED));
      }
      cluster := WithManaged(cluster, runtime.key, m.(configMap := owned));
      return None;
    }

    method ReconcileServiceAccount(runtime: Runtime, errors: map<Kind, string>) returns (error: Option<CoreError>)
      requires runtime.key in cluster.managed
      modifies this
      ensures Stepped(ServiceAccounts, old(cluster), cluster, runtime, errors, error)
    {
      hide ConfigData, RuntimeLabels, SelectorLabels, DesiredTemplate, ServiceKind, ServicePort;
      SameManaged(cluster, runtime.key);
      if ServiceAccounts in errors {
        return Some(CoreError(ServiceAccounts, errors[ServiceAccounts]));
      }
      var m := ManagedAt(cluster, runtime.key);
      var current := Fetched(m.serviceAccount, ServiceAccount(true, []));
      current := current.(labels := RuntimeLabels(runtime.key.name));
      current := current.(body := current.body.(automountToken := false));
      current := current.(body := current.body.(pullSecrets := runtime.spec.imagePullSecrets));
      var owned := SetControllerReference(current, OwnerOf(runtime));
      if owned.None? {
        return Some(CoreError(ServiceAccounts, ALREADY_OWNED));
      }
      cluster := WithManaged(cluster, runtime.key, m.(serviceAccount := owned));
      return None;
    }

    method ReconcileService(runtime: Runtime, errors: map<Kind, string>) returns (error: Option<CoreError>)
      requires runtime.key in cluster.managed
      modifies this
      ensures Stepped(Services, old(cluster), cluster, runtime, errors, error)
    {
      hide ConfigData, RuntimeLabels, SelectorLabels, DesiredTemplate, ServiceKind, ServicePort;
      SameManaged(cluster, runtime.key);
      if Services in errors {
        return Some(CoreError(Services, errors[Services]));
      }
      var m := ManagedAt(cluster, runtime.key);
      var current := Fetched(m.service, Service("", map[], [], ""));
      current := current.(labels := RuntimeLabels(runtime.key.name));
      current := current.(body := current.body.(kind := ServiceKind(runtime.spec)));
      current := current.(body := current.body.(selector := SelectorLabels(runtime.key.name)));
      current := current.(body := current.body.(ports := [ServicePort(runtime.spec)]));
      var owned := SetControllerReference(current, OwnerOf(runtime));
      if owned.None? {
        return Some(CoreError(Services, ALREADY_OWNED));
      }
      cluster := WithManaged(cluster, runtime.key, m.(service := owned));
      return None;
    }

    /** The autoscaler's replica count survives the assignment of the desired spec. */
    method ReconcileDeployment(runtime: Runtime, errors: map<Kind, string>) returns (error: Option<CoreError>)
      requires runtime.key in cluster.managed
      modifies this
      ensures Stepped(Deployments, old(cluster), cluster, runtime, errors, error)
    {
      hide ConfigData, RuntimeLabels, SelectorLabels, DesiredTemplate, ServiceKind, ServicePort;
      SameManaged(cluster, runtime.key);
      if Deployments in errors {
        return Some(CoreError(Deployments, errors[Deployments]));
      }
      var m := ManagedAt(cluster, runtime.key);
      var current := Fetched(m.deployment, BLANK_DEPLOYMENT);
      var currentReplicas := current.body.spec.replicas;
      current := current.(labels := RuntimeLabels(runtime.key.name));
      current := current.(body := current.body.(spec := DesiredDeploymentSpec(runtime.key.name, runtime.spec)));
      if AutoscalingEnabled(runtime.spec) && currentReplicas.Some? {
        current := current.(body := current.body.(spec := current.body.spec.(replicas := currentReplicas)));
      }
      current := current.(body := current.body.(generation := ServerGeneration(Body(m.deployment), current.body.spec)));
      var owned := SetControllerReference(current, OwnerOf(runtime));
      if owned.None? {
        return Some(CoreError(Deployments, ALREADY_OWNED));
      }
      cluster := WithManaged(cluster, runtime.key, m.(deployment := owned));
      return None;
    }

    method ReconcilePodDisruptionBudget(runtime: Runtime, errors: map<Kind, string>) returns (error: Option<CoreError>)
      requires runtime.key in cluster.managed
      modifies this
      ensures Stepped(Budgets, old(cluster), cluster, runtime, errors, error)
    {
      hide ConfigData, RuntimeLabels, SelectorLabels, DesiredTemplate, ServiceKind, ServicePort;
      SameManaged(cluster, runtime.key);
      if Budgets in errors {
        return Some(CoreError(Budgets, errors[Budgets]));
      }
      var m := ManagedAt(cluster, runtime.key);
      var current := Fetched(m.budget, DisruptionBudget(0, map[]));
      current := current.(labels := RuntimeLabels(runtime.key.name));
      current := current.(body := BudgetBody(runtime));
      var owned := SetControllerReference(current, OwnerOf(runtime));
      if owned.None? {
        return Some(CoreError(Budgets, ALREADY_OWNED));
      }
      cluster := WithManaged(cluster, runtime.key, m.(budget := owned));
      return None;
    }

    /** A disabled NetworkPolicy is deleted, whoever controls it. */
    method ReconcileNetworkPolicy(runtime: Runtime, errors: map<Kind, string>) returns (error: Option<CoreError>)
      requires runtime.key in cluster.managed
      modifies this
      ensures Stepped(Policies, old(cluster), cluster, runtime, errors, error)
    {
      hide ConfigData, RuntimeLabels, SelectorLabels, DesiredTemplate, ServiceKind, ServicePort;
      SameManaged(cluster, runtime.key);
      if Policies in errors {
        return Some(CoreError(Policies, errors[Policies]));
      }
      var m := ManagedAt(cluster, runtime.key);
      if !PolicyEnabled(runtime.spec) {
        cluster := WithManaged(cluster, runtime.key, m.(policy := None));
        return None;
      }
      var current := Fetched(m.policy, NetworkPolicy(map[], [], 0));
      current := current.(labels := RuntimeLabels(runtime.key.name));
      current := current.(body := PolicyBody(runtime));
      var owned := SetControllerReference(current, OwnerOf(runtime));
      if owned.None? {
        return Some(CoreError(Policies, ALREADY_OWNED));
      }
      cluster := WithManaged(cluster, runtime.key, m.(policy := owned));
      return None;
    }

    /** A disabled autoscaler is deleted, whoever controls it. */
    method ReconcileHorizontalPodAutoscaler(runtime: Runtime, errors: map<Kind, string>) returns (error: Option<CoreError>)
      requires runtime.key in cluster.managed
      modifies this
      ensures Stepped(Autoscalers, old(cluster), cluster, runtime, errors, error)
    {
      hide ConfigData, RuntimeLabels, SelectorLabels, DesiredTemplate, ServiceKind, ServicePort;
      SameManaged(cluster, runtime.key);
      if Autoscalers in errors {
        return Some(CoreError(Autoscalers, errors[Autoscalers]));
      }
      var m := ManagedAt(cluster, runtime.key);
      if !AutoscalingEnabled(runtime.spec) {
        cluster := WithManaged(cluster, runtime.key, m.(autoscaler := None));
        return None;
      }
      var current := Fetched(m.autoscaler, Autoscaler("", 0, 0, 0));
      current := current.(labels := RuntimeLabels(runtime.key.name));
      current := current.(body := AutoscalerBody(runtime));
      var owned := SetControllerReference(current, OwnerOf(runtime));
      if owned.None? {
        return Some(CoreError(Autoscalers, ALREADY_OWNED));
      }
      cluster := WithManaged(cluster, runtime.key, m.(autoscaler := owned));
      return None;
    }

    /** The step of one kind. The ghosts track the pass: the store it started from and what the
        earlier steps did. */
    method ReconcileKind(kind: Kind, runtime: Runtime, errors: map<Kind, string>, ghost start: Cluster, ghost before: CoreResult)
      returns (error: Option<CoreError>, ghost after: CoreResult)
      requires before.error.None? && cluster == WithManaged(start, runtime.key, before.managed)
      modifies this
      ensures after == Then(before, kind, runtime, errors)
      ensures error == after.error && cluster == WithManaged(start, runtime.key, after.managed)
    {
      hide StepResult;
      after := Then(before, kind, runtime, errors);
      match kind {
        case ConfigMaps => error := ReconcileConfigMap(runtime, errors);
        case ServiceAccounts => error := ReconcileServiceAccount(runtime, errors);
        case Services => error := ReconcileService(runtime, errors);
        case Deployments => error := ReconcileDeployment(runtime, errors);
        case Budgets => error := ReconcilePodDisruptionBudget(runtime, errors);
        case Policies => error := ReconcileNetworkPolicy(runtime, errors);
        case Autoscalers => error := ReconcileHorizontalPodAutoscaler(runtime, errors);
      }
    }

    /** reconcileCoreResources: seven steps, stopping at the first error. */
    method ReconcileCoreResources(runtime: Runtime, errors: map<Kind, string>) returns (error: Option<CoreError>)
      requires runtime.key in cluster.managed
      modifies this
      ensures var core := ReconcileCore(old(ManagedAt(cluster, runtime.key)), runtime, errors);
              cluster == WithManaged(old(cluster), runtime.key, core.managed) && error == core.error
    {
      CoreIsChain(ManagedAt(cluster, runtime.key), runtime, errors);
      ghost var start, pass := cluster, CoreResult(ManagedAt(cluster, runtime.key), None);
      assert cluster == WithManaged(start, runtime.key, pass.managed);
      hide StepResult, ReconcileCore, WithManaged, ManagedAt;
      error, pass := ReconcileKind(ConfigMaps, runtime, errors, start, pass);
      if error.Some? { return; }
      error, pass := ReconcileKind(ServiceAccounts, runtime, errors, start, pass);
      if error.Some? { return; }
      error, pass := ReconcileKind(Services, runtime, errors, start, pass);
      if error.Some? { return; }
      error, pass := ReconcileKind(Deployments, runtime, errors, start, pass);
      if error.Some? { return; }
      error, pass := ReconcileKind(Budgets, runtime, errors, start, pass);
      if error.Some? { return; }
      error, pass := ReconcileKind(Policies, runtime, errors, start, pass);
      if error.Some? { return; }
      error, pass := ReconcileKind(Autoscalers, runtime, errors, start, pass);
    }

    /** updateRuntimeStatus: writes through the status subresource only a differing status. */
    method UpdateRuntimeStatus(runtime: Runtime, desired: Status, writeError: Option<string>)
      returns (updated: bool, stored: Status, error: Option<string>)
      modifies this
      ensures var target := NormaliseStatus(runtime.status, desired);
              && updated == (target != runtime.status && writeError.None?)
              && error == (if target != runtime.status then writeError else None)
              && stored == (if updated then PersistStatus(target) else runtime.status)
              && cluster == if updated then WithStatus(old(cluster), runtime, stored) else old(cluster)
    {
      var normalized := PreserveRuntimeConditionTransitionTimes(runtime.status, desired);
      if normalized == runtime.status {
        return false, runtime.status, None;
      }
      if writeError.Some? {
        return false, runtime.status, writeError;
      }
      stored := PersistStatus(normalized);
      cluster := WithStatus(cluster, runtime, stored);
      return true, stored, None;
    }

    /** Writes the status of a verdict and records its Events: the common end of Reconcile,
        reconcileInvalidConfiguration and handleReconciliationFailure. */
    method PublishStatus(runtime: Runtime, verdict: Verdict, faults: Faults, now: Clock) returns (error: Option<string>)
      requires runtime.key in cluster.runtimes && cluster.runtimes[runtime.key] == runtime
      modifies this, recorder
      ensures var step := StatusStep(runtime, verdict, faults, now);
              && cluster == WithStatus(old(cluster), runtime, Step(runtime.status, step))
              && recorder.events == old(recorder.events) + StepEvents(runtime.status, step)
              && error == StepError(runtime.status, step)
    {
      ghost var step := StatusStep(runtime, verdict, faults, now);
      var desired;
      match verdict.outcome {
        case Validated(validation) =>
          desired := BuildRuntimeStatus(runtime, verdict.observation, validation, now);
        case Failed(reconciliationError) =>
          desired := BuildReconciliationFailureStatus(runtime, verdict.observation, reconciliationError, now);
      }
      SameTarget(runtime, verdict, faults, now);
      hide BuildStatus, TransitionEvents, PersistStatus;
      var updated, stored, statusError := UpdateRuntimeStatus(runtime, desired, faults.write);
      SameStatus(old(cluster), runtime);
      if updated {
        recorder.RecordStatusTransitionEvents(runtime.status, stored);
      }
      match verdict.outcome {
        case Validated(_) =>
          error := statusError;
        case Failed(reconciliationError) =>
          error := Some(if statusError.Some? then Join(reconciliationError, statusError.value) else reconciliationError);
      }
      if error.Some? {
        recorder.RecordReconciliationFailure(error.value);
      }
    }

    /** Validates the references, reconciles the core resources when they resolve, and observes. */
    method EstablishVerdict(runtime: Runtime, faults: Faults) returns (verdict: Verdict)
      requires runtime.key in cluster.managed
      modifies this
      ensures verdict == VerdictOf(runtime, old(ManagedAt(cluster, runtime.key)), old(cluster).secrets, faults)
      ensures cluster == WithManaged(old(cluster), runtime.key, verdict.managed)
    {
      hide ReconcileCore, CheckReferences, CoreErrorText;
      var check := ValidateSecretReferences(runtime.spec, runtime.key.namespace, cluster.secrets, faults.secrets);
      var outcome := OutcomeOf(check, runtime.key.namespace);
      if outcome == Validated(ReferencesValid) {
        var coreError := ReconcileCoreResources(runtime, faults.core);
        if coreError.Some? {
          outcome := Failed(CoreErrorText(coreError.value));
        }
      }
      verdict := Concluding(ManagedAt(cluster, runtime.key), outcome, faults);
    }

    method Reconcile(key: Key, faults: Faults, now: Clock) returns (error: Option<string>)
      requires key in cluster.runtimes ==> key in cluster.managed && cluster.runtimes[key].key == key
      modifies this, recorder
      ensures var effect := ReconcileEffect(old(cluster), key, faults, now);
              && cluster == effect.cluster
              && recorder.events == old(recorder.events) + effect.events
              && error == effect.error
    {
      hide VerdictOf, Step, StepEvents, StepError;
      if faults.get.Some? {
        return faults.get;
      }
      if key !in cluster.runtimes {
        return None;
      }
      var runtime := cluster.runtimes[key];
      if runtime.deleting {
        return None;
      }
      var verdict := EstablishVerdict(runtime, faults);
      error := PublishStatus(runtime, verdict, faults, now);
    }
  }

  /** One more step after `result`, unless that already stopped. */
  function Then(result: CoreResult, kind: Kind, runtime: Runtime, errors: map<Kind, string>): CoreResult {
    if result.error.Some? then result else StepResult(kind, result.managed, runtime, errors)
  }

  lemma Unroll(kind: Kind, rest: seq<Kind>, before: CoreResult, runtime: Runtime, errors: map<Kind, string>)
    requires before.error.None?
    ensures var after := Then(before, kind, runtime, errors);
            ReconcileKinds([kind] + rest, before.managed, runtime, errors) ==
            if after.error.Some? then after else ReconcileKinds(rest, after.managed, runtime, errors)
  {
    hide StepResult;
    assert ([kind] + rest)[1..] == rest;
  }

  /** reconcileCoreResources written out. */
  lemma CoreIsChain(m: Managed, runtime: Runtime, errors: map<Kind, string>)
    ensures var a := Then(CoreResult(m, None), ConfigMaps, runtime, errors);
            var b := Then(a, ServiceAccounts, runtime, errors);
            var c := Then(b, Services, runtime, errors);
            var d := Then(c, Deployments, runtime, errors);
            var e := Then(d, Budgets, runtime, errors);
            var f := Then(e, Policies, runtime, errors);
            ReconcileCore(m, runtime, errors) == Then(f, Autoscalers, runtime, errors)
  {
    var a := Then(CoreResult(m, None), ConfigMaps, runtime, errors);
    var b := Then(a, ServiceAccounts, runtime, errors);
    var c := Then(b, Services, runtime, errors);
    var d := Then(c, Deployments, runtime, errors);
    var e := Then(d, Budgets, runtime, errors);
    var f := Then(e, Policies, runtime, errors);
    var g := Then(f, Autoscalers, runtime, errors);
    assert g.error.None? ==> ReconcileKinds([], g.managed, runtime, errors) == g;
    hide StepResult, ReconcileKinds;
    var after5, after4, after3 := [Policies] + ([Autoscalers] + []), [Budgets] + ([Policies] + ([Autoscalers] + [])),
      [Deployments] + ([Budgets] + ([Policies] + ([Autoscalers] + [])));
    var after2 := [Services] + after3;
    var after1 := [ServiceAccounts] + after2;
    assert ORDER == [ConfigMaps] + after1;
    Unroll(ConfigMaps, after1, CoreResult(m, None), runtime, errors);
    if a.error.None? { Unroll(ServiceAccounts, after2, a, runtime, errors); }
    if b.error.None? { Unroll(Services, after3, b, runtime, errors); }
    if c.error.None? { Unroll(Deployments, after4, c, runtime, errors); }
    if d.error.None? { Unroll(Budgets, after5, d, runtime, errors); }
    if e.error.None? { Unroll(Policies, [Autoscalers] + [], e, runtime, errors); }
    if f.error.None? { Unroll(Autoscalers, [], f, runtime, errors); }
  }

  lemma SameTarget(runtime: Runtime, verdict: Verdict, faults: Faults, now: Clock)
    ensures NormaliseStatus(runtime.status, BuildStatus(runtime, verdict.observation, verdict.outcome, now)) ==
            TargetOf(runtime.status, StatusStep(runtime, verdict, faults, now))
  {
    var plain := RuntimeAt(runtime.status, StatusStep(runtime, verdict, faults, now));
    assert Updates(plain, verdict.observation.deployment, verdict.outcome, now)
        == Updates(runtime, verdict.observation.deployment, verdict.outcome, now);
    hide Updates;
  }

  lemma SameStatus(cluster: Cluster, runtime: Runtime)
    requires runtime.key in cluster.runtimes && cluster.runtimes[runtime.key] == runtime
    ensures WithStatus(cluster, runtime, runtime.status) == cluster
  {
  }

  /******* Fixpoint *******/

  predicate Live(cluster: Cluster, key: Key) {
    key in cluster.runtimes && !cluster.runtimes[key].deleting
  }

  /** Another owner controls an object that this runtime needs and may reconcile. */
  ghost predicate Obstructed(cluster: Cluster, key: Key) {
    && Live(cluster, key)
    && CheckReferences(cluster.runtimes[key].spec, cluster.runtimes[key].key.namespace, cluster.secrets, map[]) == AllFound
    && exists kind :: Conflict(kind, ManagedAt(cluster, key), cluster.runtimes[key])
  }

  lemma VerdictIgnoresStatus(runtime: Runtime, status: Status, m: Managed, secrets: set<Key>, faults: Faults)
    ensures VerdictOf(runtime.(status := status), m, secrets, faults) == VerdictOf(runtime, m, secrets, faults)
  {
    hide CheckReferences;
    CoreIgnoresStatus(ORDER, m, runtime, status, faults.core);
  }

  lemma {:induction false} CoreIgnoresStatus(kinds: seq<Kind>, m: Managed, runtime: Runtime, status: Status, errors: map<Kind, string>)
    ensures ReconcileKinds(kinds, m, runtime.(status := status), errors) == ReconcileKinds(kinds, m, runtime, errors)
  {
    if kinds == [] {
    } else {
      ApplyIgnoresStatus(kinds[0], m, runtime, status);
      hide Apply;
      var next := Apply(kinds[0], m, runtime);
      if next.Some? { CoreIgnoresStatus(kinds[1..], next.value, runtime, status, errors); }
    }
  }

  lemma ApplyIgnoresStatus(kind: Kind, m: Managed, runtime: Runtime, status: Status)
    ensures Apply(kind, m, runtime.(status := status)) == Apply(kind, m, runtime)
  {
    hide ConfigData, RuntimeLabels, SelectorLabels, DesiredTemplate;
  }

  /** The verdict on the resources a verdict left behind is the same verdict. */
  lemma VerdictSettles(runtime: Runtime, m: Managed, secrets: set<Key>, faults: Faults)
    ensures var verdict := VerdictOf(runtime, m, secrets, faults);
            VerdictOf(runtime, verdict.managed, secrets, faults) == verdict
  {
    hide CheckReferences, CoreErrorText, ReconcileKinds;
    OrderHasNoRepeats();
    ReconcileIdempotent(ORDER, m, runtime, faults.core);
  }

  lemma StatusSettles(runtime: Runtime, verdict: Verdict, now: Clock, later: Clock)
    requires RuntimeImage(runtime.spec.image) != "" && Unique(runtime.status.conditions)
    ensures var step, again := StatusStep(runtime, verdict, NO_FAULTS, now), StatusStep(runtime, verdict, NO_FAULTS, later);
            var status := Step(runtime.status, step);
            && Step(status, again) == status
            && StepError(status, again) == StepError(runtime.status, step)
  {
    var step := StatusStep(runtime, verdict, NO_FAULTS, now);
    RepeatedReconcileIsQuiet(runtime.status, step, later, None);
    hide TargetOf, PersistStatus;
    assert StatusStep(runtime, verdict, NO_FAULTS, later) == step.(now := later, writeError := None);
  }

  /** The runtime, its resources and the Secrets are such that no reconcile changes them. */
  ghost predicate Settled(runtime: Runtime, m: Managed, secrets: set<Key>) {
    var verdict := VerdictOf(runtime, m, secrets, NO_FAULTS);
    && verdict.managed == m
    && forall now :: Step(runtime.status, StatusStep(runtime, verdict, NO_FAULTS, now)) == runtime.status
  }

  ghost predicate SettledAt(cluster: Cluster, key: Key) {
    Live(cluster, key) ==> Settled(cluster.runtimes[key], ManagedAt(cluster, key), cluster.secrets)
  }

  lemma SettledIsUnchanged(cluster: Cluster, key: Key, now: Clock)
    requires WellFormed(cluster) && SettledAt(cluster, key)
    ensures ReconcileEffect(cluster, key, NO_FAULTS, now).cluster == cluster
  {
    hide VerdictOf, Step, StepEvents, StepError;
  }

  lemma {:induction false} ReconcileSettles(runtime: Runtime, m: Managed, secrets: set<Key>, now: Clock)
    requires RuntimeImage(runtime.spec.image) != "" && Unique(runtime.status.conditions)
    ensures var verdict := VerdictOf(runtime, m, secrets, NO_FAULTS);
            var after := runtime.(status := Step(runtime.status, StatusStep(runtime, verdict, NO_FAULTS, now)));
            && Settled(after, verdict.managed, secrets)
            && VerdictOf(after, verdict.managed, secrets, NO_FAULTS) == verdict
  {
    var verdict := VerdictOf(runtime, m, secrets, NO_FAULTS);
    var status := Step(runtime.status, StatusStep(runtime, verdict, NO_FAULTS, now));
    VerdictSettles(runtime, m, secrets, NO_FAULTS);
    VerdictIgnoresStatus(runtime, status, verdict.managed, secrets, NO_FAULTS);
    hide VerdictOf, Step, StepError;
    forall later ensures Step(status, StatusStep(runtime.(status := status), verdict, NO_FAULTS, later)) == status {
      StatusSettles(runtime, verdict, now, later);
      assert StatusStep(runtime.(status := status), verdict, NO_FAULTS, later) == StatusStep(runtime, verdict, NO_FAULTS, later);
    }
  }

  /** What a reconcile of `key` can change: that runtime's status and its managed resources. */
  lemma EffectFrame(cluster: Cluster, key: Key, now: Clock)
    requires WellFormed(cluster)
    ensures var after := ReconcileEffect(cluster, key, NO_FAULTS, now).cluster;
            && after.secrets == cluster.secrets
            && after.runtimes.Keys == cluster.runtimes.Keys
            && cluster.managed.Keys <= after.managed.Keys
            && (forall other :: other in cluster.runtimes && other != key ==> after.runtimes[other] == cluster.runtimes[other])
            && (forall other :: other != key ==> ManagedAt(after, other) == ManagedAt(cluster, other))
            && (Live(cluster, key) ==>
                var runtime := cluster.runtimes[key];
                var verdict := VerdictOf(runtime, ManagedAt(cluster, key), cluster.secrets, NO_FAULTS);
                && after.runtimes[key] == runtime.(status := Step(runtime.status, StatusStep(runtime, verdict, NO_FAULTS, now)))
                && ManagedAt(after, key) == verdict.managed)
            && (!Live(cluster, key) ==> after == cluster)
  {
    hide VerdictOf, Step, StepEvents, StepError;
  }

  lemma EffectKeepsWellFormed(cluster: Cluster, key: Key, now: Clock)
    requires WellFormed(cluster)
    ensures WellFormed(ReconcileEffect(cluster, key, NO_FAULTS, now).cluster)
  {
    hide VerdictOf, ReconcileEffect, Step, TargetOf, Unique, RuntimeImage;
    EffectFrame(cluster, key, now);
    if Live(cluster, key) {
      var runtime := cluster.runtimes[key];
      var verdict := VerdictOf(runtime, ManagedAt(cluster, key), cluster.secrets, NO_FAULTS);
      StepKeepsUnique(runtime.status, StatusStep(runtime, verdict, NO_FAULTS, now));
    }
  }

  /** Without faults, one reconcile reaches a state that every further reconcile of the same
      runtime leaves unchanged, at whatever time; and it keeps returning the same error. */
  lemma ReconcileIsFixpoint(cluster: Cluster, key: Key, now: Clock, later: Clock)
    requires WellFormed(cluster)
    ensures var once := ReconcileEffect(cluster, key, NO_FAULTS, now);
            var twice := ReconcileEffect(once.cluster, key, NO_FAULTS, later);
            && SettledAt(once.cluster, key)
            && twice.cluster == once.cluster
            && twice.error == once.error
  {
    EffectFrame(cluster, key, now);
    EffectKeepsWellFormed(cluster, key, now);
    var once := ReconcileEffect(cluster, key, NO_FAULTS, now);
    if Live(cluster, key) {
      var runtime := cluster.runtimes[key];
      ReconcileSettles(runtime, ManagedAt(cluster, key), cluster.secrets, now);
      ReconcileErrorRepeats(cluster, key, now, later);
    }
    hide ReconcileEffect, VerdictOf, Step;
    SettledIsUnchanged(once.cluster, key, later);
  }

  lemma ReconcileErrorRepeats(cluster: Cluster, key: Key, now: Clock, later: Clock)
    requires WellFormed(cluster) && Live(cluster, key)
    ensures var once := ReconcileEffect(cluster, key, NO_FAULTS, now);
            ReconcileEffect(once.cluster, key, NO_FAULTS, later).error == once.error
  {
    EffectFrame(cluster, key, now);
    var runtime, m := cluster.runtimes[key], ManagedAt(cluster, key);
    ReconcileSettles(runtime, m, cluster.secrets, now);
    var verdict := VerdictOf(runtime, m, cluster.secrets, NO_FAULTS);
    StatusSettles(runtime, verdict, now, later);
    var status := Step(runtime.status, StatusStep(runtime, verdict, NO_FAULTS, now));
    assert StatusStep(runtime.(status := status), verdict, NO_FAULTS, later) == StatusStep(runtime, verdict, NO_FAULTS, later);
    hide VerdictOf, Step, StepEvents, StepError, Settled;
  }

  /** A lookup or the observation fails, or an API error or another owner stops the pass over the
      managed kinds of a runtime whose references resolve. */
  ghost predicate Fails(runtime: Runtime, m: Managed, secrets: set<Key>, faults: Faults) {
    var check := CheckReferences(runtime.spec, runtime.key.namespace, secrets, faults.secrets);
    || check.LookupFailed?
    || faults.observe.Some?
    || (check == AllFound && exists i :: 0 <= i < |ORDER| && Stops(ORDER[i], m, runtime, faults.core))
  }

  lemma VerdictFailsIff(runtime: Runtime, m: Managed, secrets: set<Key>, faults: Faults)
    ensures VerdictOf(runtime, m, secrets, faults).outcome.Failed? <==> Fails(runtime, m, secrets, faults)
  {
    hide CheckReferences, CoreErrorText, Observe, Stops, ReconcileKinds;
    OrderHasNoRepeats();
    ReconcileFailsIff(ORDER, m, runtime, faults.core);
  }

  /** Whatever fails is reported: a reconcile returns an error exactly when its Get fails, it fails
      on a live runtime, or a status it needs to write is refused. A failed Get changes nothing and
      is returned as it is. */
  lemma ReconcileErrorIff(cluster: Cluster, key: Key, faults: Faults, now: Clock)
    ensures var effect := ReconcileEffect(cluster, key, faults, now);
            && (faults.get.Some? ==> effect == Effect(cluster, [], faults.get))
            && (effect.error.Some? <==>
                || faults.get.Some?
                || (Live(cluster, key) &&
                    var runtime, m := cluster.runtimes[key], ManagedAt(cluster, key);
                    var step := StatusStep(runtime, VerdictOf(runtime, m, cluster.secrets, faults), faults, now);
                    || Fails(runtime, m, cluster.secrets, faults)
                    || (faults.write.Some? && TargetOf(runtime.status, step) != runtime.status)))
  {
    hide VerdictOf, TargetOf, Fails, Step, StepEvents;
    if Live(cluster, key) {
      VerdictFailsIff(cluster.runtimes[key], ManagedAt(cluster, key), cluster.secrets, faults);
    }
  }

  /** And it is announced: the Events of a reconcile that got its runtime end with a
      ReconciliationFailed naming the returned error exactly when there is one. */
  lemma ErrorIsAnnounced(cluster: Cluster, key: Key, faults: Faults, now: Clock)
    requires faults.get.None?
    ensures var effect := ReconcileEffect(cluster, key, faults, now);
            && (effect.error.Some? ==>
                && effect.events != []
                && effect.events[|effect.events| - 1] == Event(Warning, ReconciliationFailedEvent, ReconcileRuntime, Error(effect.error.value)))
            && (effect.error.None? ==> !Emits(effect.events, ReconciliationFailedEvent))
  {
    hide VerdictOf, Step, Writes, TransitionEvents, Emits;
    if Live(cluster, key) {
      var runtime := cluster.runtimes[key];
      var step := StatusStep(runtime, VerdictOf(runtime, ManagedAt(cluster, key), cluster.secrets, faults), faults, now);
      TransitionEmits(runtime.status, Step(runtime.status, step), ReconciliationFailedEvent);
      EmitsSingle([], ReconciliationFailedEvent);
      hide StepError;
      assert TransitionEvents(runtime.status, Step(runtime.status, step)) + [] == TransitionEvents(runtime.status, Step(runtime.status, step));
    } else {
      EmitsSingle([], ReconciliationFailedEvent);
    }
  }

  /** Without faults a reconcile fails, and is requeued, exactly when it is obstructed. */
  lemma FaultFreeErrorIff(cluster: Cluster, key: Key, now: Clock)
    requires WellFormed(cluster)
    ensures ReconcileEffect(cluster, key, NO_FAULTS, now).error.Some? <==> Obstructed(cluster, key)
  {
    hide ReconcileEffect, VerdictOf, TargetOf, CheckSecrets, SecretNames, Conflict;
    ReconcileErrorIff(cluster, key, NO_FAULTS, now);
    OrderHasNoRepeats();
    if Live(cluster, key) {
      var runtime, m := cluster.runtimes[key], ManagedAt(cluster, key);
      NoLookupFails(SecretNames(runtime.spec), runtime.key.namespace, cluster.secrets);
      if kind :| Conflict(kind, m, runtime) {
        assert kind in ORDER;
        var i :| 0 <= i < |ORDER| && ORDER[i] == kind;
        assert Stops(ORDER[i], m, runtime, map[]);
      }
    }
  }

  /** A failing reconcile looks at the workload again and reports what it then sees, or nothing if
      that fails as well. */
  lemma VerdictObserves(runtime: Runtime, m: Managed, secrets: set<Key>, faults: Faults)
    ensures var verdict := VerdictOf(runtime, m, secrets, faults);
            verdict.observation ==
            if Fails(runtime, m, secrets, faults) && faults.observeAfterFailure.Some? then NOTHING_OBSERVED else Observe(verdict.managed)
  {
    VerdictFailsIff(runtime, m, secrets, faults);
    hide Fails, CheckReferences, ReconcileCore, CoreErrorText, Observe;
  }

  /******* Safety of one reconcile *******/

  /** Missing Secrets and failed lookups block every change to the managed resources. */
  lemma UnresolvedTouchesNothing(runtime: Runtime, m: Managed, secrets: set<Key>, faults: Faults, name: string)
    requires name in ReferencedNames(runtime.spec) && Blocks(name, runtime.key.namespace, secrets, faults.secrets)
    ensures VerdictOf(runtime, m, secrets, faults).managed == m
  {
    ValidationReportsFirst(runtime.spec, runtime.key.namespace, secrets, faults.secrets, name);
    hide CheckReferences, ReconcileCore;
  }

  /** A reconcile leaves another owner's object of a managed kind alone exactly when its references
      do not resolve or its pass stops at that kind or earlier. */
  lemma ForeignSurvivesReconcileIff(runtime: Runtime, m: Managed, secrets: set<Key>, faults: Faults, n: nat)
    requires n < |ORDER| && ForeignAt(ORDER[n], m, runtime)
    ensures Agree(ORDER[n], m, VerdictOf(runtime, m, secrets, faults).managed) <==>
            || CheckReferences(runtime.spec, runtime.key.namespace, secrets, faults.secrets) != AllFound
            || exists i :: 0 <= i <= n && Stops(ORDER[i], m, runtime, faults.core)
  {
    hide VerdictOf, CheckReferences, ReconcileKinds, Agree, Stops, ForeignAt;
    OrderHasNoRepeats();
    ForeignSurvivesIff(ORDER, m, runtime, faults.core, n);
    AgreeOrder(ORDER[n], m, m, m);
    VerdictManages(runtime, m, secrets, faults);
  }

  lemma VerdictManages(runtime: Runtime, m: Managed, secrets: set<Key>, faults: Faults)
    ensures VerdictOf(runtime, m, secrets, faults).managed ==
            if CheckReferences(runtime.spec, runtime.key.namespace, secrets, faults.secrets) == AllFound
            then ReconcileCore(m, runtime, faults.core).managed else m
  {
    hide CheckReferences, ReconcileCore, CoreErrorText, Observe;
  }

  /** The reported ConfigurationValid, in terms of the store and the failing calls: False exactly
      when a Secret was found missing and the workload could then be observed. A failed lookup, or
      a failed observation after a missing Secret, reports True. */
  lemma ConfigurationValidInStore(runtime: Runtime, m: Managed, secrets: set<Key>, faults: Faults, now: Clock)
    ensures var verdict := VerdictOf(runtime, m, secrets, faults);
            var check := CheckReferences(runtime.spec, runtime.key.namespace, secrets, faults.secrets);
            Holds(TargetOf(runtime.status, StatusStep(runtime, verdict, faults, now)), ConfigurationValid) <==>
            !(check.NotFound? && faults.observe.None?)
  {
    var verdict := VerdictOf(runtime, m, secrets, faults);
    var step := StatusStep(runtime, verdict, faults, now);
    ConfigurationValidIff(RuntimeAt(runtime.status, step), verdict.observation, verdict.outcome, now);
    hide Holds, Target, CheckReferences, ReconcileCore, CoreErrorText, Observe;
  }

  /** So a runtime whose Secret is missing reports valid references when its workload cannot be
      read. */
  lemma MissingSecretReportedValid(runtime: Runtime, m: Managed, secrets: set<Key>, name: string, error: string, now: Clock)
    requires Unresolved(runtime.spec, runtime.key.namespace, secrets, name)
    ensures var faults := NO_FAULTS.(observe := Some(error));
            var verdict := VerdictOf(runtime, m, secrets, faults);
            && CheckReferences(runtime.spec, runtime.key.namespace, secrets, faults.secrets).NotFound?
            && Holds(TargetOf(runtime.status, StatusStep(runtime, verdict, faults, now)), ConfigurationValid)
  {
    ConfigurationValidInStore(runtime, m, secrets, NO_FAULTS.(observe := Some(error)), now);
    ValidationReportsFirst(runtime.spec, runtime.key.namespace, secrets, map[], name);
    NoLookupFails(SecretNames(runtime.spec), runtime.key.namespace, secrets);
    hide Holds, TargetOf, VerdictOf, CheckSecrets, SecretNames;
  }

  /** The Pods use exactly the Secrets that validation looks up. */
  lemma PodsUseValidatedSecrets(name: string, spec: Spec, secret: string)
    ensures secret in ReferencedNames(spec) <==>
            var pod := DesiredTemplate(name, spec).pod;
            secret in pod.pullSecrets || (pod.credentials.Some? && pod.credentials.value.name == secret)
  {
  }

  /** The first Secret found missing is named, in ConfigurationValid and as what degrades the
      runtime. */
  lemma MissingSecretIsNamed(runtime: Runtime, m: Managed, secrets: set<Key>, faults: Faults, name: string, now: Clock)
    requires LeastBlocking(runtime.spec, runtime.key.namespace, secrets, faults.secrets, name)
    requires name !in faults.secrets && faults.observe.None?
    ensures var target := TargetOf(runtime.status, StatusStep(runtime, VerdictOf(runtime, m, secrets, faults), faults, now));
            && ReadsAs(target, ConfigurationValid, Row(False, SecretNotFound, SecretMissing(name)))
            && ReadsAs(target, Degraded, Row(True, ConfigurationInvalid, SecretMissing(name)))
  {
    hide ReadsAs, Target, CheckReferences, ReconcileCore, LeastBlocking;
    ValidationReportsFirst(runtime.spec, runtime.key.namespace, secrets, faults.secrets, name);
    var step := StatusStep(runtime, VerdictOf(runtime, m, secrets, faults), faults, now);
    InvalidReferencesAreNamed(RuntimeAt(runtime.status, step), step.observation, SecretNotFound, SecretMissing(name), now);
  }

  /** A reconcile that succeeds reports the desired image as the current one, and the endpoint at
      the desired port: it observes what it has just brought about. */
  lemma SuccessReports(runtime: Runtime, m: Managed, secrets: set<Key>, faults: Faults, now: Clock)
    requires VerdictOf(runtime, m, secrets, faults).outcome == Validated(ReferencesValid)
    ensures var target := TargetOf(runtime.status, StatusStep(runtime, VerdictOf(runtime, m, secrets, faults), faults, now));
            && target.currentImage == target.desiredImage == RuntimeImage(runtime.spec.image)
            && target.endpoint == Endpoint(runtime.key.name, runtime.key.namespace,
                                           if runtime.spec.service.port == 0 then 9000 else runtime.spec.service.port)
  {
    hide CheckReferences, ReconcileKinds, CoreErrorText, RuntimeImage, Target, PodLabels, PodAnnotations;
    var verdict := VerdictOf(runtime, m, secrets, faults);
    var step := StatusStep(runtime, verdict, faults, now);
    OrderHasNoRepeats();
    ReconcileConforms(ORDER, m, runtime, faults.core);
    assert Conforms(Services, verdict.managed, runtime) && Conforms(Deployments, verdict.managed, runtime);
    TargetFields(RuntimeAt(runtime.status, step), verdict.observation, verdict.outcome, now);
    CurrentImageOf(verdict.managed.deployment.value.body, 0);
  }

  /** The Deployment is as it was or as its own step makes it. */
  predicate DeploymentStepped(before: Managed, after: Managed, runtime: Runtime) {
    || after.deployment == before.deployment
    || (Apply(Deployments, before, runtime).Some? && after.deployment == Apply(Deployments, before, runtime).value.deployment)
  }

  lemma DeploymentStepLocal(a: Managed, b: Managed, after: Managed, runtime: Runtime)
    requires a.deployment == b.deployment && DeploymentStepped(b, after, runtime)
    ensures DeploymentStepped(a, after, runtime)
  {
    hide CreateOrUpdate;
  }

  lemma {:induction false} DeploymentOfPass(kinds: seq<Kind>, m: Managed, runtime: Runtime, errors: map<Kind, string>)
    requires NoRepeats(kinds)
    ensures DeploymentStepped(m, ReconcileKinds(kinds, m, runtime, errors).managed, runtime)
  {
    if kinds != [] && kinds[0] !in errors && Apply(kinds[0], m, runtime).Some? {
      hide Apply, Conforms, Conflict, KeepsUnmanaged;
      var next, rest := Apply(kinds[0], m, runtime).value, kinds[1..];
      var after := ReconcileKinds(rest, next, runtime, errors).managed;
      if kinds[0] == Deployments {
        assert Deployments !in rest;
        ReconcileFrame(rest, next, runtime, errors);
        assert Agree(Deployments, next, after);
      } else {
        DeploymentOfPass(rest, next, runtime, errors);
        ApplyStep(kinds[0], m, runtime);
        assert Agree(Deployments, m, next);
        DeploymentStepLocal(m, next, after, runtime);
      }
    }
  }

  lemma DeploymentOfVerdict(runtime: Runtime, m: Managed, secrets: set<Key>, faults: Faults)
    ensures var verdict := VerdictOf(runtime, m, secrets, faults);
            && DeploymentStepped(m, verdict.managed, runtime)
            && (verdict.observation.deployment.None? || verdict.observation.deployment == Body(verdict.managed.deployment))
  {
    OrderHasNoRepeats();
    DeploymentOfPass(ORDER, m, runtime, faults.core);
    assert ReconcileKinds(ORDER, m, runtime, faults.core) == ReconcileCore(m, runtime, faults.core);
    assert DeploymentStepped(m, m, runtime);
    hide DeploymentStepped, ReconcileCore, ReconcileKinds, CheckReferences, OutcomeOf, CoreErrorText, Concluding, Body;
    var outcome := OutcomeOf(CheckReferences(runtime.spec, runtime.key.namespace, secrets, faults.secrets), runtime.key.namespace);
    ConcludingObserves(m, outcome, faults);
    var core := ReconcileCore(m, runtime, faults.core);
    ConcludingObserves(core.managed, if core.error.Some? then Failed(CoreErrorText(core.error.value)) else outcome, faults);
  }

  lemma ConcludingObserves(m: Managed, outcome: Outcome, faults: Faults)
    ensures var verdict := Concluding(m, outcome, faults);
            verdict.managed == m && (verdict.observation.deployment.None? || verdict.observation.deployment == Body(m.deployment))
  {
  }

  /** No premature success: a reconcile that creates the Deployment or changes its spec never moves
      lastSuccessfulImage, on any path and whatever else fails. */
  lemma NoPrematureSuccess(runtime: Runtime, m: Managed, secrets: set<Key>, faults: Faults, now: Clock)
    requires m.deployment.Some? ==> m.deployment.value.body.status.observedGeneration <= m.deployment.value.body.generation
    ensures var verdict := VerdictOf(runtime, m, secrets, faults);
            var step := StatusStep(runtime, verdict, faults, now);
            verdict.managed.deployment.Some?
            && (m.deployment.None? || verdict.managed.deployment.value.body.spec != m.deployment.value.body.spec) ==>
            Step(runtime.status, step).lastSuccessfulImage == runtime.status.lastSuccessfulImage
  {
    hide Step, Writes, Apply, VerdictOf, ObserveRollout, Converged, CurrentImage, RuntimeImage;
    var verdict := VerdictOf(runtime, m, secrets, faults);
    if verdict.managed.deployment.Some?
       && (m.deployment.None? || verdict.managed.deployment.value.body.spec != m.deployment.value.body.spec) {
      DeploymentOfVerdict(runtime, m, secrets, faults);
      LastSuccessfulChange(runtime.status, StatusStep(runtime, verdict, faults, now));
      ChangedDeploymentIsNotComplete(m, runtime);
      RolloutCompleteIff(runtime.spec, verdict.observation.deployment);
    }
  }
}
