/** The resources managed for one runtime and reconcileCoreResources on them. All of them share the
    runtime's name and namespace, so the part of the API store a reconcile touches is one record. */
module ManagedResources {
  import opened Wrappers
  import opened RuntimeApi
  import opened ConfigPayload
  import opened RuntimeResources
  import opened DeploymentRollout

  datatype Owner = Owner(kind: string, name: string, uid: string)

  /** `rest` stands for the metadata the operator leaves alone. */
  datatype Resource<T> = Resource(labels: Labels, controller: Option<Owner>, rest: string, body: T)

  datatype ServiceAccount = ServiceAccount(automountToken: bool, pullSecrets: seq<string>)
  datatype DisruptionBudget = DisruptionBudget(maxUnavailable: int, selector: Labels)
  datatype NetworkPolicy = NetworkPolicy(selector: Labels, ingress: seq<IngressRule>, port: int)
  datatype Autoscaler = Autoscaler(target: string, minReplicas: int, maxReplicas: int, targetCpu: int)

  datatype Managed = Managed(
    configMap: Option<Resource<map<string, string>>>,
    serviceAccount: Option<Resource<ServiceAccount>>,
    service: Option<Resource<Service>>,
    deployment: Option<Resource<Deployment>>,
    budget: Option<Resource<DisruptionBudget>>,
    policy: Option<Resource<NetworkPolicy>>,
    autoscaler: Option<Resource<Autoscaler>>)

  const NO_RESOURCES := Managed(None, None, None, None, None, None, None)

  datatype Kind = ConfigMaps | ServiceAccounts | Services | Deployments | Budgets | Policies | Autoscalers

  /** The order of reconcileCoreResources. */
  const ORDER: seq<Kind> := [ConfigMaps, ServiceAccounts, Services, Deployments, Budgets, Policies, Autoscalers]

  /******* CreateOrUpdate *******/

  function OwnerOf(runtime: Runtime): Owner {
    Owner("TrussiumRuntime", runtime.key.name, runtime.uid)
  }

  /** Owner references are compared by kind and name; the uid is refreshed. */
  predicate SameOwner(a: Owner, b: Owner) {
    a.kind == b.kind && a.name == b.name
  }

  /** SetControllerReference refuses an object that another owner controls. */
  predicate Foreign<T>(current: Option<Resource<T>>, owner: Owner) {
    current.Some? && current.value.controller.Some? && !SameOwner(current.value.controller.value, owner)
  }

  /** controllerutil.SetControllerReference; None is its ownership error. */
  function SetControllerReference<T>(current: Resource<T>, owner: Owner): Option<Resource<T>> {
    if Foreign(Some(current), owner) then None else Some(current.(controller := Some(owner)))
  }

  /** What Get leaves in the object it was handed: the stored one, or that object, still blank. */
  function Fetched<T>(stored: Option<Resource<T>>, blank: T): Resource<T> {
    if stored.None? then Resource(map[], None, "", blank) else stored.value
  }

  /** controllerutil.CreateOrUpdate with a callback that assigns labels, the managed part of the
      body and the controller reference. */
  function CreateOrUpdate<T>(current: Option<Resource<T>>, runtime: Runtime, body: Option<T> -> T): Option<Resource<T>> {
    if Foreign(current, OwnerOf(runtime)) then None
    else if current.None? then Some(Resource(RuntimeLabels(runtime.key.name), Some(OwnerOf(runtime)), "", body(None)))
    else Some(Resource(RuntimeLabels(runtime.key.name), Some(OwnerOf(runtime)), current.value.rest, body(Some(current.value.body))))
  }

  /******* Desired bodies *******/

  function ServiceBody(runtime: Runtime, current: Option<Service>): Service {
    Service(ServiceKind(runtime.spec), SelectorLabels(runtime.key.name), [ServicePort(runtime.spec)],
            if current.None? then "" else current.value.clusterIP)
  }

  const NO_REPLICAS := DeploymentStatus(0, 0, 0, 0, 0, 0, [])

  /** The callback of reconcileDeployment: the autoscaler's replica count is kept. */
  function MutatedDeploymentSpec(runtime: Runtime, current: Option<int>): DeploymentSpec {
    var desired := DesiredDeploymentSpec(runtime.key.name, runtime.spec);
    if AutoscalingEnabled(runtime.spec) && current.Some? then desired.(replicas := current) else desired
  }

  /** The API server starts at generation 1 and counts spec changes. */
  function ServerGeneration(current: Option<Deployment>, spec: DeploymentSpec): int {
    if current.None? then 1
    else if spec == current.value.spec then current.value.generation
    else current.value.generation + 1
  }

  function DeploymentBody(runtime: Runtime, current: Option<Deployment>): Deployment {
    var spec := MutatedDeploymentSpec(runtime, if current.None? then None else current.value.spec.replicas);
    Deployment(ServerGeneration(current, spec), spec, if current.None? then NO_REPLICAS else current.value.status)
  }

  function AccountBody(runtime: Runtime): ServiceAccount {
    ServiceAccount(false, runtime.spec.imagePullSecrets)
  }

  function BudgetBody(runtime: Runtime): DisruptionBudget {
    DisruptionBudget(1, SelectorLabels(runtime.key.name))
  }

  predicate PolicyEnabled(spec: Spec) {
    spec.networkPolicy.Some? && spec.networkPolicy.value.enabled
  }

  function PolicyBody(runtime: Runtime): NetworkPolicy
    requires PolicyEnabled(runtime.spec)
  {
    NetworkPolicy(SelectorLabels(runtime.key.name), runtime.spec.networkPolicy.value.ingress, RUNTIME_HTTP_PORT)
  }

  function AutoscalerBody(runtime: Runtime): Autoscaler {
    Autoscaler(runtime.key.name, AutoscalingMin(runtime.spec), AutoscalingMax(runtime.spec), AutoscalingTarget(runtime.spec))
  }

  /******* reconcileCoreResources *******/

  /** One reconcileX step; None is the ownership error. Disabled NetworkPolicies and autoscalers
      are deleted whoever controls them. */
  function Apply(kind: Kind, m: Managed, runtime: Runtime): Option<Managed> {
    match kind
    case ConfigMaps =>
      var r := CreateOrUpdate(m.configMap, runtime, (_: Option<map<string, string>>) => ConfigData(runtime.spec));
      if r.None? then None else Some(m.(configMap := r))
    case ServiceAccounts =>
      var r := CreateOrUpdate(m.serviceAccount, runtime, (_: Option<ServiceAccount>) => AccountBody(runtime));
      if r.None? then None else Some(m.(serviceAccount := r))
    case Services =>
      var r := CreateOrUpdate(m.service, runtime, (s: Option<Service>) => ServiceBody(runtime, s));
      if r.None? then None else Some(m.(service := r))
    case Deployments =>
      var r := CreateOrUpdate(m.deployment, runtime, (d: Option<Deployment>) => DeploymentBody(runtime, d));
      if r.None? then None else Some(m.(deployment := r))
    case Budgets =>
      var r := CreateOrUpdate(m.budget, runtime, (_: Option<DisruptionBudget>) => BudgetBody(runtime));
      if r.None? then None else Some(m.(budget := r))
    case Policies =>
      if !PolicyEnabled(runtime.spec) then Some(m.(policy := None))
      else
        var r := CreateOrUpdate(m.policy, runtime, (_: Option<NetworkPolicy>) => PolicyBody(runtime));
        if r.None? then None else Some(m.(policy := r))
    case Autoscalers =>
      if !AutoscalingEnabled(runtime.spec) then Some(m.(autoscaler := None))
      else
        var r := CreateOrUpdate(m.autoscaler, runtime, (_: Option<Autoscaler>) => AutoscalerBody(runtime));
        if r.None? then None else Some(m.(autoscaler := r))
  }

  const ALREADY_OWNED := "already owned by another controller"

  datatype CoreError = CoreError(kind: Kind, cause: string)
  datatype CoreResult = CoreResult(managed: Managed, error: Option<CoreError>)

  /** One reconcileX step; `errors` are the API calls that fail. */
  function StepResult(kind: Kind, m: Managed, runtime: Runtime, errors: map<Kind, string>): CoreResult {
    if kind in errors then CoreResult(m, Some(CoreError(kind, errors[kind])))
    else
      var next := Apply(kind, m, runtime);
      if next.None? then CoreResult(m, Some(CoreError(kind, ALREADY_OWNED))) else CoreResult(next.value, None)
  }

  /** Steps in order, stopping at the first error. */
  function ReconcileKinds(kinds: seq<Kind>, m: Managed, runtime: Runtime, errors: map<Kind, string>): CoreResult {
    if kinds == [] then CoreResult(m, None)
    else
      var first := StepResult(kinds[0], m, runtime, errors);
      if first.error.Some? then first else ReconcileKinds(kinds[1..], first.managed, runtime, errors)
  }

  function ReconcileCore(m: Managed, runtime: Runtime, errors: map<Kind, string>): CoreResult {
    ReconcileKinds(ORDER, m, runtime, errors)
  }

  /******* Drift correction *******/

  /** The spec asks for no object of this kind. */
  predicate Disabled(kind: Kind, spec: Spec) {
    (kind.Policies? && !PolicyEnabled(spec)) || (kind.Autoscalers? && !AutoscalingEnabled(spec))
  }

  /** Another owner controls the object of this kind. */
  predicate ForeignAt(kind: Kind, m: Managed, runtime: Runtime) {
    match kind
    case ConfigMaps => Foreign(m.configMap, OwnerOf(runtime))
    case ServiceAccounts => Foreign(m.serviceAccount, OwnerOf(runtime))
    case Services => Foreign(m.service, OwnerOf(runtime))
    case Deployments => Foreign(m.deployment, OwnerOf(runtime))
    case Budgets => Foreign(m.budget, OwnerOf(runtime))
    case Policies => Foreign(m.policy, OwnerOf(runtime))
    case Autoscalers => Foreign(m.autoscaler, OwnerOf(runtime))
  }

  /** Another owner controls an object this runtime needs. */
  predicate Conflict(kind: Kind, m: Managed, runtime: Runtime) {
    !Disabled(kind, runtime.spec) && ForeignAt(kind, m, runtime)
  }

  /** The object exists, with the operator's labels and this runtime as controller. */
  predicate Kept<T>(r: Option<Resource<T>>, runtime: Runtime) {
    r.Some? && r.value.labels == RuntimeLabels(runtime.key.name) && r.value.controller == Some(OwnerOf(runtime))
  }

  /** Every managed field of this kind has its desired value. */
  predicate Conforms(kind: Kind, m: Managed, runtime: Runtime) {
    match kind
    case ConfigMaps => Kept(m.configMap, runtime) && m.configMap.value.body == ConfigData(runtime.spec)
    case ServiceAccounts => Kept(m.serviceAccount, runtime) && m.serviceAccount.value.body == AccountBody(runtime)
    case Services =>
      && Kept(m.service, runtime)
      && m.service.value.body.kind == ServiceKind(runtime.spec)
      && m.service.value.body.selector == SelectorLabels(runtime.key.name)
      && m.service.value.body.ports == [ServicePort(runtime.spec)]
    case Deployments =>
      && Kept(m.deployment, runtime)
      && var spec := m.deployment.value.body.spec;
      && spec.selector == spec.spreadSelector == SelectorLabels(runtime.key.name)
      && spec.template == DesiredTemplate(runtime.key.name, runtime.spec)
      && spec.replicas.Some?
      && (!AutoscalingEnabled(runtime.spec) ==> spec.replicas.value == DesiredReplicas(runtime.spec))
    case Budgets => Kept(m.budget, runtime) && m.budget.value.body == BudgetBody(runtime)
    case Policies =>
      if PolicyEnabled(runtime.spec) then Kept(m.policy, runtime) && m.policy.value.body == PolicyBody(runtime)
      else m.policy.None?
    case Autoscalers =>
      if AutoscalingEnabled(runtime.spec) then Kept(m.autoscaler, runtime) && m.autoscaler.value.body == AutoscalerBody(runtime)
      else m.autoscaler.None?
  }

  /** The two stores agree on the objects of this kind. */
  predicate Agree(kind: Kind, a: Managed, b: Managed) {
    match kind
    case ConfigMaps => a.configMap == b.configMap
    case ServiceAccounts => a.serviceAccount == b.serviceAccount
    case Services => a.service == b.service
    case Deployments => a.deployment == b.deployment
    case Budgets => a.budget == b.budget
    case Policies => a.policy == b.policy
    case Autoscalers => a.autoscaler == b.autoscaler
  }

  predicate KeepsRest<T>(before: Option<Resource<T>>, after: Option<Resource<T>>) {
    before.Some? ==> after.Some? && after.value.rest == before.value.rest
  }

  /** What the operator must not touch: an existing object's other metadata, the Service fields the
      API server assigns, the Deployment's status, and the autoscaler's replica count. Only the
      objects the spec disables may go away. */
  predicate KeepsUnmanaged(before: Managed, after: Managed, runtime: Runtime) {
    && KeepsRest(before.configMap, after.configMap)
    && KeepsRest(before.serviceAccount, after.serviceAccount)
    && KeepsRest(before.service, after.service)
    && (before.service.Some? ==> after.service.value.body.clusterIP == before.service.value.body.clusterIP)
    && KeepsRest(before.deployment, after.deployment)
    && (before.deployment.Some? ==>
        && after.deployment.value.body.status == before.deployment.value.body.status
        && (AutoscalingEnabled(runtime.spec) && before.deployment.value.body.spec.replicas.Some? ==>
            after.deployment.value.body.spec.replicas == before.deployment.value.body.spec.replicas))
    && KeepsRest(before.budget, after.budget)
    && (PolicyEnabled(runtime.spec) ==> KeepsRest(before.policy, after.policy))
    && (AutoscalingEnabled(runtime.spec) ==> KeepsRest(before.autoscaler, after.autoscaler))
  }

  lemma ApplyFailsIff(kind: Kind, m: Managed, runtime: Runtime)
    ensures Apply(kind, m, runtime).None? <==> Conflict(kind, m, runtime)
  {
  }

  lemma ApplyConforms(kind: Kind, m: Managed, runtime: Runtime)
    requires Apply(kind, m, runtime).Some?
    ensures Conforms(kind, Apply(kind, m, runtime).value, runtime)
  {
    hide ConfigData, RuntimeLabels, SelectorLabels, DesiredTemplate, ServiceKind, ServicePort;
  }

  lemma ApplyFrame(kind: Kind, m: Managed, runtime: Runtime)
    requires Apply(kind, m, runtime).Some?
    ensures forall other :: other != kind ==> Agree(other, m, Apply(kind, m, runtime).value)
  {
    hide CreateOrUpdate, ConfigData, RuntimeLabels, SelectorLabels, DesiredTemplate, ServiceKind, ServicePort;
  }

  lemma ApplyKeepsUnmanaged(kind: Kind, m: Managed, runtime: Runtime)
    requires Apply(kind, m, runtime).Some?
    ensures KeepsUnmanaged(m, Apply(kind, m, runtime).value, runtime)
  {
    hide ConfigData, RuntimeLabels, SelectorLabels, DesiredTemplate, ServiceKind, ServicePort;
  }

  /** One reconcileX step fails exactly on foreign ownership; otherwise its kind conforms,
      unmanaged fields survive and no other kind is touched. */
  lemma ApplyStep(kind: Kind, m: Managed, runtime: Runtime)
    ensures Apply(kind, m, runtime).None? <==> Conflict(kind, m, runtime)
    ensures Apply(kind, m, runtime).Some? ==>
              var after := Apply(kind, m, runtime).value;
              && Conforms(kind, after, runtime)
              && KeepsUnmanaged(m, after, runtime)
              && forall other :: other != kind ==> Agree(other, m, after)
  {
    hide Apply, Conflict, Conforms, KeepsUnmanaged, Agree;
    ApplyFailsIff(kind, m, runtime);
    if Apply(kind, m, runtime).Some? {
      ApplyConforms(kind, m, runtime);
      ApplyFrame(kind, m, runtime);
      ApplyKeepsUnmanaged(kind, m, runtime);
    }
  }

  lemma ConformingIsStable(kind: Kind, m: Managed, runtime: Runtime)
    requires Conforms(kind, m, runtime)
    ensures Apply(kind, m, runtime) == Some(m)
  {
    hide ConfigData, RuntimeLabels, SelectorLabels, DesiredTemplate, ServiceKind, ServicePort;
  }

  lemma AgreeTransfers(kind: Kind, a: Managed, b: Managed, runtime: Runtime)
    requires Agree(kind, a, b)
    ensures Conforms(kind, a, runtime) == Conforms(kind, b, runtime)
    ensures Conflict(kind, a, runtime) == Conflict(kind, b, runtime)
    ensures ForeignAt(kind, a, runtime) == ForeignAt(kind, b, runtime)
  {
    hide ConfigData, RuntimeLabels, SelectorLabels, DesiredTemplate, ServiceKind, ServicePort;
  }

  ghost predicate NoRepeats(kinds: seq<Kind>) {
    forall i, j :: 0 <= i < j < |kinds| ==> kinds[i] != kinds[j]
  }

  lemma KeepsUnmanagedOrder(a: Managed, b: Managed, c: Managed, runtime: Runtime)
    ensures KeepsUnmanaged(a, a, runtime)
    ensures KeepsUnmanaged(a, b, runtime) && KeepsUnmanaged(b, c, runtime) ==> KeepsUnmanaged(a, c, runtime)
  {
  }

  lemma AgreeOrder(kind: Kind, a: Managed, b: Managed, c: Managed)
    ensures Agree(kind, a, a)
    ensures Agree(kind, a, b) && Agree(kind, b, c) ==> Agree(kind, a, c)
  {
  }

  /** Kinds outside the list are untouched, and nothing unmanaged is. */
  lemma {:induction false} ReconcileFrame(kinds: seq<Kind>, m: Managed, runtime: Runtime, errors: map<Kind, string>)
    ensures var after := ReconcileKinds(kinds, m, runtime, errors).managed;
            && KeepsUnmanaged(m, after, runtime)
            && forall other :: other !in kinds ==> Agree(other, m, after)
  {
    hide Conforms, Conflict, Apply, KeepsUnmanaged, Agree;
    var after := ReconcileKinds(kinds, m, runtime, errors).managed;
    KeepsUnmanagedOrder(m, m, m, runtime);
    forall other ensures Agree(other, m, m) { AgreeOrder(other, m, m, m); }
    if kinds != [] && kinds[0] !in errors && Apply(kinds[0], m, runtime).Some? {
      var next := Apply(kinds[0], m, runtime).value;
      ApplyStep(kinds[0], m, runtime);
      ReconcileFrame(kinds[1..], next, runtime, errors);
      KeepsUnmanagedOrder(m, next, after, runtime);
      forall other | other !in kinds ensures Agree(other, m, after) { AgreeOrder(other, m, next, after); }
    }
  }

  /** An error-free pass leaves every managed field of every kind at its desired value. */
  lemma {:induction false} ReconcileConforms(kinds: seq<Kind>, m: Managed, runtime: Runtime, errors: map<Kind, string>)
    requires NoRepeats(kinds) && ReconcileKinds(kinds, m, runtime, errors).error.None?
    ensures forall kind :: kind in kinds ==> Conforms(kind, ReconcileKinds(kinds, m, runtime, errors).managed, runtime)
  {
    if kinds == [] {
    } else {
      hide Conforms, Conflict, Apply, KeepsUnmanaged;
      var rest, next := kinds[1..], Apply(kinds[0], m, runtime).value;
      ApplyStep(kinds[0], m, runtime);
      ReconcileConforms(rest, next, runtime, errors);
      ReconcileFrame(rest, next, runtime, errors);
      var after := ReconcileKinds(kinds, m, runtime, errors).managed;
      assert kinds[0] !in rest;
      assert Agree(kinds[0], next, after);
      hide Agree;
      AgreeTransfers(kinds[0], next, after, runtime);
      assert forall kind :: kind in kinds ==> kind == kinds[0] || kind in rest;
    }
  }

  /** The pass cannot complete the step of this kind. */
  predicate Stops(kind: Kind, m: Managed, runtime: Runtime, errors: map<Kind, string>) {
    kind in errors || Conflict(kind, m, runtime)
  }

  /** The pass stopped at step `i`: what comes before conforms, the rest is untouched. */
  ghost predicate StoppedAt(kinds: seq<Kind>, before: Managed, after: Managed, runtime: Runtime, i: nat) {
    && i < |kinds|
    && (forall j :: 0 <= j < i ==> Conforms(kinds[j], after, runtime))
    && (forall j :: i <= j < |kinds| ==> Agree(kinds[j], before, after))
  }

  /** A failing pass stops at the first step that an API error or another owner stops, and reports
      that step and that cause. */
  lemma {:induction false} ReconcileStops(kinds: seq<Kind>, m: Managed, runtime: Runtime, errors: map<Kind, string>) returns (i: nat)
    requires NoRepeats(kinds) && ReconcileKinds(kinds, m, runtime, errors).error.Some?
    ensures StoppedAt(kinds, m, ReconcileKinds(kinds, m, runtime, errors).managed, runtime, i)
    ensures Stops(kinds[i], m, runtime, errors) && forall j :: 0 <= j < i ==> !Stops(kinds[j], m, runtime, errors)
    ensures ReconcileKinds(kinds, m, runtime, errors).error.value ==
            CoreError(kinds[i], if kinds[i] in errors then errors[kinds[i]] else ALREADY_OWNED)
  {
    hide Conforms, Conflict, Apply, KeepsUnmanaged, Agree;
    var after := ReconcileKinds(kinds, m, runtime, errors).managed;
    ApplyStep(kinds[0], m, runtime);
    if Stops(kinds[0], m, runtime, errors) {
      i := 0;
      forall j | 0 <= j < |kinds| ensures Agree(kinds[j], m, after) { AgreeOrder(kinds[j], m, m, m); }
    } else {
      var next, rest := Apply(kinds[0], m, runtime).value, kinds[1..];
      var n := ReconcileStops(rest, next, runtime, errors);
      i := n + 1;
      ReconcileFrame(rest, next, runtime, errors);
      AgreeTransfers(kinds[0], next, after, runtime);
      SameStops(kinds, m, next, runtime, errors);
      forall j | 0 < j < i ensures Conforms(kinds[j], after, runtime) { assert kinds[j] == rest[j - 1]; }
      forall j | i <= j < |kinds| ensures Agree(kinds[j], m, after) {
        assert kinds[j] == rest[j - 1] && kinds[j] != kinds[0];
        AgreeOrder(kinds[j], m, next, after);
      }
    }
  }

  /** What the first step did does not change what stops the others. */
  lemma SameStops(kinds: seq<Kind>, m: Managed, next: Managed, runtime: Runtime, errors: map<Kind, string>)
    requires NoRepeats(kinds) && kinds != [] && forall other :: other != kinds[0] ==> Agree(other, m, next)
    ensures forall i :: 0 < i < |kinds| ==>
              kinds[1..][i - 1] == kinds[i] && Stops(kinds[i], m, runtime, errors) == Stops(kinds[i], next, runtime, errors)
  {
    hide Conflict, Agree;
    forall i | 0 < i < |kinds|
      ensures kinds[1..][i - 1] == kinds[i] && Stops(kinds[i], m, runtime, errors) == Stops(kinds[i], next, runtime, errors)
    {
      assert kinds[i] != kinds[0];
      AgreeTransfers(kinds[i], m, next, runtime);
    }
  }

  /** A pass fails exactly when an API error or another owner stops one of its steps. */
  lemma {:induction false} ReconcileFailsIff(kinds: seq<Kind>, m: Managed, runtime: Runtime, errors: map<Kind, string>)
    requires NoRepeats(kinds)
    ensures ReconcileKinds(kinds, m, runtime, errors).error.Some? <==>
            exists i :: 0 <= i < |kinds| && Stops(kinds[i], m, runtime, errors)
  {
    hide Conforms, Apply, KeepsUnmanaged, Conflict, Agree;
    if kinds == [] {
    } else {
      ApplyStep(kinds[0], m, runtime);
      if !Stops(kinds[0], m, runtime, errors) {
        var rest, next := kinds[1..], Apply(kinds[0], m, runtime).value;
        ReconcileFailsIff(rest, next, runtime, errors);
        SameStops(kinds, m, next, runtime, errors);
        hide Stops;
        if i :| 0 <= i < |kinds| && Stops(kinds[i], m, runtime, errors) {
          assert Stops(rest[i - 1], next, runtime, errors);
        }
        if j :| 0 <= j < |rest| && Stops(rest[j], next, runtime, errors) {
          assert rest[j] == kinds[j + 1];
        }
      }
    }
  }

  /** A second pass changes nothing, whether the first succeeded or stopped at an error: the store
      is a fixpoint and the error the same. */
  lemma {:induction false} ReconcileIdempotent(kinds: seq<Kind>, m: Managed, runtime: Runtime, errors: map<Kind, string>)
    requires NoRepeats(kinds)
    ensures var once := ReconcileKinds(kinds, m, runtime, errors);
            ReconcileKinds(kinds, once.managed, runtime, errors) == once
  {
    if kinds != [] && kinds[0] !in errors {
      hide Conforms, Conflict, Apply, KeepsUnmanaged;
      var rest, next := kinds[1..], Apply(kinds[0], m, runtime);
      ApplyStep(kinds[0], m, runtime);
      if next.Some? {
        var after := ReconcileKinds(rest, next.value, runtime, errors).managed;
        ReconcileIdempotent(rest, next.value, runtime, errors);
        ReconcileFrame(rest, next.value, runtime, errors);
        assert kinds[0] !in rest;
        AgreeTransfers(kinds[0], next.value, after, runtime);
        ConformingIsStable(kinds[0], after, runtime);
      }
    }
  }

  /******* Consequences *******/

  lemma OrderHasNoRepeats()
    ensures NoRepeats(ORDER)
    ensures forall kind: Kind :: kind in ORDER
  {
    forall kind: Kind ensures kind in ORDER {
      match kind
      case ConfigMaps => assert ORDER[0] == kind;
      case ServiceAccounts => assert ORDER[1] == kind;
      case Services => assert ORDER[2] == kind;
      case Deployments => assert ORDER[3] == kind;
      case Budgets => assert ORDER[4] == kind;
      case Policies => assert ORDER[5] == kind;
      case Autoscalers => assert ORDER[6] == kind;
    }
  }

  /** Drift correction: from any store, a pass without API errors fails exactly on foreign
      ownership; otherwise everything conforms, unmanaged fields survive and a second pass is a
      no-op. */
  lemma DriftCorrection(m: Managed, runtime: Runtime)
    ensures var result := ReconcileCore(m, runtime, map[]);
            && (result.error.Some? <==> exists kind :: Conflict(kind, m, runtime))
            && (result.error.None? ==> forall kind :: Conforms(kind, result.managed, runtime))
            && KeepsUnmanaged(m, result.managed, runtime)
            && ReconcileCore(result.managed, runtime, map[]) == result
  {
    OrderHasNoRepeats();
    hide Conforms, Conflict, KeepsUnmanaged, ReconcileKinds;
    ReconcileFailsIff(ORDER, m, runtime, map[]);
    if kind :| Conflict(kind, m, runtime) {
      assert kind in ORDER;
      var i :| 0 <= i < |ORDER| && ORDER[i] == kind;
      assert Stops(ORDER[i], m, runtime, map[]);
    }
    ReconcileFrame(ORDER, m, runtime, map[]);
    ReconcileIdempotent(ORDER, m, runtime, map[]);
    if ReconcileCore(m, runtime, map[]).error.None? {
      ReconcileConforms(ORDER, m, runtime, map[]);
    }
  }

  /** After a successful pass, in either scaling mode, the runtime is measured against the
      Deployment's own replica count. */
  lemma ScaleAgreesAfterReconcile(m: Managed, runtime: Runtime, errors: map<Kind, string>)
    requires ReconcileCore(m, runtime, errors).error.None?
    ensures var deployment := ReconcileCore(m, runtime, errors).managed.deployment;
            && deployment.Some?
            && deployment.value.body.spec.replicas == Some(DesiredReplicaCount(runtime.spec, Some(deployment.value.body)))
  {
    OrderHasNoRepeats();
    ReconcileConforms(ORDER, m, runtime, errors);
    hide ReconcileKinds;
    assert Conforms(Deployments, ReconcileCore(m, runtime, errors).managed, runtime);
  }

  /******* Disabled objects of other owners *******/

  /** One step leaves another owner's object alone exactly when its API call fails or the spec
      wants such an object; otherwise it deletes it. */
  lemma ForeignSurvivesStepIff(kind: Kind, m: Managed, runtime: Runtime, errors: map<Kind, string>)
    requires ForeignAt(kind, m, runtime)
    ensures Agree(kind, m, StepResult(kind, m, runtime, errors).managed) <==> kind in errors || !Disabled(kind, runtime.spec)
  {
  }

  /** A whole pass leaves another owner's object alone exactly when it stops at that object's step
      or earlier; a disabled kind does not stop it, so the object is then deleted. */
  lemma {:induction false} ForeignSurvivesIff(kinds: seq<Kind>, m: Managed, runtime: Runtime, errors: map<Kind, string>, n: nat)
    requires NoRepeats(kinds) && n < |kinds| && ForeignAt(kinds[n], m, runtime)
    ensures Agree(kinds[n], m, ReconcileKinds(kinds, m, runtime, errors).managed) <==>
            exists i :: 0 <= i <= n && Stops(kinds[i], m, runtime, errors)
  {
    var after := ReconcileKinds(kinds, m, runtime, errors).managed;
    hide Apply, Conflict, Conforms, KeepsUnmanaged, Agree, ForeignAt;
    ApplyStep(kinds[0], m, runtime);
    if Stops(kinds[0], m, runtime, errors) {
      assert after == m;
      AgreeOrder(kinds[n], m, m, m);
    } else {
      var next, rest := Apply(kinds[0], m, runtime).value, kinds[1..];
      ReconcileFrame(rest, next, runtime, errors);
      if n == 0 {
        DisabledIsDeleted(kinds[0], m, runtime, after);
      } else {
        assert rest[n - 1] == kinds[n];
        forall i | 0 < i <= n ensures Stops(kinds[i], m, runtime, errors) == Stops(rest[i - 1], next, runtime, errors) {
          AgreeTransfers(kinds[i], m, next, runtime);
        }
        AgreeTransfers(kinds[n], m, next, runtime);
        ForeignSurvivesIff(rest, next, runtime, errors, n - 1);
        AgreeBoth(kinds[n], m, next, after);
        if i :| 0 <= i <= n && Stops(kinds[i], m, runtime, errors) {
          assert Stops(rest[i - 1], next, runtime, errors);
        }
        if j :| 0 <= j <= n - 1 && Stops(rest[j], next, runtime, errors) {
          assert Stops(kinds[j + 1], m, runtime, errors);
        }
      }
    }
  }

  lemma DisabledIsDeleted(kind: Kind, m: Managed, runtime: Runtime, after: Managed)
    requires ForeignAt(kind, m, runtime) && Apply(kind, m, runtime).Some?
    requires Agree(kind, Apply(kind, m, runtime).value, after)
    ensures !Agree(kind, m, after)
  {
  }

  lemma AgreeBoth(kind: Kind, a: Managed, b: Managed, c: Managed)
    requires Agree(kind, a, b)
    ensures Agree(kind, a, c) <==> Agree(kind, b, c)
  {
  }

  /** Such deletions happen: an egress gateway's NetworkPolicy that happens to carry the runtime's
      name goes away with the first pass of a runtime without one. */
  lemma ForeignPolicyDeleted(runtime: Runtime)
    requires !PolicyEnabled(runtime.spec)
    ensures var m := NO_RESOURCES.(policy := Some(Resource(map[], Some(Owner("Gateway", "egress", "1")), "", NetworkPolicy(map[], [], 443))));
            && ForeignAt(Policies, m, runtime)
            && ReconcileCore(m, runtime, map[]).error.None?
            && ReconcileCore(m, runtime, map[]).managed.policy.None?
  {
    var m := NO_RESOURCES.(policy := Some(Resource(map[], Some(Owner("Gateway", "egress", "1")), "", NetworkPolicy(map[], [], 443))));
    DriftCorrection(m, runtime);
    assert forall kind :: !Conflict(kind, m, runtime);
    assert Conforms(Policies, ReconcileCore(m, runtime, map[]).managed, runtime);
  }

  /** A Deployment created for an autoscaled runtime starts at the autoscaler's minimum, which like
      its maximum and target falls back to a default only when left out. */
  lemma AutoscalerStartsAtMinimum(runtime: Runtime)
    requires AutoscalingEnabled(runtime.spec)
    ensures var body, wish := AutoscalerBody(runtime), runtime.spec.autoscaling.value;
            && body.target == runtime.key.name
            && DesiredReplicaCount(runtime.spec, None) == body.minReplicas
            && DesiredDeploymentSpec(runtime.key.name, runtime.spec).replicas == Some(body.minReplicas)
            && (wish.minReplicas != 0 ==> body.minReplicas == wish.minReplicas)
            && (wish.maxReplicas != 0 ==> body.maxReplicas == wish.maxReplicas)
            && (wish.targetCpu != 0 ==> body.targetCpu == wish.targetCpu)
            && (wish.minReplicas == wish.maxReplicas == wish.targetCpu == 0 ==> body.minReplicas == 1 && body.maxReplicas == 10 && body.targetCpu == 80)
  {
    hide DesiredTemplate, SelectorLabels;
  }

  /** The selectors in the managed objects: of the Service, the Deployment, its topology spread, the
      disruption budget and the NetworkPolicy. */
  ghost predicate Selects(m: Managed, selector: Labels) {
    || (m.service.Some? && selector == m.service.value.body.selector)
    || (m.deployment.Some? && selector in {m.deployment.value.body.spec.selector, m.deployment.value.body.spec.spreadSelector})
    || (m.budget.Some? && selector == m.budget.value.body.selector)
    || (m.policy.Some? && selector == m.policy.value.body.selector)
  }

  /** In conforming objects every selector matches exactly the Pod templates of this runtime, its
      own among them, whatever labels users add there and elsewhere. */
  lemma SelectorsIsolate(m: Managed, runtime: Runtime, selector: Labels, name: string, spec: Spec)
    requires (forall kind :: Conforms(kind, m, runtime)) && Selects(m, selector)
    ensures Matches(selector, DesiredTemplate(name, spec).labels) <==> name == runtime.key.name
    ensures m.deployment.Some? && Matches(selector, m.deployment.value.body.spec.template.labels)
  {
    hide ConfigData, RuntimeLabels, SelectorLabels, PodLabels, PodAnnotations, ServiceKind, ServicePort, Matches;
    assert Conforms(Services, m, runtime) && Conforms(Deployments, m, runtime) && Conforms(Budgets, m, runtime) && Conforms(Policies, m, runtime);
    SelectorIsolation(runtime.key.name, name, spec);
    SelectorIsolation(runtime.key.name, runtime.key.name, runtime.spec);
  }

  /** Conforming objects fit together: the policy admits the port the configuration tells the
      runtime to listen on, the autoscaler scales the Deployment of this name, the Pods get longer
      to stop than the configuration gives the runtime to drain, and the account pulls images with
      the same Secrets as the Pods. */
  lemma ObjectsFitTogether(m: Managed, runtime: Runtime)
    requires forall kind :: Conforms(kind, m, runtime)
    ensures m.configMap.Some? && m.serviceAccount.Some? && m.deployment.Some?
    ensures var data, pod := m.configMap.value.body, m.deployment.value.body.spec.template.pod;
            && (m.policy.Some? ==> ENV_PORT in data && IsDecimal(data[ENV_PORT]) && Atoi(data[ENV_PORT]) == m.policy.value.body.port)
            && (m.autoscaler.Some? ==> m.autoscaler.value.body.target == runtime.key.name)
            && (ENV_SHUTDOWN_SECONDS in data ==> IsDecimal(data[ENV_SHUTDOWN_SECONDS]) && Atoi(data[ENV_SHUTDOWN_SECONDS]) < pod.graceSeconds)
            && m.serviceAccount.value.body.pullSecrets == pod.pullSecrets
            && pod.serviceAccount == runtime.key.name
  {
    hide ConfigData, RuntimeLabels, SelectorLabels, PodLabels, PodAnnotations, ServiceKind, ServicePort, Atoi, IsDecimal;
    assert Conforms(ConfigMaps, m, runtime) && Conforms(ServiceAccounts, m, runtime) && Conforms(Deployments, m, runtime)
        && Conforms(Policies, m, runtime) && Conforms(Autoscalers, m, runtime);
    ConfigDataReadsBack(runtime.spec);
  }

  /** A pass that creates or changes the Deployment's spec never observes a completed rollout in
      the same reconcile: the new generation has not been observed yet. */
  lemma ChangedDeploymentIsNotComplete(m: Managed, runtime: Runtime)
    requires Apply(Deployments, m, runtime).Some?
    requires m.deployment.Some? ==> m.deployment.value.body.status.observedGeneration <= m.deployment.value.body.generation
    requires m.deployment.None? || Apply(Deployments, m, runtime).value.deployment.value.body.spec != m.deployment.value.body.spec
    ensures ObserveRollout(runtime.spec, Some(Apply(Deployments, m, runtime).value.deployment.value.body)) != RolloutComplete
  {
    RolloutCompleteIff(runtime.spec, Some(Apply(Deployments, m, runtime).value.deployment.value.body));
    hide DesiredDeploymentSpec;
  }

  /******* Watches on owned objects *******/

  /** The watches on owned objects wake the TrussiumRuntime that controls a changed object. */
  function Woken<T(==)>(before: Option<Resource<T>>, after: Option<Resource<T>>, namespace: string): set<Key> {
    if before == after then {} else ControllerKey(before, namespace) + ControllerKey(after, namespace)
  }

  function ControllerKey<T>(r: Option<Resource<T>>, namespace: string): set<Key> {
    if r.Some? && r.value.controller.Some? && r.value.controller.value.kind == "TrussiumRuntime"
    then {Key(namespace, r.value.controller.value.name)}
    else {}
  }

  function WokenBy(before: Managed, after: Managed, namespace: string): set<Key> {
    Woken(before.configMap, after.configMap, namespace)
    + Woken(before.serviceAccount, after.serviceAccount, namespace)
    + Woken(before.service, after.service, namespace)
    + Woken(before.deployment, after.deployment, namespace)
    + Woken(before.budget, after.budget, namespace)
    + Woken(before.policy, after.policy, namespace)
    + Woken(before.autoscaler, after.autoscaler, namespace)
  }

  /** The object of this kind exists and this runtime's name is its controller. */
  predicate ControlledAt(kind: Kind, m: Managed, key: Key) {
    match kind
    case ConfigMaps => key in ControllerKey(m.configMap, key.namespace)
    case ServiceAccounts => key in ControllerKey(m.serviceAccount, key.namespace)
    case Services => key in ControllerKey(m.service, key.namespace)
    case Deployments => key in ControllerKey(m.deployment, key.namespace)
    case Budgets => key in ControllerKey(m.budget, key.namespace)
    case Policies => key in ControllerKey(m.policy, key.namespace)
    case Autoscalers => key in ControllerKey(m.autoscaler, key.namespace)
  }

  /** The object of this kind changes, under this runtime's control before or after the change. */
  predicate ConcernsAt(kind: Kind, before: Managed, after: Managed, key: Key) {
    !Agree(kind, before, after) && (ControlledAt(kind, before, key) || ControlledAt(kind, after, key))
  }

  /** The watches wake a runtime exactly when a change concerns it. */
  lemma WokenIff(before: Managed, after: Managed, key: Key)
    ensures key in WokenBy(before, after, key.namespace) <==> exists kind :: ConcernsAt(kind, before, after, key)
  {
    hide ControllerKey;
    assert key in WokenBy(before, after, key.namespace) <==>
      || ConcernsAt(ConfigMaps, before, after, key) || ConcernsAt(ServiceAccounts, before, after, key)
      || ConcernsAt(Services, before, after, key) || ConcernsAt(Deployments, before, after, key)
      || ConcernsAt(Budgets, before, after, key) || ConcernsAt(Policies, before, after, key)
      || ConcernsAt(Autoscalers, before, after, key);
  }

  lemma ConformingIsControlled(kind: Kind, m: Managed, runtime: Runtime)
    requires Conforms(kind, m, runtime) && !Disabled(kind, runtime.spec)
    ensures ControlledAt(kind, m, runtime.key)
  {
    hide ConfigData, RuntimeLabels, SelectorLabels, DesiredTemplate, ServiceKind, ServicePort;
  }
}
