/** The TrussiumRuntime resource, its conditions, and the parts of Deployments and Services the
    controller reads. */
module RuntimeApi {
  import opened Wrappers

  type Labels = map<string, string>

  datatype Key = Key(namespace: string, name: string)

  /******* Spec *******/

  datatype ImageSpec = ImageSpec(repository: string, tag: Option<string>, digest: Option<string>, pullPolicy: string)

  datatype SecretKeyReference = SecretKeyReference(name: string, key: string)

  datatype Provider = Provider(kind: string, baseUrl: Option<string>, credentials: Option<SecretKeyReference>)

  datatype Settings = Settings(requestTimeout: Option<nat>, streamIdleTimeout: Option<nat>, shutdownDrain: Option<nat>)

  datatype ServiceSettings = ServiceSettings(kind: string, port: int)

  /** Label selectors are passed through unchanged, so their text is enough. */
  datatype IngressRule = IngressRule(namespaceSelector: string, podSelector: Option<string>)

  datatype NetworkPolicySettings = NetworkPolicySettings(enabled: bool, ingress: seq<IngressRule>)

  datatype Autoscaling = Autoscaling(enabled: bool, minReplicas: int, maxReplicas: int, targetCpu: int)

  datatype PodMetadata = PodMetadata(labels: Labels, annotations: Labels)

  /** `scheduling` and `resources` are copied through unchanged, so their text is enough. */
  datatype Spec = Spec(
    image: ImageSpec,
    replicas: Option<int>,
    imagePullSecrets: seq<string>,
    provider: Provider,
    settings: Option<Settings>,
    service: ServiceSettings,
    networkPolicy: Option<NetworkPolicySettings>,
    autoscaling: Option<Autoscaling>,
    podMetadata: Option<PodMetadata>,
    scheduling: string,
    resources: string)

  /******* Status *******/

  /** Clock readings in nanoseconds. */
  type Time = int

  datatype ConditionStatus = True | False | Unknown

  datatype ConditionType = ConfigurationValid | Progressing | Available | Ready | Degraded | Upgrading
                         | OtherType(name: string)

  datatype Reason =
    | ReferencesResolved | SecretNotFound | ReferenceCheckFailed
    | DeploymentProgressing | DeploymentGenerationPending | ReconciliationComplete
    | ConfigurationInvalid | DeploymentFailed | ScaledToZero
    | RuntimeAvailable | RuntimeUnavailable | RuntimeReady | RuntimeNotReady | AsExpected
    | ProgressDeadlineExceeded | ReplicaFailure | ReconciliationFailed
    | NoUpgrade | UpgradeInProgress | UpgradeComplete | UpgradeFailed
    | OtherReason(name: string)

  /** Human-readable notes, kept as functions of the values they mention. */
  datatype Message =
    | SecretsAvailable | SecretMissing(name: string) | BlockedByReferences | NotReadyInvalid
    | BeingCreated | NotYetAvailable | NotDegraded
    | ReachedZero | NoneRequested | ConvergingToZero | NotAvailable | NotYetZero
    | DeadlineExceeded | ReplicaFailed | Reported(text: string)
    | ReachedDesired | ReplicasAvailable(count: int) | NoneAvailable | AllReady
    | ProgressingToward(desired: int) | GenerationUnobserved | ReadyOf(ready: int, desired: int)
    | ReconcileError(error: string)
    | NoImageUpgrade | ImageFailed(source: string, destination: string)
    | ImageTransitioning(source: string, destination: string)
    | ImageCompleted(source: string, destination: string)
    | ImageUpgrading(source: string, destination: string)
    | OtherMessage(text: string)

  datatype Condition = Condition(
    kind: ConditionType,
    status: ConditionStatus,
    observedGeneration: int,
    reason: Reason,
    message: Message,
    lastTransitionTime: Time)

  datatype Endpoint = NoEndpoint | Endpoint(name: string, namespace: string, port: int)

  datatype Status = Status(
    observedGeneration: int,
    readyReplicas: int,
    availableReplicas: int,
    desiredImage: string,
    currentImage: string,
    lastSuccessfulImage: string,
    endpoint: Endpoint,
    conditions: seq<Condition>)

  const EMPTY_STATUS := Status(0, 0, 0, "", "", "", NoEndpoint, [])

  datatype Runtime = Runtime(key: Key, uid: string, generation: int, deleting: bool, spec: Spec, status: Status)

  /******* Observed workload *******/

  datatype Container = Container(name: string, image: string)

  /** Everything in the Pod template besides its labels, annotations and containers that depends
      on the spec. */
  datatype PodSettings = PodSettings(
    serviceAccount: string,
    graceSeconds: int,
    pullSecrets: seq<string>,
    pullPolicy: string,
    credentials: Option<SecretKeyReference>,
    scheduling: string,
    resources: string)

  /** The checksum annotation holds the text that is hashed; SHA-256 and hex are not modelled. */
  datatype PodTemplate = PodTemplate(
    labels: Labels, annotations: Labels, containers: seq<Container>, pod: PodSettings)

  datatype DeploymentSpec = DeploymentSpec(replicas: Option<int>, selector: Labels, spreadSelector: Labels, template: PodTemplate)

  datatype DeploymentConditionType = DeploymentConditionProgressing | DeploymentConditionReplicaFailure
                                   | DeploymentConditionOther(name: string)

  datatype DeploymentCondition = DeploymentCondition(
    kind: DeploymentConditionType, status: ConditionStatus, reason: Reason, message: string)

  datatype DeploymentStatus = DeploymentStatus(
    observedGeneration: int,
    replicas: int,
    updatedReplicas: int,
    readyReplicas: int,
    availableReplicas: int,
    unavailableReplicas: int,
    conditions: seq<DeploymentCondition>)

  datatype Deployment = Deployment(generation: int, spec: DeploymentSpec, status: DeploymentStatus)

  /** `clusterIP` stands for the Service fields the API server assigns. */
  datatype Service = Service(kind: string, selector: Labels, ports: seq<int>, clusterIP: string)

  datatype Observation = Observation(deployment: Option<Deployment>, service: Option<Service>)
}
