/** Desired values derived from a TrussiumRuntime: image reference, replica counts, labels,
    selectors and configuration data. */
module RuntimeResources {
  import opened Wrappers
  import opened RuntimeApi
  import opened ConfigPayload

  const RUNTIME_CONTAINER := "trussium"
  const RUNTIME_HTTP_PORT := 9000
  const DEFAULT_REPLICAS := 1
  const DEFAULT_SERVICE_PORT := 9000
  const DEFAULT_GRACE_SECONDS := 36
  const GRACE_MARGIN_SECONDS := 6
  const CHECKSUM_ANNOTATION := "runtime.trussium.io/config-checksum"

  /******* Image reference *******/

  function RuntimeImage(image: ImageSpec): string {
    if image.digest.Some? then image.repository + "@" + image.digest.value
    else if image.tag.Some? then image.repository + ":" + image.tag.value
    else image.repository
  }

  predicate Alphanumeric(c: char) {
    'a' <= c <= 'z' || 'A' <= c <= 'Z' || '0' <= c <= '9'
  }

  /** The schema rules of RuntimeImageSpec: repository, tag and digest patterns, and exactly one of
      tag and digest. */
  predicate SchemaValidImage(image: ImageSpec) {
    && image.repository != ""
    && Alphanumeric(image.repository[0])
    && (forall i :: 0 <= i < |image.repository| ==>
      Alphanumeric(image.repository[i]) || image.repository[i] in "._:/-")
    && image.tag.Some? != image.digest.Some?
    && (image.tag.Some? ==>
      && image.tag.value != ""
      && forall i :: 0 <= i < |image.tag.value| ==> Alphanumeric(image.tag.value[i]) || image.tag.value[i] in "._-")
    && (image.digest.Some? ==>
      && |image.digest.value| == 71
      && image.digest.value[..7] == "sha256:"
      && forall i :: 7 <= i < 71 ==> '0' <= image.digest.value[i] <= '9' || 'a' <= image.digest.value[i] <= 'f')
  }

  datatype ImageReference = Tagged(repository: string, tag: string) | Pinned(repository: string, digest: string)
                          | Bare(repository: string)

  function ReferenceOf(image: ImageSpec): ImageReference {
    if image.digest.Some? then Pinned(image.repository, image.digest.value)
    else if image.tag.Some? then Tagged(image.repository, image.tag.value)
    else Bare(image.repository)
  }

  /** The part of `s` after its last occurrence of `c`, or all of `s`. */
  function LastPart(s: string, c: char): (part: string)
    ensures |part| <= |s| && c !in part
    ensures |part| < |s| ==> s == s[..|s| - |part| - 1] + [c] + part
    ensures |part| == |s| ==> part == s
  {
    if s == "" || s[|s| - 1] == c then ""
    else LastPart(s[..|s| - 1], c) + [s[|s| - 1]]
  }

  function ParseImage(s: string): ImageReference {
    var digest := LastPart(s, '@');
    if |digest| < |s| then Pinned(s[..|s| - |digest| - 1], digest)
    else
      var tag := LastPart(s, ':');
      if |tag| < |s| then Tagged(s[..|s| - |tag| - 1], tag) else Bare(s)
  }

  lemma {:induction false} LastPartAfter(head: string, c: char, tail: string)
    requires c !in tail
    ensures LastPart(head + [c] + tail, c) == tail
  {
    var s := head + [c] + tail;
    if tail == "" {
    } else {
      var last := tail[|tail| - 1];
      assert last in tail && s[|s| - 1] == last;
      assert s[..|s| - 1] == head + [c] + tail[..|tail| - 1];
      LastPartAfter(head, c, tail[..|tail| - 1]);
    }
  }

  lemma {:induction false} LastPartAbsent(s: string, c: char)
    requires c !in s
    ensures LastPart(s, c) == s
  {
    if s == "" {
    } else {
      LastPartAbsent(s[..|s| - 1], c);
    }
  }

  /** What the patterns exclude: no '@' anywhere, no ':' in a tag. */
  lemma SchemaCharacters(image: ImageSpec)
    requires SchemaValidImage(image)
    ensures '@' !in image.repository
    ensures image.tag.Some? ==> ':' !in image.tag.value && '@' !in image.tag.value
    ensures image.digest.Some? ==> '@' !in image.digest.value
  {
    if image.digest.Some? {
      var digest := image.digest.value;
      assert digest == "sha256:" + digest[7..];
      assert '@' !in digest[7..] && '@' !in "sha256:";
    }
  }

  /** The rendered image reference determines repository and tag or digest, even when the
      repository contains a port. */
  lemma ImageRoundTrip(image: ImageSpec)
    requires SchemaValidImage(image)
    ensures ParseImage(RuntimeImage(image)) == ReferenceOf(image)
    ensures RuntimeImage(image) != ""
  {
    SchemaCharacters(image);
    if image.digest.Some? {
      PinnedRoundTrip(image.repository, image.digest.value);
    } else {
      TaggedRoundTrip(image.repository, image.tag.value);
    }
  }

  lemma PinnedRoundTrip(repository: string, digest: string)
    requires '@' !in digest
    ensures ParseImage(repository + "@" + digest) == Pinned(repository, digest)
  {
    var s := repository + "@" + digest;
    LastPartAfter(repository, '@', digest);
    assert s == repository + ['@'] + digest;
    assert s[..|s| - |digest| - 1] == repository;
  }

  lemma TaggedRoundTrip(repository: string, tag: string)
    requires '@' !in repository && '@' !in tag && ':' !in tag
    ensures ParseImage(repository + ":" + tag) == Tagged(repository, tag)
  {
    var s := repository + ":" + tag;
    assert '@' !in s;
    LastPartAbsent(s, '@');
    LastPartAfter(repository, ':', tag);
    assert s == repository + [':'] + tag;
    assert s[..|s| - |tag| - 1] == repository;
  }

  /** So comparing rendered images detects exactly the changes to the image reference. */
  lemma ImageInjective(a: ImageSpec, b: ImageSpec)
    requires SchemaValidImage(a) && SchemaValidImage(b)
    ensures RuntimeImage(a) == RuntimeImage(b) <==> ReferenceOf(a) == ReferenceOf(b)
  {
    ImageRoundTrip(a);
    ImageRoundTrip(b);
  }

  /******* Replicas *******/

  function DesiredReplicas(spec: Spec): int {
    if spec.replicas.None? then DEFAULT_REPLICAS else spec.replicas.value
  }

  predicate AutoscalingEnabled(spec: Spec) {
    spec.autoscaling.Some? && spec.autoscaling.value.enabled
  }

  function AutoscalingMin(spec: Spec): int {
    if spec.autoscaling.None? || spec.autoscaling.value.minReplicas == 0 then 1 else spec.autoscaling.value.minReplicas
  }

  function AutoscalingMax(spec: Spec): int {
    if spec.autoscaling.None? || spec.autoscaling.value.maxReplicas == 0 then 10 else spec.autoscaling.value.maxReplicas
  }

  function AutoscalingTarget(spec: Spec): int {
    if spec.autoscaling.None? || spec.autoscaling.value.targetCpu == 0 then 80 else spec.autoscaling.value.targetCpu
  }

  function InitialDeploymentReplicas(spec: Spec): int {
    if AutoscalingEnabled(spec) then AutoscalingMin(spec) else DesiredReplicas(spec)
  }

  /** The scale the runtime is measured against: the autoscaler's choice when there is one. */
  function DesiredReplicaCount(spec: Spec, deployment: Option<Deployment>): int {
    if AutoscalingEnabled(spec) && deployment.Some? && deployment.value.spec.replicas.Some?
    then deployment.value.spec.replicas.value
    else InitialDeploymentReplicas(spec)
  }

  /******* Labels and selectors *******/

  function RuntimeLabels(name: string): Labels {
    map["app.kubernetes.io/name" := RUNTIME_CONTAINER,
        "app.kubernetes.io/instance" := name,
        "app.kubernetes.io/component" := "runtime",
        "app.kubernetes.io/managed-by" := "trussium-operator"]
  }

  function SelectorLabels(name: string): Labels {
    map["app.kubernetes.io/name" := RUNTIME_CONTAINER, "app.kubernetes.io/instance" := name]
  }

  /** User labels never override the operator's identity labels. */
  function PodLabels(name: string, spec: Spec): Labels {
    (if spec.podMetadata.None? then map[] else spec.podMetadata.value.labels) + RuntimeLabels(name)
  }

  /** mergedPodLabels: ranges over the user labels in any order and skips reserved keys. */
  method MergedPodLabels(name: string, spec: Spec) returns (labels: Labels)
    ensures labels == PodLabels(name, spec)
  {
    labels := RuntimeLabels(name);
    if spec.podMetadata.None? {
      return;
    }
    var user := spec.podMetadata.value.labels;
    var unseen := user.Keys;
    while unseen != {}
      invariant unseen <= user.Keys
      invariant labels == (user - unseen) + RuntimeLabels(name)
      decreases unseen
    {
      var key :| key in unseen;
      if key !in labels {
        labels := labels[key := user[key]];
      }
      unseen := unseen - {key};
    }
    assert user - {} == user;
  }

  /** Key by key: an identity label is the operator's, every other label is the user's. */
  lemma PodLabelsAt(name: string, spec: Spec, key: string)
    ensures var user := if spec.podMetadata.None? then map[] else spec.podMetadata.value.labels;
            && (key in PodLabels(name, spec) <==> key in RuntimeLabels(name) || key in user)
            && (key in RuntimeLabels(name) ==> PodLabels(name, spec)[key] == RuntimeLabels(name)[key])
            && (key in user && key !in RuntimeLabels(name) ==> PodLabels(name, spec)[key] == user[key])
  {
  }

  predicate Matches(selector: Labels, labels: Labels) {
    forall k :: k in selector ==> k in labels && labels[k] == selector[k]
  }

  /** Whatever labels users add, a runtime's selector matches a Pod template exactly when the
      template belongs to the runtime of that name. */
  lemma SelectorIsolation(owner: string, name: string, spec: Spec)
    ensures Matches(SelectorLabels(owner), PodLabels(name, spec)) <==> owner == name
  {
    var instance := "app.kubernetes.io/instance";
    var selector, labels := SelectorLabels(owner), PodLabels(name, spec);
    assert "app.kubernetes.io/name" != instance && "app.kubernetes.io/component" != instance
        && "app.kubernetes.io/managed-by" != instance by {
      assert instance[18] == 'i';
      assert "app.kubernetes.io/name"[18] == 'n';
      assert "app.kubernetes.io/component"[18] == 'c';
      assert "app.kubernetes.io/managed-by"[18] == 'm';
    }
    assert selector[instance] == owner;
    assert labels[instance] == name;
  }

  /******* Configuration *******/

  function ServiceKind(spec: Spec): string {
    if spec.service.kind == "" then "ClusterIP" else spec.service.kind
  }

  function ServicePort(spec: Spec): int {
    if spec.service.port == 0 then DEFAULT_SERVICE_PORT else spec.service.port
  }

  function GraceSeconds(spec: Spec): int {
    if spec.settings.None? || spec.settings.value.shutdownDrain.None? then DEFAULT_GRACE_SECONDS
    else spec.settings.value.shutdownDrain.value + GRACE_MARGIN_SECONDS
  }

  const ENV_ENVIRONMENT := "TRUSSIUM_ENVIRONMENT"
  const ENV_HOST := "TRUSSIUM_RUNTIME__HOST"
  const ENV_PORT := "TRUSSIUM_RUNTIME__PORT"
  const ENV_PROVIDER := "TRUSSIUM_PROVIDER__NAME"
  const ENV_BASE_URL := "TRUSSIUM_PROVIDER__BASE_URL"
  const ENV_REQUEST_SECONDS := "TRUSSIUM_TIMEOUTS__PROVIDER_REQUEST_SECONDS"
  const ENV_IDLE_SECONDS := "TRUSSIUM_TIMEOUTS__STREAM_IDLE_SECONDS"
  const ENV_SHUTDOWN_SECONDS := "TRUSSIUM_RUNTIME__GRACEFUL_SHUTDOWN_SECONDS"

  function OptionalSeconds(name: string, seconds: Option<nat>): Labels {
    if seconds.None? then map[] else map[name := Itoa(seconds.value)]
  }

  function SettingsData(settings: Settings): Labels {
    OptionalSeconds(ENV_REQUEST_SECONDS, settings.requestTimeout)
    + OptionalSeconds(ENV_IDLE_SECONDS, settings.streamIdleTimeout)
    + OptionalSeconds(ENV_SHUTDOWN_SECONDS, settings.shutdownDrain)
  }

  function ProviderData(provider: Provider): Labels {
    var data := map[ENV_ENVIRONMENT := "production",
                    ENV_HOST := "0.0.0.0",
                    ENV_PORT := Itoa(RUNTIME_HTTP_PORT),
                    ENV_PROVIDER := provider.kind];
    if provider.baseUrl.None? then data else data[ENV_BASE_URL := provider.baseUrl.value]
  }

  function ConfigData(spec: Spec): map<string, string> {
    ProviderData(spec.provider) + (if spec.settings.None? then map[] else SettingsData(spec.settings.value))
  }

  method PutSeconds(data: Labels, variable: string, seconds: Option<nat>) returns (extended: Labels)
    ensures extended == data + OptionalSeconds(variable, seconds)
  {
    hide Itoa;
    extended := data;
    if seconds.Some? {
      extended := extended[variable := Itoa(seconds.value)];
    }
  }

  lemma MergeTogether(data: Labels, a: Labels, b: Labels, c: Labels)
    ensures data + a + b + c == data + (a + b + c)
  {
  }

  /** runtimeConfigData: fills the map setting by setting. */
  method RuntimeConfigData(spec: Spec) returns (data: map<string, string>)
    ensures data == ConfigData(spec)
  {
    hide ENV_ENVIRONMENT, ENV_HOST, ENV_PORT, ENV_PROVIDER, ENV_BASE_URL, ENV_REQUEST_SECONDS, ENV_IDLE_SECONDS, ENV_SHUTDOWN_SECONDS, Itoa, OptionalSeconds;
    data := map[ENV_ENVIRONMENT := "production", ENV_HOST := "0.0.0.0", ENV_PORT := Itoa(RUNTIME_HTTP_PORT), ENV_PROVIDER := spec.provider.kind];
    if spec.provider.baseUrl.Some? {
      data := data[ENV_BASE_URL := spec.provider.baseUrl.value];
    }
    ghost var base := data;
    if spec.settings.None? {
      return;
    }
    var settings := spec.settings.value;
    data := PutSeconds(data, ENV_REQUEST_SECONDS, settings.requestTimeout);
    data := PutSeconds(data, ENV_IDLE_SECONDS, settings.streamIdleTimeout);
    data := PutSeconds(data, ENV_SHUTDOWN_SECONDS, settings.shutdownDrain);
    MergeTogether(base, OptionalSeconds(ENV_REQUEST_SECONDS, settings.requestTimeout),
                  OptionalSeconds(ENV_IDLE_SECONDS, settings.streamIdleTimeout), OptionalSeconds(ENV_SHUTDOWN_SECONDS, settings.shutdownDrain));
  }

  const PROVIDER_VARIABLES: set<string> := {ENV_ENVIRONMENT, ENV_HOST, ENV_PORT, ENV_PROVIDER, ENV_BASE_URL}
  const TIMEOUT_VARIABLES: set<string> := {ENV_REQUEST_SECONDS, ENV_IDLE_SECONDS, ENV_SHUTDOWN_SECONDS}

  lemma VariablesDiffer()
    ensures ENV_PORT != ENV_PROVIDER && ENV_PORT != ENV_BASE_URL && ENV_PROVIDER != ENV_BASE_URL
    ensures ENV_BASE_URL != ENV_ENVIRONMENT && ENV_BASE_URL != ENV_HOST
    ensures ENV_REQUEST_SECONDS != ENV_IDLE_SECONDS && ENV_REQUEST_SECONDS != ENV_SHUTDOWN_SECONDS && ENV_IDLE_SECONDS != ENV_SHUTDOWN_SECONDS
    ensures PROVIDER_VARIABLES !! TIMEOUT_VARIABLES
  {
    assert |ENV_ENVIRONMENT| == 20 && |ENV_PROVIDER| == 23 && |ENV_BASE_URL| == 27 && |ENV_HOST| == |ENV_PORT| == 22;
    assert |ENV_REQUEST_SECONDS| == |ENV_SHUTDOWN_SECONDS| == 43 && |ENV_IDLE_SECONDS| == 38;
    assert ENV_REQUEST_SECONDS[9] == 'T' && ENV_SHUTDOWN_SECONDS[9] == 'R';
  }

  /** The variable is set exactly when the timeout is, and then reads as that number. */
  predicate SetsSeconds(data: map<string, string>, variable: string, seconds: Option<nat>) {
    && (variable in data <==> seconds.Some?)
    && (seconds.Some? ==> IsDecimal(data[variable]) && Atoi(data[variable]) == seconds.value)
  }

  function Timeouts(spec: Spec): Settings {
    if spec.settings.None? then Settings(None, None, None) else spec.settings.value
  }

  /** Every setting lands under its own variable and can be read back from it. */
  lemma ConfigDataReadsBack(spec: Spec)
    ensures var data, settings := ConfigData(spec), Timeouts(spec);
            && SetsSeconds(data, ENV_REQUEST_SECONDS, settings.requestTimeout)
            && SetsSeconds(data, ENV_IDLE_SECONDS, settings.streamIdleTimeout)
            && SetsSeconds(data, ENV_SHUTDOWN_SECONDS, settings.shutdownDrain)
            && SetsSeconds(data, ENV_PORT, Some(RUNTIME_HTTP_PORT))
            && ENV_PROVIDER in data && data[ENV_PROVIDER] == spec.provider.kind
            && (ENV_BASE_URL in data <==> spec.provider.baseUrl.Some?)
            && (ENV_BASE_URL in data ==> data[ENV_BASE_URL] == spec.provider.baseUrl.value)
  {
    hide ENV_ENVIRONMENT, ENV_HOST, ENV_PORT, ENV_PROVIDER, ENV_BASE_URL, ENV_REQUEST_SECONDS, ENV_IDLE_SECONDS, ENV_SHUTDOWN_SECONDS,
      PROVIDER_VARIABLES, TIMEOUT_VARIABLES, SettingsData, ProviderData, SetsSeconds;
    VariablesAreListed();
    ProviderReadsBack(spec.provider);
    SettingsReadBack(Timeouts(spec));
    var a, b, settings := ProviderData(spec.provider), SettingsData(Timeouts(spec)), Timeouts(spec);
    ConfigDataParts(spec);
    SecondsMerge(a, b, ENV_REQUEST_SECONDS, settings.requestTimeout);
    SecondsMerge(a, b, ENV_IDLE_SECONDS, settings.streamIdleTimeout);
    SecondsMerge(a, b, ENV_SHUTDOWN_SECONDS, settings.shutdownDrain);
    SecondsMerge(a, b, ENV_PORT, Some(RUNTIME_HTTP_PORT));
  }

  lemma VariablesAreListed()
    ensures PROVIDER_VARIABLES !! TIMEOUT_VARIABLES
    ensures ENV_PORT in PROVIDER_VARIABLES && ENV_PROVIDER in PROVIDER_VARIABLES && ENV_BASE_URL in PROVIDER_VARIABLES
    ensures ENV_REQUEST_SECONDS in TIMEOUT_VARIABLES && ENV_IDLE_SECONDS in TIMEOUT_VARIABLES && ENV_SHUTDOWN_SECONDS in TIMEOUT_VARIABLES
  {
    VariablesDiffer();
    hide ENV_ENVIRONMENT, ENV_HOST, ENV_PORT, ENV_PROVIDER, ENV_BASE_URL, ENV_REQUEST_SECONDS, ENV_IDLE_SECONDS, ENV_SHUTDOWN_SECONDS;
  }

  lemma ConfigDataParts(spec: Spec)
    ensures ConfigData(spec) == ProviderData(spec.provider) + SettingsData(Timeouts(spec))
  {
    hide ENV_ENVIRONMENT, ENV_HOST, ENV_PORT, ENV_PROVIDER, ENV_BASE_URL, ENV_REQUEST_SECONDS, ENV_IDLE_SECONDS, ENV_SHUTDOWN_SECONDS, ProviderData;
  }

  /** Merging maps over different variables keeps what each sets. */
  lemma SecondsMerge(a: Labels, b: Labels, variable: string, seconds: Option<nat>)
    requires (variable !in a && SetsSeconds(b, variable, seconds)) || (variable !in b && SetsSeconds(a, variable, seconds))
    ensures SetsSeconds(a + b, variable, seconds)
  {
    hide Atoi, IsDecimal;
  }

  lemma ProviderReadsBack(provider: Provider)
    ensures var data := ProviderData(provider);
            && SetsSeconds(data, ENV_PORT, Some(RUNTIME_HTTP_PORT))
            && ENV_PROVIDER in data && data[ENV_PROVIDER] == provider.kind
            && (ENV_BASE_URL in data <==> provider.baseUrl.Some?)
            && (ENV_BASE_URL in data ==> data[ENV_BASE_URL] == provider.baseUrl.value)
            && data.Keys <= PROVIDER_VARIABLES
  {
    hide ENV_ENVIRONMENT, ENV_HOST, ENV_PORT, ENV_PROVIDER, ENV_BASE_URL, ENV_REQUEST_SECONDS, ENV_IDLE_SECONDS, ENV_SHUTDOWN_SECONDS, Itoa, Atoi, IsDecimal;
    VariablesDiffer();
    SecondsReadBack(Some(RUNTIME_HTTP_PORT));
  }

  lemma SettingsReadBack(settings: Settings)
    ensures var data := SettingsData(settings);
            && SetsSeconds(data, ENV_REQUEST_SECONDS, settings.requestTimeout)
            && SetsSeconds(data, ENV_IDLE_SECONDS, settings.streamIdleTimeout)
            && SetsSeconds(data, ENV_SHUTDOWN_SECONDS, settings.shutdownDrain)
            && data.Keys <= TIMEOUT_VARIABLES
  {
    hide ENV_ENVIRONMENT, ENV_HOST, ENV_PORT, ENV_PROVIDER, ENV_BASE_URL, ENV_REQUEST_SECONDS, ENV_IDLE_SECONDS, ENV_SHUTDOWN_SECONDS, Itoa, Atoi, IsDecimal;
    VariablesDiffer();
    SecondsReadBack(settings.requestTimeout);
    SecondsReadBack(settings.streamIdleTimeout);
    SecondsReadBack(settings.shutdownDrain);
  }

  lemma SecondsReadBack(seconds: Option<nat>)
    ensures seconds.Some? ==> IsDecimal(Itoa(seconds.value)) && Atoi(Itoa(seconds.value)) == seconds.value
  {
    if seconds.Some? { AtoiUndoesItoa(seconds.value); }
  }

  /** So the configuration data changes exactly when the provider or a timeout does. */
  lemma ConfigDataDetermines(a: Spec, b: Spec)
    ensures ConfigData(a) == ConfigData(b) <==>
            a.provider.kind == b.provider.kind && a.provider.baseUrl == b.provider.baseUrl && Timeouts(a) == Timeouts(b)
  {
    ConfigDataReadsBack(a);
    ConfigDataReadsBack(b);
    hide Itoa, Atoi, IsDecimal;
    if ConfigData(a) == ConfigData(b) {
      hide ConfigData;
      assert Timeouts(a).requestTimeout == Timeouts(b).requestTimeout;
      assert Timeouts(a).streamIdleTimeout == Timeouts(b).streamIdleTimeout;
      assert Timeouts(a).shutdownDrain == Timeouts(b).shutdownDrain;
    }
  }

  /** User annotations, with the checksum annotation always the operator's. */
  function PodAnnotations(spec: Spec): Labels {
    (if spec.podMetadata.None? then map[] else spec.podMetadata.value.annotations)
      [CHECKSUM_ANNOTATION := Payload(ConfigData(spec))]
  }

  /** Key by key: the checksum is the operator's, every other annotation is the user's. */
  lemma PodAnnotationsAt(spec: Spec, key: string)
    ensures var user := if spec.podMetadata.None? then map[] else spec.podMetadata.value.annotations;
            && (key in PodAnnotations(spec) <==> key == CHECKSUM_ANNOTATION || key in user)
            && (key in user && key != CHECKSUM_ANNOTATION ==> PodAnnotations(spec)[key] == user[key])
            && Decode(PodAnnotations(spec)[CHECKSUM_ANNOTATION]) == Some(ConfigData(spec))
  {
    hide ConfigData;
    PayloadIsCanonical(PodAnnotations(spec)[CHECKSUM_ANNOTATION], ConfigData(spec));
    hide Payload, Decode;
  }

  function DesiredTemplate(name: string, spec: Spec): PodTemplate {
    PodTemplate(
      PodLabels(name, spec),
      PodAnnotations(spec),
      [Container(RUNTIME_CONTAINER, RuntimeImage(spec.image))],
      PodSettings(name, GraceSeconds(spec), spec.imagePullSecrets, spec.image.pullPolicy,
                  spec.provider.credentials, spec.scheduling, spec.resources))
  }

  function DesiredDeploymentSpec(name: string, spec: Spec): DeploymentSpec {
    DeploymentSpec(Some(InitialDeploymentReplicas(spec)), SelectorLabels(name), SelectorLabels(name),
                   DesiredTemplate(name, spec))
  }

  /** The checksum annotation changes, and so the Deployment rolls, exactly when the provider or a
      timeout changes; no other spec edit touches it. */
  lemma ConfigChangeRollsTemplate(name: string, a: Spec, b: Spec)
    ensures DesiredTemplate(name, a).annotations[CHECKSUM_ANNOTATION] == DesiredTemplate(name, b).annotations[CHECKSUM_ANNOTATION] <==>
            a.provider.kind == b.provider.kind && a.provider.baseUrl == b.provider.baseUrl && Timeouts(a) == Timeouts(b)
  {
    hide ConfigData, Timeouts;
    ConfigDataDetermines(a, b);
    PayloadInjective(ConfigData(a), ConfigData(b));
    hide Payload;
  }
}
